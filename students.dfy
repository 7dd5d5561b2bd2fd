/**
 * The student repository (`useStudents`): an in-memory list of students
 * written through to the store under `STUDENTS_KEY` after every command.
 * The caller supplies what the source takes from the environment: the
 * current ISO timestamp `now`, a fresh id in place of `generateId`, and
 * whether each storage access succeeds.
 */
module Students {
  import opened Lists
  import opened Types
  import opened Storage

  /** What `addStudent` is given: a student without id and timestamps. */
  datatype StudentData = StudentData(
    fullName: string,
    age: int,
    parentPhone: string,
    course: Course,
    subscription: Subscription,
    notes: Option<string>)

  /** The caller-editable fields of a student. */
  function DataOf(s: Student): StudentData {
    StudentData(s.fullName, s.age, s.parentPhone, s.course, s.subscription, s.notes)
  }

  /** The student `addStudent` creates from `data`. */
  function NewStudent(data: StudentData, id: string, now: string): (r: Student)
    ensures DataOf(r) == data
    ensures r.id == id && r.createdAt == now && r.updatedAt == now
  {
    Student(id, data.fullName, data.age, data.parentPhone, data.course, data.subscription,
            data.notes, now, now)
  }

  /**
   * The fields `updateStudent` may be given; a field is changed only when
   * supplied. For `notes`, `Some(None)` is a key supplied as `undefined`,
   * which clears the notes.
   */
  datatype StudentPatch = StudentPatch(
    fullName: Option<string>,
    age: Option<int>,
    parentPhone: Option<string>,
    course: Option<Course>,
    subscription: Option<Subscription>,
    notes: Option<Option<string>>)

  /** `{ ...student, ...data, updatedAt: now }`. */
  function Patched(s: Student, patch: StudentPatch, now: string): (r: Student)
    ensures r.id == s.id && r.createdAt == s.createdAt && r.updatedAt == now
    ensures patch.fullName.None? ==> r.fullName == s.fullName
    ensures patch.fullName.Some? ==> r.fullName == patch.fullName.value
    ensures patch.age.None? ==> r.age == s.age
    ensures patch.age.Some? ==> r.age == patch.age.value
    ensures patch.parentPhone.None? ==> r.parentPhone == s.parentPhone
    ensures patch.parentPhone.Some? ==> r.parentPhone == patch.parentPhone.value
    ensures patch.course.None? ==> r.course == s.course
    ensures patch.course.Some? ==> r.course == patch.course.value
    ensures patch.subscription.None? ==> r.subscription == s.subscription
    ensures patch.subscription.Some? ==> r.subscription == patch.subscription.value
    ensures patch.notes.None? ==> r.notes == s.notes
    ensures patch.notes.Some? ==> r.notes == patch.notes.value
  {
    s.(fullName := patch.fullName.GetOr(s.fullName),
       age := patch.age.GetOr(s.age),
       parentPhone := patch.parentPhone.GetOr(s.parentPhone),
       course := patch.course.GetOr(s.course),
       subscription := patch.subscription.GetOr(s.subscription),
       notes := patch.notes.GetOr(s.notes),
       updatedAt := now)
  }

  /** The fields `updateSubscription` may be given (`Partial<Subscription>`). */
  datatype SubscriptionPatch = SubscriptionPatch(
    startDate: Option<int>,
    endDate: Option<int>,
    totalClasses: Option<int>,
    usedClasses: Option<int>)

  /** `{ ...student, subscription: { ...student.subscription, ...patch }, updatedAt: now }`. */
  function SubscriptionPatched(s: Student, patch: SubscriptionPatch, now: string): (r: Student)
    ensures r == s.(subscription := r.subscription, updatedAt := now)
    ensures patch.startDate.None? ==> r.subscription.startDate == s.subscription.startDate
    ensures patch.startDate.Some? ==> r.subscription.startDate == patch.startDate.value
    ensures patch.endDate.None? ==> r.subscription.endDate == s.subscription.endDate
    ensures patch.endDate.Some? ==> r.subscription.endDate == patch.endDate.value
    ensures patch.totalClasses.None? ==> r.subscription.totalClasses == s.subscription.totalClasses
    ensures patch.totalClasses.Some? ==> r.subscription.totalClasses == patch.totalClasses.value
    ensures patch.usedClasses.None? ==> r.subscription.usedClasses == s.subscription.usedClasses
    ensures patch.usedClasses.Some? ==> r.subscription.usedClasses == patch.usedClasses.value
  {
    var sub := s.subscription;
    s.(subscription := Subscription(
         patch.startDate.GetOr(sub.startDate),
         patch.endDate.GetOr(sub.endDate),
         patch.totalClasses.GetOr(sub.totalClasses),
         patch.usedClasses.GetOr(sub.usedClasses)),
       updatedAt := now)
  }

  /**
   * One class of `useClass`: `usedClasses := min(usedClasses + 1, totalClasses)`.
   * Afterwards no more classes are used than were bought; a count already
   * above the total (from a manual edit) is pulled down to the total.
   */
  function ClassUsed(s: Student, now: string): (r: Student)
    ensures r == s.(subscription := r.subscription, updatedAt := now)
    ensures r.subscription == s.subscription.(usedClasses := r.subscription.usedClasses)
    ensures r.subscription.usedClasses <= r.subscription.totalClasses
    ensures s.subscription.usedClasses < s.subscription.totalClasses ==>
      r.subscription.usedClasses == s.subscription.usedClasses + 1
    ensures s.subscription.usedClasses >= s.subscription.totalClasses ==>
      r.subscription.usedClasses == s.subscription.totalClasses
  {
    var sub := s.subscription;
    var used := if sub.usedClasses + 1 <= sub.totalClasses then sub.usedClasses + 1 else sub.totalClasses;
    s.(subscription := sub.(usedClasses := used), updatedAt := now)
  }

  /** `updateStudent` on the list: every student with that id is patched, others kept. */
  function UpdateStudents(students: seq<Student>, id: string, patch: StudentPatch, now: string): (r: seq<Student>)
    ensures |r| == |students|
    ensures forall i :: 0 <= i < |r| ==> r[i].id == students[i].id
    ensures forall i :: 0 <= i < |r| && students[i].id != id ==> r[i] == students[i]
    ensures forall i :: 0 <= i < |r| && students[i].id == id ==> r[i] == Patched(students[i], patch, now)
    ensures (forall i :: 0 <= i < |students| ==> students[i].id != id) ==> r == students
  {
    MapWhere(students, (s: Student) => s.id == id, (s: Student) => Patched(s, patch, now))
  }

  /** `updateSubscription` on the list. */
  function UpdateSubscriptions(students: seq<Student>, id: string, patch: SubscriptionPatch, now: string): (r: seq<Student>)
    ensures |r| == |students|
    ensures forall i :: 0 <= i < |r| ==> r[i].id == students[i].id
    ensures forall i :: 0 <= i < |r| && students[i].id != id ==> r[i] == students[i]
    ensures forall i :: 0 <= i < |r| && students[i].id == id ==> r[i] == SubscriptionPatched(students[i], patch, now)
    ensures (forall i :: 0 <= i < |students| ==> students[i].id != id) ==> r == students
  {
    MapWhere(students, (s: Student) => s.id == id, (s: Student) => SubscriptionPatched(s, patch, now))
  }

  /** `useClass` on the list. */
  function UseClassOn(students: seq<Student>, id: string, now: string): (r: seq<Student>)
    ensures |r| == |students|
    ensures forall i :: 0 <= i < |r| ==> r[i].id == students[i].id
    ensures forall i :: 0 <= i < |r| && students[i].id != id ==> r[i] == students[i]
    ensures forall i :: 0 <= i < |r| && students[i].id == id ==>
      r[i] == ClassUsed(students[i], now) &&
      r[i].subscription.usedClasses <= r[i].subscription.totalClasses
    ensures (forall i :: 0 <= i < |students| ==> students[i].id != id) ==> r == students
  {
    MapWhere(students, (s: Student) => s.id == id, (s: Student) => ClassUsed(s, now))
  }

  /**
   * `deleteStudent` on the list: every student with that id goes, the rest
   * stay in their original order (a `Filter`; see `FilterConcat`).
   */
  function WithoutStudent(students: seq<Student>, id: string): (r: seq<Student>)
    ensures forall i :: 0 <= i < |r| ==> r[i].id != id && r[i] in students
    ensures forall k :: 0 <= k < |students| && students[k].id != id ==> students[k] in r
    ensures |r| == |students| - Count(students, (s: Student) => s.id == id)
  {
    CountComplement(students, (s: Student) => s.id == id, (s: Student) => s.id != id);
    Filter(students, (s: Student) => s.id != id)
  }

  /**
   * The cascade of `deleteStudent` on the stored attendance: that student's
   * records go, the rest stay in their original order (a `Filter`; see
   * `FilterConcat`).
   */
  function RecordsWithoutStudent(records: seq<AttendanceRecord>, id: string): (r: seq<AttendanceRecord>)
    ensures forall i :: 0 <= i < |r| ==> r[i].studentId != id && r[i] in records
    ensures forall k :: 0 <= k < |records| && records[k].studentId != id ==> records[k] in r
    ensures |r| == |records| - Count(records, (a: AttendanceRecord) => a.studentId == id)
  {
    CountComplement(records, (a: AttendanceRecord) => a.studentId == id, (a: AttendanceRecord) => a.studentId != id);
    Filter(records, (a: AttendanceRecord) => a.studentId != id)
  }

  /** `getStudent`: the first student with that id, if any. */
  function GetStudent(students: seq<Student>, id: string): (r: Option<Student>)
    ensures r.None? <==> forall k :: 0 <= k < |students| ==> students[k].id != id
    ensures r.Some? ==> exists k :: 0 <= k < |students| && students[k] == r.value && students[k].id == id &&
                                     forall j :: 0 <= j < k ==> students[j].id != id
  {
    Find(students, (s: Student) => s.id == id)
  }

  datatype StudentStats = StudentStats(total: nat, active: nat, expiring: nat, expired: nat)

  /**
   * `getStats`: students by status on the day of `nowMs`. `expired` counts
   * both expired and exhausted passes, so the three counts share out the
   * total.
   */
  function GetStats(students: seq<Student>, nowMs: int): (r: StudentStats)
    ensures r.total == |students|
    ensures r.active + r.expiring + r.expired == r.total
    ensures r.active == Count(students, (s: Student) => GetSubscriptionStatus(s.subscription, nowMs) == Active)
    ensures r.expiring == Count(students, (s: Student) => GetSubscriptionStatus(s.subscription, nowMs) == Expiring)
    ensures r.expired == Count(students, (s: Student) => IsLapsed(GetSubscriptionStatus(s.subscription, nowMs)))
  {
    var isActive := (s: Student) => GetSubscriptionStatus(s.subscription, nowMs) == Active;
    var isExpiring := (s: Student) => GetSubscriptionStatus(s.subscription, nowMs) == Expiring;
    var isLapsed := (s: Student) => IsLapsed(GetSubscriptionStatus(s.subscription, nowMs));
    CountPartition3(students, isActive, isExpiring, isLapsed);
    StudentStats(|students|, Count(students, isActive), Count(students, isExpiring), Count(students, isLapsed))
  }

  /** `add` then `get` of the returned id gives back the created student. */
  lemma {:induction false} AddThenGet(students: seq<Student>, data: StudentData, id: string, now: string)
    requires forall k :: 0 <= k < |students| ==> students[k].id != id
    ensures GetStudent(students + [NewStudent(data, id, now)], id) == Some(NewStudent(data, id, now))
  {
    var all := students + [NewStudent(data, id, now)];
    var r := GetStudent(all, id);
    assert all[|students|].id == id;
    assert forall k :: 0 <= k < |all| && all[k].id == id ==> k == |students|;
  }

  /** Using a class when all are used changes nothing but the update stamp. */
  lemma UseClassFixedPoint(s: Student, now: string)
    requires s.subscription.usedClasses == s.subscription.totalClasses
    ensures ClassUsed(s, now) == s.(updatedAt := now)
  {
  }

  /** `useClass(id)` called `n` times in a row. */
  function UseClassRepeated(students: seq<Student>, id: string, now: string, n: nat): seq<Student> {
    if n == 0 then students else UseClassOn(UseClassRepeated(students, id, now, n - 1), id, now)
  }

  /** No student has used more classes than were bought. */
  predicate WithinTotals(students: seq<Student>) {
    forall k :: 0 <= k < |students| ==>
      students[k].subscription.usedClasses <= students[k].subscription.totalClasses
  }

  /** Any number of `useClass` calls keeps every used count within its total, once it is. */
  lemma {:induction false} UseClassNeverExceeds(students: seq<Student>, id: string, now: string, n: nat)
    requires WithinTotals(students)
    ensures WithinTotals(UseClassRepeated(students, id, now, n))
  {
    if n > 0 {
      UseClassNeverExceeds(students, id, now, n - 1);
      var prev := UseClassRepeated(students, id, now, n - 1);
      var r := UseClassOn(prev, id, now);
      forall k | 0 <= k < |r|
        ensures r[k].subscription.usedClasses <= r[k].subscription.totalClasses
      {
        if prev[k].id != id {
          assert r[k] == prev[k];
        }
      }
    }
  }

  class StudentRepository {
    var students: seq<Student>
    const store: Store

    /** The initial load of `useStudents`. */
    constructor (store: Store, available: bool)
      ensures this.store == store
      ensures students == LoadStudents(Read(store.entries, STUDENTS_KEY, available))
    {
      var saved := store.SafeGetItem(STUDENTS_KEY, available);
      this.store := store;
      students := LoadStudents(saved);
    }

    /**
     * `saveAndSetStudents`: persist the new list (best effort), then adopt it.
     * The in-memory list is replaced even when the write fails.
     */
    method SaveAndSetStudents(newStudents: seq<Student>, writeOk: bool)
      modifies this, store
      ensures students == newStudents
      ensures store.entries == Written(old(store.entries), STUDENTS_KEY, StudentsJson(newStudents), writeOk)
      ensures writeOk ==> LoadStudents(Read(store.entries, STUDENTS_KEY, true)) == students
    {
      store.SafeSetItem(STUDENTS_KEY, StudentsJson(newStudents), writeOk);
      students := newStudents;
    }

    /** `addStudent`: append one new student with a fresh id and return it. */
    method AddStudent(data: StudentData, freshId: string, now: string, writeOk: bool) returns (created: Student)
      requires forall k :: 0 <= k < |students| ==> students[k].id != freshId
      modifies this, store
      ensures created == NewStudent(data, freshId, now)
      ensures students == old(students) + [created]
      ensures GetStudent(students, freshId) == Some(created)
      ensures store.entries == Written(old(store.entries), STUDENTS_KEY, StudentsJson(students), writeOk)
    {
      created := NewStudent(data, freshId, now);
      AddThenGet(students, data, freshId, now);
      SaveAndSetStudents(students + [created], writeOk);
    }

    /** `updateStudent`: merge the supplied fields into the student with that id. */
    method UpdateStudent(id: string, patch: StudentPatch, now: string, writeOk: bool)
      modifies this, store
      ensures students == UpdateStudents(old(students), id, patch, now)
      ensures store.entries == Written(old(store.entries), STUDENTS_KEY, StudentsJson(students), writeOk)
    {
      SaveAndSetStudents(UpdateStudents(students, id, patch, now), writeOk);
    }

    /**
     * `deleteStudent`: drop the student, save, then re-read the stored
     * attendance and, if it parses, save it again without that student's
     * records. The second step reads and writes only the store.
     */
    method DeleteStudent(id: string, available: bool, studentsWriteOk: bool, attendanceWriteOk: bool)
      modifies this, store
      ensures students == WithoutStudent(old(students), id)
      ensures var afterStudents := Written(old(store.entries), STUDENTS_KEY, StudentsJson(students), studentsWriteOk);
        var saved := ParseRecords(Read(afterStudents, ATTENDANCE_KEY, available));
        store.entries == if saved.None? then afterStudents
                         else Written(afterStudents, ATTENDANCE_KEY,
                                      RecordsJson(RecordsWithoutStudent(saved.value, id)), attendanceWriteOk)
      ensures available && attendanceWriteOk && ParseRecords(Read(old(store.entries), ATTENDANCE_KEY, true)).Some? ==>
        forall r :: r in LoadRecords(Read(store.entries, ATTENDANCE_KEY, true)) ==> r.studentId != id
      ensures ParseRecords(Read(old(store.entries), ATTENDANCE_KEY, available)).None? ==>
        Read(store.entries, ATTENDANCE_KEY, true) == Read(old(store.entries), ATTENDANCE_KEY, true)
    {
      SaveAndSetStudents(WithoutStudent(students, id), studentsWriteOk);
      WritesAreIndependent(old(store.entries), StudentsJson(students), studentsWriteOk, available);
      WritesAreIndependent(old(store.entries), StudentsJson(students), studentsWriteOk, true);
      var savedAttendance := store.SafeGetItem(ATTENDANCE_KEY, available);
      var attendance := ParseRecords(savedAttendance);
      if attendance.Some? {
        var filtered := RecordsWithoutStudent(attendance.value, id);
        store.SafeSetItem(ATTENDANCE_KEY, RecordsJson(filtered), attendanceWriteOk);
      }
    }

    /** `updateSubscription`: shallow-merge the supplied subscription fields. */
    method UpdateSubscription(id: string, patch: SubscriptionPatch, now: string, writeOk: bool)
      modifies this, store
      ensures students == UpdateSubscriptions(old(students), id, patch, now)
      ensures store.entries == Written(old(store.entries), STUDENTS_KEY, StudentsJson(students), writeOk)
    {
      SaveAndSetStudents(UpdateSubscriptions(students, id, patch, now), writeOk);
    }

    /** `useClass`: count one more class used, never beyond the total. */
    method UseClass(id: string, now: string, writeOk: bool)
      modifies this, store
      ensures students == UseClassOn(old(students), id, now)
      ensures store.entries == Written(old(store.entries), STUDENTS_KEY, StudentsJson(students), writeOk)
    {
      SaveAndSetStudents(UseClassOn(students, id, now), writeOk);
    }
  }
}
