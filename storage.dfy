/**
 * The browser key/value store as the two repositories use it: two fixed
 * keys, best-effort reads and writes that never fail loudly, and loads that
 * fall back to an empty collection.
 */
module Storage {
  import opened Lists
  import opened Types

  const STUDENTS_KEY: string := "attendance_students"
  const ATTENDANCE_KEY: string := "attendance_records"

  /**
   * The text stored under a key, seen through `JSON.parse`: either the
   * serialised form of one of the two collections, or text that does not
   * parse.
   */
  datatype Blob =
    | Unparseable
    | StudentsJson(students: seq<Student>)
    | RecordsJson(records: seq<AttendanceRecord>)

  /**
   * `safeGetItem`: the stored text, or nothing when the key is absent or the
   * storage cannot be reached (`available` is false when there is no
   * `window` or `getItem` throws).
   */
  function Read(entries: map<string, Blob>, key: string, available: bool): (r: Option<Blob>)
    ensures r.Some? <==> available && key in entries
    ensures r.Some? ==> r.value == entries[key]
  {
    if available && key in entries then Some(entries[key]) else None
  }

  /**
   * `safeSetItem`: the store after a write attempt; `succeeds` is false when
   * there is no `window` or `setItem` throws (quota exceeded), and then
   * nothing changes.
   */
  function Written(entries: map<string, Blob>, key: string, value: Blob, succeeds: bool): (r: map<string, Blob>)
    ensures succeeds ==> key in r && r[key] == value
    ensures forall k :: k != key ==> (k in r <==> k in entries)
    ensures forall k :: k != key && k in r ==> r[k] == entries[k]
    ensures !succeeds ==> r == entries
  {
    if succeeds then entries[key := value] else entries
  }

  /** `JSON.parse` of the students collection; nothing when absent or unreadable. */
  function ParseStudents(v: Option<Blob>): (r: Option<seq<Student>>)
    ensures r.Some? <==> v.Some? && v.value.StudentsJson?
    ensures r.Some? ==> r.value == v.value.students
  {
    if v.Some? && v.value.StudentsJson? then Some(v.value.students) else None
  }

  /** `JSON.parse` of the attendance collection; nothing when absent or unreadable. */
  function ParseRecords(v: Option<Blob>): (r: Option<seq<AttendanceRecord>>)
    ensures r.Some? <==> v.Some? && v.value.RecordsJson?
    ensures r.Some? ==> r.value == v.value.records
  {
    if v.Some? && v.value.RecordsJson? then Some(v.value.records) else None
  }

  /** The initial load of `useStudents`: the stored list, or `[]` if absent or corrupt. */
  function LoadStudents(v: Option<Blob>): (r: seq<Student>)
    ensures ParseStudents(v).None? ==> r == []
    ensures ParseStudents(v).Some? ==> r == ParseStudents(v).value
  {
    ParseStudents(v).GetOr([])
  }

  /** The initial load of `useAttendance`: the stored list, or `[]` if absent or corrupt. */
  function LoadRecords(v: Option<Blob>): (r: seq<AttendanceRecord>)
    ensures ParseRecords(v).None? ==> r == []
    ensures ParseRecords(v).Some? ==> r == ParseRecords(v).value
  {
    ParseRecords(v).GetOr([])
  }

  /** The store shared by both repositories. */
  class Store {
    var entries: map<string, Blob>

    constructor (initial: map<string, Blob>)
      ensures entries == initial
    {
      entries := initial;
    }

    method SafeGetItem(key: string, available: bool) returns (v: Option<Blob>)
      ensures v == Read(entries, key, available)
    {
      if available && key in entries {
        v := Some(entries[key]);
      } else {
        v := None;
      }
    }

    method SafeSetItem(key: string, value: Blob, succeeds: bool)
      modifies this
      ensures entries == Written(old(entries), key, value, succeeds)
    {
      if succeeds {
        entries := entries[key := value];
      }
    }
  }

  /** The two collections live under different keys. */
  lemma KeysDistinct()
    ensures STUDENTS_KEY != ATTENDANCE_KEY
  {
  }

  /** Writing one collection leaves what is read under the other key unchanged. */
  lemma {:induction false} WritesAreIndependent(entries: map<string, Blob>, value: Blob, succeeds: bool, available: bool)
    ensures Read(Written(entries, STUDENTS_KEY, value, succeeds), ATTENDANCE_KEY, available)
         == Read(entries, ATTENDANCE_KEY, available)
    ensures Read(Written(entries, ATTENDANCE_KEY, value, succeeds), STUDENTS_KEY, available)
         == Read(entries, STUDENTS_KEY, available)
  {
    KeysDistinct();
  }

  /** A successful save followed by a load gives back the saved collection. */
  lemma SaveThenLoad(entries: map<string, Blob>, students: seq<Student>, records: seq<AttendanceRecord>)
    ensures LoadStudents(Read(Written(entries, STUDENTS_KEY, StudentsJson(students), true), STUDENTS_KEY, true)) == students
    ensures LoadRecords(Read(Written(entries, ATTENDANCE_KEY, RecordsJson(records), true), ATTENDANCE_KEY, true)) == records
  {
  }
}
