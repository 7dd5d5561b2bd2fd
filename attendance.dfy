/**
 * The attendance repository (`useAttendance`): an in-memory list of
 * attendance records written through to the store under `ATTENDANCE_KEY`.
 * Marking is an upsert keyed on the pair (student id, date).
 */
module Attendance {
  import opened Lists
  import opened Types
  import opened Storage

  /** Index of the first record for the pair, or -1 (the `findIndex` of `markAttendance`). */
  function PairIndex(records: seq<AttendanceRecord>, studentId: string, date: string): (i: int)
    ensures -1 <= i < |records|
    ensures i == -1 <==> forall k :: 0 <= k < |records| ==>
      records[k].studentId != studentId || records[k].date != date
    ensures 0 <= i ==> records[i].studentId == studentId && records[i].date == date
    ensures 0 <= i ==> forall k :: 0 <= k < i ==>
      records[k].studentId != studentId || records[k].date != date
  {
    FindIndex(records, (r: AttendanceRecord) => r.studentId == studentId && r.date == date)
  }

  /** At most one record per (student id, date) pair. */
  predicate UniquePairs(records: seq<AttendanceRecord>) {
    forall i, j :: 0 <= i < j < |records| ==>
      records[i].studentId != records[j].studentId || records[i].date != records[j].date
  }

  /** No two records share an id. */
  predicate UniqueIds(records: seq<AttendanceRecord>) {
    forall i, j :: 0 <= i < j < |records| ==> records[i].id != records[j].id
  }

  /**
   * `markAttendance` on the list. An existing record for the pair keeps its
   * id, student and date and takes the new presence, notes and timestamp
   * (the source refreshes `createdAt` here); every other record is kept.
   * Without one, a new record is appended.
   */
  function Upsert(records: seq<AttendanceRecord>, studentId: string, date: string, present: bool,
                  notes: Option<string>, now: string, freshId: string): (r: seq<AttendanceRecord>)
    ensures PairIndex(records, studentId, date) >= 0 ==> |r| == |records|
    ensures PairIndex(records, studentId, date) < 0 ==>
      r == records + [AttendanceRecord(freshId, studentId, date, present, notes, now)]
    ensures forall k :: 0 <= k < |records| && k != PairIndex(records, studentId, date) ==> r[k] == records[k]
    ensures var i := PairIndex(records, studentId, date);
      i >= 0 ==> r[i] == records[i].(present := present, notes := notes, createdAt := now)
    ensures forall k :: 0 <= k < |records| ==>
      r[k].id == records[k].id && r[k].studentId == records[k].studentId && r[k].date == records[k].date
    ensures exists k ::
              0 <= k < |r| && r[k].studentId == studentId && r[k].date == date &&
              r[k].present == present && r[k].notes == notes && r[k].createdAt == now
  {
    var i := PairIndex(records, studentId, date);
    if i >= 0 then
      records[i := records[i].(present := present, notes := notes, createdAt := now)]
    else
      var added := records + [AttendanceRecord(freshId, studentId, date, present, notes, now)];
      assert added[|records|].studentId == studentId;
      added
  }

  /** Marking keeps "at most one record per pair". */
  lemma {:induction false} UpsertKeepsUniquePairs(records: seq<AttendanceRecord>, studentId: string, date: string,
                                                   present: bool, notes: Option<string>, now: string, freshId: string)
    requires UniquePairs(records)
    ensures UniquePairs(Upsert(records, studentId, date, present, notes, now, freshId))
  {
    var r := Upsert(records, studentId, date, present, notes, now, freshId);
    if PairIndex(records, studentId, date) < 0 {
      assert forall k :: 0 <= k < |records| ==> r[k] == records[k];
    }
  }

  /** Marking with an id not already in use keeps record ids unique. */
  lemma {:induction false} UpsertKeepsUniqueIds(records: seq<AttendanceRecord>, studentId: string, date: string,
                                                 present: bool, notes: Option<string>, now: string, freshId: string)
    requires UniqueIds(records)
    requires forall k :: 0 <= k < |records| ==> records[k].id != freshId
    ensures UniqueIds(Upsert(records, studentId, date, present, notes, now, freshId))
  {
    var r := Upsert(records, studentId, date, present, notes, now, freshId);
    if PairIndex(records, studentId, date) < 0 {
      assert forall k :: 0 <= k < |records| ==> r[k] == records[k];
    }
  }

  /**
   * Marking the same pair twice: the second call adds nothing, the pair has
   * exactly one record and it carries the second call's presence, and the
   * student's record count is what the first call left.
   */
  lemma {:induction false} MarkTwice(records: seq<AttendanceRecord>, studentId: string, date: string, present: bool,
                                     notes: Option<string>, now1: string, now2: string, id1: string, id2: string)
    requires UniquePairs(records)
    ensures var once := Upsert(records, studentId, date, present, notes, now1, id1);
      var twice := Upsert(once, studentId, date, present, notes, now2, id2);
      |twice| == |once| &&
      Count(twice, (r: AttendanceRecord) => r.studentId == studentId && r.date == date) == 1 &&
      Count(twice, (r: AttendanceRecord) => r.studentId == studentId) ==
        Count(once, (r: AttendanceRecord) => r.studentId == studentId) &&
      forall k :: 0 <= k < |twice| && twice[k].studentId == studentId && twice[k].date == date ==>
        twice[k].present == present
  {
    var once := Upsert(records, studentId, date, present, notes, now1, id1);
    UpsertKeepsUniquePairs(records, studentId, date, present, notes, now1, id1);
    var i := PairIndex(once, studentId, date);
    assert i >= 0;
    var twice := Upsert(once, studentId, date, present, notes, now2, id2);
    UpsertKeepsUniquePairs(once, studentId, date, present, notes, now2, id2);
    assert twice[i].present == present;
    forall k | 0 <= k < |twice| && k != i
      ensures twice[k].studentId != studentId || twice[k].date != date
    {
      if k < i {
        assert twice[k].studentId != studentId || twice[k].date != date;
      } else {
        assert UniquePairs(twice) && i < k;
      }
    }
    CountSingle(twice, (r: AttendanceRecord) => r.studentId == studentId && r.date == date, i);
    CountPointwise(twice, once, (r: AttendanceRecord) => r.studentId == studentId);
  }

  /**
   * `getRecordsByDate`: exactly the records of that date. It is a `Filter`,
   * so by `FilterConcat` the kept records stay in their original order.
   */
  function RecordsByDate(records: seq<AttendanceRecord>, date: string): (r: seq<AttendanceRecord>)
    ensures forall i :: 0 <= i < |r| ==> r[i].date == date && r[i] in records
    ensures forall k :: 0 <= k < |records| && records[k].date == date ==> records[k] in r
    ensures |r| == Count(records, (a: AttendanceRecord) => a.date == date)
  {
    Filter(records, (a: AttendanceRecord) => a.date == date)
  }

  /**
   * `getRecordsByStudent`: exactly the records of that student, in their
   * original order (a `Filter`; see `FilterConcat`).
   */
  function RecordsByStudent(records: seq<AttendanceRecord>, studentId: string): (r: seq<AttendanceRecord>)
    ensures forall i :: 0 <= i < |r| ==> r[i].studentId == studentId && r[i] in records
    ensures forall k :: 0 <= k < |records| && records[k].studentId == studentId ==> records[k] in r
    ensures |r| == Count(records, (a: AttendanceRecord) => a.studentId == studentId)
  {
    Filter(records, (a: AttendanceRecord) => a.studentId == studentId)
  }

  /**
   * `deleteRecord` on the list: exactly the records with another id, in
   * their original order (a `Filter`; see `FilterConcat`).
   */
  function WithoutRecord(records: seq<AttendanceRecord>, id: string): (r: seq<AttendanceRecord>)
    ensures forall i :: 0 <= i < |r| ==> r[i].id != id && r[i] in records
    ensures forall k :: 0 <= k < |records| && records[k].id != id ==> records[k] in r
    ensures |r| == |records| - Count(records, (a: AttendanceRecord) => a.id == id)
  {
    CountComplement(records, (a: AttendanceRecord) => a.id == id, (a: AttendanceRecord) => a.id != id);
    Filter(records, (a: AttendanceRecord) => a.id != id)
  }

  /** Multiplying by a non-negative factor keeps the order. */
  lemma MulMonotone(t: nat, a: int, b: int)
    requires a <= b
    ensures t * a <= t * b
  {
    assert t * b - t * a == t * (b - a);
  }

  /**
   * `Math.round(present / total * 100)` on exact numbers: the nearest whole
   * percentage, halves rounded up.
   */
  function RoundPercent(present: nat, total: nat): (q: nat)
    requires 0 < total && present <= total
    ensures q <= 100
    ensures total * (2 * q - 1) <= 200 * present < total * (2 * q + 1)
  {
    var x := 200 * present + total;
    var q := x / (2 * total);
    assert q * (2 * total) <= x < q * (2 * total) + 2 * total;
    assert total * (2 * q) == q * (2 * total);
    assert total * (2 * q - 1) == total * (2 * q) - total;
    assert total * (2 * q + 1) == total * (2 * q) + total;
    assert q <= 100 by {
      MulMonotone(total, present, total);
      if q > 100 {
        MulMonotone(total, 202, 2 * q);
      }
    }
    q
  }

  datatype AttendanceStats = AttendanceStats(total: nat, present: nat, absent: nat, percentage: nat)

  /** `getStudentStats`: a student's marks, split into present and absent, and the rounded rate. */
  function GetStudentStats(records: seq<AttendanceRecord>, studentId: string): (r: AttendanceStats)
    ensures r.total == |RecordsByStudent(records, studentId)|
    ensures r.present == Count(RecordsByStudent(records, studentId), (a: AttendanceRecord) => a.present)
    ensures r.absent == Count(RecordsByStudent(records, studentId), (a: AttendanceRecord) => !a.present)
    ensures r.present + r.absent == r.total
    ensures r.total == 0 ==> r.percentage == 0
    ensures r.percentage <= 100
    ensures r.total > 0 ==>
      r.total * (2 * r.percentage - 1) <= 200 * r.present < r.total * (2 * r.percentage + 1)
  {
    var studentRecords := RecordsByStudent(records, studentId);
    var total := |studentRecords|;
    var present := |Filter(studentRecords, (a: AttendanceRecord) => a.present)|;
    CountComplement(studentRecords, (a: AttendanceRecord) => a.present, (a: AttendanceRecord) => !a.present);
    var absent := total - present;
    var percentage := if total > 0 then RoundPercent(present, total) else 0;
    AttendanceStats(total, present, absent, percentage)
  }

  class AttendanceRepository {
    var records: seq<AttendanceRecord>
    const store: Store

    /** The initial load of `useAttendance`. */
    constructor (store: Store, available: bool)
      ensures this.store == store
      ensures records == LoadRecords(Read(store.entries, ATTENDANCE_KEY, available))
    {
      var saved := store.SafeGetItem(ATTENDANCE_KEY, available);
      this.store := store;
      records := LoadRecords(saved);
    }

    /**
     * `saveAndSetRecords`: persist the new list (best effort), then adopt it.
     * The in-memory list is replaced even when the write fails.
     */
    method SaveAndSetRecords(newRecords: seq<AttendanceRecord>, writeOk: bool)
      modifies this, store
      ensures records == newRecords
      ensures store.entries == Written(old(store.entries), ATTENDANCE_KEY, RecordsJson(newRecords), writeOk)
      ensures writeOk ==> LoadRecords(Read(store.entries, ATTENDANCE_KEY, true)) == records
    {
      store.SafeSetItem(ATTENDANCE_KEY, RecordsJson(newRecords), writeOk);
      records := newRecords;
    }

    /** `markAttendance`: upsert the mark for (studentId, date) and save. */
    method MarkAttendance(studentId: string, date: string, present: bool, notes: Option<string>,
                          now: string, freshId: string, writeOk: bool)
      requires forall k :: 0 <= k < |records| ==> records[k].id != freshId
      modifies this, store
      ensures records == Upsert(old(records), studentId, date, present, notes, now, freshId)
      ensures UniquePairs(old(records)) ==> UniquePairs(records)
      ensures UniqueIds(old(records)) ==> UniqueIds(records)
      ensures store.entries == Written(old(store.entries), ATTENDANCE_KEY, RecordsJson(records), writeOk)
    {
      if UniquePairs(records) {
        UpsertKeepsUniquePairs(records, studentId, date, present, notes, now, freshId);
      }
      if UniqueIds(records) {
        UpsertKeepsUniqueIds(records, studentId, date, present, notes, now, freshId);
      }
      SaveAndSetRecords(Upsert(records, studentId, date, present, notes, now, freshId), writeOk);
    }

    /** `deleteRecord`: drop the record with that id and save. */
    method DeleteRecord(id: string, writeOk: bool)
      modifies this, store
      ensures records == WithoutRecord(old(records), id)
      ensures store.entries == Written(old(store.entries), ATTENDANCE_KEY, RecordsJson(records), writeOk)
    {
      SaveAndSetRecords(WithoutRecord(records, id), writeOk);
    }
  }
}
