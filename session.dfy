/**
 * Both repositories in one page session, sharing one store. Each keeps its
 * own in-memory list, so a command of one is not seen by the other until
 * the page is loaded again.
 */
module Session {
  import opened Lists
  import opened Types
  import opened Storage
  import opened Students
  import opened Attendance

  /**
   * Delete a student, then mark attendance for another student in the same
   * session. Right after the delete the stored attendance holds none of the
   * deleted student's records; the mark saves the attendance repository's
   * own list, loaded before the delete, so those records are stored again.
   */
  method DeleteThenMark(initial: map<string, Blob>, id: string, otherStudent: string, date: string,
                        present: bool, notes: Option<string>, now: string, freshId: string)
    returns (storedAfterDelete: seq<AttendanceRecord>, storedAfterMark: seq<AttendanceRecord>)
    requires ATTENDANCE_KEY in initial && initial[ATTENDANCE_KEY].RecordsJson?
    requires otherStudent != id
    requires forall k :: 0 <= k < |initial[ATTENDANCE_KEY].records| ==>
      initial[ATTENDANCE_KEY].records[k].id != freshId
    ensures RecordsByStudent(storedAfterDelete, id) == []
    ensures forall r :: r in initial[ATTENDANCE_KEY].records && r.studentId == id ==> r in storedAfterMark
  {
    var store := new Store(initial);
    var students := new StudentRepository(store, true);
    var attendance := new AttendanceRepository(store, true);
    ghost var loaded := attendance.records;
    assert loaded == initial[ATTENDANCE_KEY].records;

    assert ParseRecords(Read(store.entries, ATTENDANCE_KEY, true)).Some?;
    students.DeleteStudent(id, true, true, true);
    storedAfterDelete := LoadRecords(Read(store.entries, ATTENDANCE_KEY, true));
    assert forall r :: r in storedAfterDelete ==> r.studentId != id;
    NoRecordsOfStudent(storedAfterDelete, id);
    assert attendance.records == loaded;

    label beforeMark:
    attendance.MarkAttendance(otherStudent, date, present, notes, now, freshId, true);
    storedAfterMark := LoadRecords(Read(store.entries, ATTENDANCE_KEY, true));
    SaveThenLoad(old@beforeMark(store.entries), [], attendance.records);
    assert storedAfterMark == Upsert(loaded, otherStudent, date, present, notes, now, freshId);
    forall r | r in loaded && r.studentId == id
      ensures r in storedAfterMark
    {
      var k :| 0 <= k < |loaded| && loaded[k] == r;
      assert storedAfterMark[k] == r;
    }
  }

  /** With no record of the student left, the per-student query is empty. */
  lemma NoRecordsOfStudent(records: seq<AttendanceRecord>, id: string)
    requires forall r :: r in records ==> r.studentId != id
    ensures RecordsByStudent(records, id) == []
  {
    CountNone(records, (a: AttendanceRecord) => a.studentId == id);
  }
}
