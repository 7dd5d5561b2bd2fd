# Student attendance and subscription tracker — Dafny model

This project models the domain core of a single-user attendance tracker for a
small school: students with a class pass (subscription), daily attendance
marks, and the status engine that sorts each pass into `exhausted`,
`expired`, `expiring` or `active`. State lives in the browser's key/value
store under two fixed keys, one per collection.

Modules, one per part of the source:

- `Lists` (lists.dfy): the array operations the repositories are written
  with (`filter`, `find`, `findIndex`, `map`, `filter(...).length`) as
  functions on sequences, with the counting lemmas the statistics need.
- `Types` (types.dfy, from `src/types/types.ts`): the data shapes, the status
  engine and the three lookup tables. Calendar dates are day numbers and the
  clock is a `nowMs` parameter (local wall-clock milliseconds), so the
  normalisation to 00:00 and to 23:59:59.999 and the `Math.ceil` of the
  difference are written out: `DaysUntilEnd` is proved equal to
  `endDate − today + 1`.
- `Storage` (storage.dfy): the store as a `Store` class holding
  `map<string, Blob>`, `safeGetItem`/`safeSetItem` with flags for "storage
  reachable" and "write succeeded", and the two initial loads.
- `Students` (students.dfy, from `useStudents`): a `StudentRepository` class
  with the in-memory `students` sequence and the shared `store`; each
  command is a method whose new state is a pure function of the old one,
  and the queries `getStudent` and `getStats` are functions.
- `Attendance` (attendance.dfy, from `useAttendance`): an
  `AttendanceRepository` class in the same style; marking is an upsert keyed
  on (student id, date).
- `Session` (session.dfy): both repositories over one store, showing that
  the delete cascade reaches the store but not the attendance repository's
  in-memory list.

Points where the code's behaviour is not the obvious one, and the model
follows the code:

- A pass whose end date was yesterday is `expiring`, not `expired`: the
  difference from today 00:00 to yesterday 23:59:59.999 is −1 ms, whose
  ceiling in days is 0 (`-0` in JavaScript), and `-0 < 0` is false. Only end
  dates two or more days back are `expired` (`GraceDay`).
- `useClass` computes `min(used + 1, total)`, so a used count above the
  total (from a manual edit) is pulled down to the total.
- `deleteStudent` filters the attendance collection in the store only. The
  attendance repository keeps its own list, so the next `markAttendance`
  in the same session writes the deleted student's records back
  (`Session.DeleteThenMark`).
- Re-marking an existing (student, date) pair overwrites `createdAt` with
  the current time.

## Model

| member | source | states |
|---|---|---|
| `Lists.Filter` | src/hooks/use-students.ts:223-230 | the result holds exactly the elements satisfying the predicate, each from the input, and its length is their count |
| `Lists.FilterConcat` | src/hooks/use-students.ts:223-230 | filtering distributes over concatenation, so kept elements stay in their original order |
| `Lists.FindIndex` | src/hooks/use-students.ts:195-197 | -1 exactly when nothing matches; otherwise the index of a match with no match before it |
| `Lists.Find` | src/hooks/use-students.ts:99-101 | nothing exactly when no element matches; otherwise the first matching element |
| `Lists.MapWhere` | src/hooks/use-students.ts:74-78 | same length; matching elements are rewritten, all others are unchanged |
| `Types.StartOfDay` | src/types/types.ts:42-43 | `setHours(0,0,0,0)`: a day boundary in the same day as the instant, at most one day before it, i.e. that day's first millisecond |
| `Types.EndOfDay` | src/types/types.ts:45-46 | `setHours(23,59,59,999)`: the last millisecond of that day |
| `Types.CeilDiv` | src/types/types.ts:48 | `Math.ceil(a / b)`: the least q with a ≤ q·b |
| `Types.DaysUntilEnd` | src/types/types.ts:42-48 | with whole-day dates, days until end = end day − today + 1 |
| `Types.ClassesLeft` | src/types/types.ts:49 | purchased minus used classes; none left exactly when the used count has reached the total |
| `Types.GetSubscriptionStatus` | src/types/types.ts:41-67 | exhausted iff classes left ≤ 0; expired iff classes remain and the end date is two or more days back; expiring iff classes remain, the end date is yesterday or later and (it is within six days ahead or ≤ 3 classes are left); active iff > 3 classes are left and the end date is seven or more days ahead |
| `Types.StatusIgnoresTimeOfDay` | src/types/types.ts:42-43 | two instants on the same day give the same status |
| `Types.GraceDay` | src/types/types.ts:42-59 | with classes left, an end date of today gives 1 day, yesterday gives 0 days and `expiring`, two days back gives `expired` |
| `Types.ThreeClassesLeftIsExpiring` | src/types/types.ts:61-64 | 8 classes, 5 used, ending in 6 days: `expiring` |
| `Types.AllClassesUsedIsExhausted` | src/types/types.ts:51-54 | 8 of 8 classes used, ending in 60 days: `exhausted` |
| `Types.StatusColor` | src/types/types.ts:69-81 | green exactly for active, yellow exactly for expiring, red exactly for expired or exhausted |
| `Types.StatusText` | src/types/types.ts:83-96 | each of the four statuses has its own label, and each label belongs to that status only |
| `Types.StatusBadgeVariant` | src/types/types.ts:98-110 | `default` exactly for active, `secondary` exactly for expiring, `destructive` exactly for expired or exhausted |
| `Types.ColorSeparatesGroups` | src/types/types.ts:69-81 | two statuses share a colour exactly when equal or both expired/exhausted; the grey fallback never occurs |
| `Types.BadgeSeparatesGroups` | src/types/types.ts:98-110 | two statuses share a badge variant exactly when equal or both expired/exhausted; `outline` never occurs |
| `Types.TextIsInjective` | src/types/types.ts:83-96 | the four labels are distinct and the fallback label never occurs |
| `Storage.Read` | src/hooks/use-students.ts:20-27 | a value exactly when storage is reachable and the key is present, and then the stored one |
| `Storage.Written` | src/hooks/use-students.ts:30-37 | a successful write sets the key; other keys are untouched; a failed write changes nothing |
| `Storage.ParseStudents` | src/hooks/use-students.ts:44 | a list exactly when a value is stored and it is a serialised students list, and then that list |
| `Storage.ParseRecords` | src/hooks/use-students.ts:90 | a list exactly when a value is stored and it is a serialised attendance list, and then that list (also the parse at line 176) |
| `Storage.LoadStudents` | src/hooks/use-students.ts:41-48 | the stored students list, or `[]` when absent or unparseable |
| `Storage.LoadRecords` | src/hooks/use-students.ts:173-180 | the stored attendance list, or `[]` when absent or unparseable |
| `Storage.Store.constructor` | src/hooks/use-students.ts:20-37 | the storage the two helpers read and write starts with the given entries (the page-load contents) |
| `Storage.Store.SafeGetItem` | src/hooks/use-students.ts:20-27 | returns what `Read` gives for the current entries |
| `Storage.Store.SafeSetItem` | src/hooks/use-students.ts:30-37 | the entries become what `Written` gives |
| `Storage.KeysDistinct` | src/hooks/use-students.ts:11-12 | the two storage keys differ |
| `Storage.WritesAreIndependent` | src/hooks/use-students.ts:11-12 | writing one collection's key does not change what is read under the other |
| `Storage.SaveThenLoad` | src/hooks/use-students.ts:51-54 | a successful save then a load gives back the saved list, for both collections |
| `Students.NewStudent` | src/hooks/use-students.ts:59-65 | the caller's fields are kept, the id is the fresh one, and both timestamps are `now` |
| `Students.Patched` | src/hooks/use-students.ts:74-78 | each supplied field replaces the old one, each omitted field is kept, id and `createdAt` are kept, `updatedAt` is `now` |
| `Students.SubscriptionPatched` | src/hooks/use-students.ts:108-116 | only the subscription and `updatedAt` change; each supplied subscription field replaces the old one, omitted ones are kept |
| `Students.ClassUsed` | src/hooks/use-students.ts:122-135 | only `usedClasses` and `updatedAt` change; used ≤ total afterwards; below the total it goes up by one, at or above it becomes the total |
| `Students.UpdateStudents` | src/hooks/use-students.ts:70-80 | length and ids kept; students with another id unchanged; matching ones patched; an unknown id leaves the list unchanged |
| `Students.UpdateSubscriptions` | src/hooks/use-students.ts:104-118 | length and ids kept; students with another id unchanged; matching ones merged; an unknown id leaves the list unchanged |
| `Students.UseClassOn` | src/hooks/use-students.ts:121-140 | length and ids kept; other students unchanged; matching ones have used ≤ total; an unknown id leaves the list unchanged |
| `Students.WithoutStudent` | src/hooks/use-students.ts:82-84 | no student with that id remains; every other student is kept; the length drops by the number of matches |
| `Students.RecordsWithoutStudent` | src/hooks/use-students.ts:87-92 | no record of that student remains; every other record is kept; the length drops by that student's record count |
| `Students.GetStudent` | src/hooks/use-students.ts:99-101 | nothing exactly when no student has that id; otherwise the first student in the list with that id |
| `Students.GetStats` | src/hooks/use-students.ts:143-156 | total is the list length; active, expiring and expired (expired or exhausted) count by status and add up to the total |
| `Students.AddThenGet` | src/hooks/use-students.ts:56-68 | with a fresh id, getting the id after adding returns the added student |
| `Students.UseClassFixedPoint` | src/hooks/use-students.ts:124-127 | with all classes used, using a class changes only `updatedAt` |
| `Students.UseClassNeverExceeds` | src/hooks/use-students.ts:121-140 | any number of `useClass` calls keeps every used count within its total |
| `Students.StudentRepository.constructor` | src/hooks/use-students.ts:41-48 | the list is the load of the stored students |
| `Students.StudentRepository.SaveAndSetStudents` | src/hooks/use-students.ts:51-54 | the list is always replaced; the store gets it when the write succeeds, and then reloading gives it back |
| `Students.StudentRepository.AddStudent` | src/hooks/use-students.ts:56-68 | exactly one student is appended and returned, `getStudent` of its id finds it, and the list is saved |
| `Students.StudentRepository.UpdateStudent` | src/hooks/use-students.ts:70-80 | the list becomes `UpdateStudents` of the old one, and is saved |
| `Students.StudentRepository.DeleteStudent` | src/hooks/use-students.ts:82-97 | the list loses that id and is saved; a readable stored attendance is rewritten without that student's records, otherwise it is left as it was |
| `Students.StudentRepository.UpdateSubscription` | src/hooks/use-students.ts:104-118 | the list becomes `UpdateSubscriptions` of the old one, and is saved |
| `Students.StudentRepository.UseClass` | src/hooks/use-students.ts:121-140 | the list becomes `UseClassOn` of the old one, and is saved |
| `Attendance.PairIndex` | src/hooks/use-students.ts:195-197 | -1 exactly when no record has that (student, date); otherwise the index of the first one that does |
| `Attendance.Upsert` | src/hooks/use-students.ts:195-217 | an existing pair keeps the length, and the record at its first index takes the new presence, notes and timestamp while keeping id, student and date; every other index is unchanged; a new pair appends one new record with the fresh id |
| `Attendance.UpsertKeepsUniquePairs` | src/hooks/use-students.ts:195-217 | at most one record per (student, date) stays true after marking |
| `Attendance.UpsertKeepsUniqueIds` | src/hooks/use-students.ts:207-216 | with a fresh id, record ids stay distinct after marking |
| `Attendance.MarkTwice` | src/hooks/use-students.ts:189-220 | marking a pair twice: the second call adds nothing, exactly one record holds the pair with the given presence, and the student's record count does not grow |
| `Attendance.RecordsByDate` | src/hooks/use-students.ts:223-225 | exactly the records with that date, in their original order (a `Filter`) |
| `Attendance.RecordsByStudent` | src/hooks/use-students.ts:228-230 | exactly the records of that student, in their original order (a `Filter`) |
| `Attendance.WithoutRecord` | src/hooks/use-students.ts:244-245 | exactly the records with another id; the length drops by the number of matches |
| `Attendance.RoundPercent` | src/hooks/use-students.ts:238 | the nearest whole percentage, halves up, between 0 and 100 |
| `Attendance.GetStudentStats` | src/hooks/use-students.ts:233-241 | total is the student's record count; present and absent count the marks and add up to the total; percentage is 0 without records, at most 100, and the rounded rate otherwise |
| `Attendance.AttendanceRepository.constructor` | src/hooks/use-students.ts:173-180 | the list is the load of the stored records |
| `Attendance.AttendanceRepository.SaveAndSetRecords` | src/hooks/use-students.ts:183-186 | the list is always replaced; the store gets it when the write succeeds, and then reloading gives it back |
| `Attendance.AttendanceRepository.MarkAttendance` | src/hooks/use-students.ts:189-220 | the list becomes the upsert of the old one, keeps unique pairs and ids, and is saved |
| `Attendance.AttendanceRepository.DeleteRecord` | src/hooks/use-students.ts:244-247 | the list loses the records with that id, and is saved |
| `Session.DeleteThenMark` | src/hooks/use-students.ts:82-97 | right after deleting a student the stored attendance has no record of them; after a later mark in the same session all their old records are stored again |
| `Session.NoRecordsOfStudent` | src/hooks/use-students.ts:228-230 | with no record of a student left, the per-student query is empty |

## Left out

- `src/app/page.tsx` (forms, dialogs, tabs, filtering and sorting for display, the clamped `daysLeft` shown on cards, date formatting): presentation only.
- React machinery (`useState`, `useCallback`, `useMemo`, and closures seeing an older list): the model is one sequential caller, and each query is a function of the current list.
- `generateId`: replaced by a caller-supplied id that is not in use yet (a precondition of `AddStudent` and `MarkAttendance`); its time-plus-random construction is not modelled.
- `new Date().toISOString()`: replaced by a `now` string parameter; one call of `updateStudent`, `updateSubscription` or `useClass` stamps every matching student with the same `now`.
- `typeof window` checks, `localStorage` exceptions and `console.error`: reduced to the `available` and `writeOk` flags.
- `JSON.stringify`/`JSON.parse`: a `Blob` is one of the two collections or unparseable text; stored text that parses as some other JSON value (for example `null`, or records under the students key) is treated as unparseable, where the source would load that value.
- Partial updates that supply a field explicitly as `undefined` are modelled only for `notes`; for other fields an explicit `undefined` would erase the field in the source. A supplied `updatedAt` is not modelled since the source always overwrites it.
- `Types.DaysUntilEnd`: assumes every day has exactly 24 hours (no daylight-saving transitions) and that the end date is already a local calendar day; the source parses `YYYY-MM-DD` as UTC midnight, which shifts the end day back by one in time zones west of UTC.
- `Types.GetSubscriptionStatus`: uses exact integer division, not floating point; for day counts in any realistic range the two agree.
- `Attendance.RoundPercent`: exact half-up rounding of the exact ratio; the floating-point product `present / total * 100` may land just below or above a half for some totals, which the model does not reproduce.
- Course names are the five constructors of `Course`; their Russian display strings are not modelled.
- `isLoading` (always false) is not modelled.
