# School store model

A Dafny model of `SchoolDatabase`, the in-memory relational store behind a
school-administration dashboard. The store owns five ordered collections
(students, courses, grades, teachers and classes). It adds records with generated
ids and shallow-merges updates into students and courses, throwing "not found" for
an unknown id. Deleting a student or a course cascades to its grades. Reads resolve
each foreign key to a display name, or to a fixed sentinel when the key dangles
("Sem Turma", "Sem Professor", "Unknown"). The store also computes the dashboard
statistics and the per-student grade report.

Files:

- `records.dfy` (module `Records`): the records of `types.ts` as datatypes.
  `Partial<Student>` and `Partial<Course>` become patch datatypes of `Option`
  fields. A thrown error becomes `Result.Err` carrying the error's message.
- `sequences.dfy` (module `Sequences`): the array operations the store uses,
  always with a predicate of the form "key of element `===` / `!==` id".
  These are `findIndex` (`FindIndex`), `find` followed by a name-or-sentinel
  (`LookupName`), and `filter` (`Matching`, `Without`). The module also holds
  their order, idempotence and partition lemmas.
- `database.dfy` (module `Database`): the seed data, the shallow merge, the
  statistics, and the class `SchoolDatabase`. Its five `seq` fields are
  reassigned by the mutating methods. Its reads are functions.

Ids and the avatar suffix come from `Math.random()` in the source. Here they are
parameters supplied by the caller. The source never checks that an id is fresh.
So no method requires it. Instead each mutator states that unique ids
(`UniqueIds`) are preserved whenever the supplied id is fresh. `Math.round` of
the mean is modelled exactly, without floating point: the result `r` satisfies
`2·n·r <= 2·sum + n < 2·n·(r + 1)`.

The constructor does not guard `JSON.parse` (services/database.ts:53-57). So a
slot holding unparsable text throws instead of falling back to the seed. The
update data of `updateStudent`/`updateCourse` may carry an `id`, which the merge
then overwrites (services/database.ts:144, 172).

## Model

| member | source | states |
|---|---|---|
| `Sequences.FindIndex` | services/database.ts:142 | the result is the first position whose key is the id, or `None` (the source's -1) exactly when no element has that key |
| `Sequences.LookupName` | services/database.ts:71-74 | the result is the name of the first element whose key is the id, or the sentinel when no element has that key |
| `Sequences.FirstOrAbsent` | services/database.ts:79-82 | a lookup falls in exactly one case: some first match exists, or the key dangles |
| `Sequences.Without` | services/database.ts:101 | the result keeps exactly the elements whose key differs from the id and is no longer than the input |
| `Sequences.Matching` | services/database.ts:207 | the result keeps exactly the elements whose key equals the id and is no longer than the input |
| `Sequences.WithoutAppend` | services/database.ts:150-151 | removal distributes over concatenation, so the kept elements stay in their original relative order |
| `Sequences.MatchingAppend` | services/database.ts:206-207 | selection distributes over concatenation, so the selected grades stay in grade-collection order |
| `Sequences.WithoutAbsent` | services/database.ts:149-153 | deleting an id that no record carries leaves the collection unchanged |
| `Sequences.WithoutIdempotent` | services/database.ts:177-181 | deleting the same id twice gives the same collection as deleting it once |
| `Sequences.MatchingWithoutPartition` | services/database.ts:151 | the grades of a student and the rest partition the grades, as multisets and in length |
| `Sequences.MatchingWithoutOther` | services/database.ts:151 | cascading the grades of one student leaves every other student's grades, and their order, as they were |
| `Sequences.MatchingWithoutEmpty` | services/database.ts:151 | after the cascade no grade of the deleted student remains |
| `Sequences.MatchingAbsent` | services/database.ts:207 | selecting an id that no element carries gives the empty sequence |
| `Sequences.AppendKeepsUnique` | services/database.ts:94-95 | appending a record whose id is fresh keeps the ids of the collection unique |
| `Sequences.WithoutKeepsUnique` | services/database.ts:150-151 | filtering on any key keeps the ids of a collection unique |
| `Sequences.WithoutUniqueRemovesOne` | services/database.ts:150 | with unique ids, deleting a present id shortens the collection by exactly one |
| `Database.SeedReferencesResolve` | services/database.ts:5-37 | every foreign key in the seed data resolves to a seed record of the matching kind |
| `Database.SeedIdsUnique` | services/database.ts:5-37 | every seed collection has unique ids, the base case of the unique-ids property the mutators preserve |
| `Database.MergeStudent` | services/database.ts:144 | field by field, a property present in the update data overwrites the stored one and an absent property keeps its stored value |
| `Database.MergeCourse` | services/database.ts:172 | field by field, a property present in the update data overwrites the stored one and an absent property keeps its stored value |
| `Database.MergeStudentKeepsAbsent` | services/database.ts:144 | update data with no properties leaves the student unchanged |
| `Database.MergeStudentOverwritesPresent` | services/database.ts:144 | update data carrying every property of a record yields that record, whatever was stored |
| `Database.MergeStudentIdempotent` | services/database.ts:144 | merging the same update data twice is merging it once |
| `Database.MergeCourseKeepsAbsent` | services/database.ts:172 | update data with no properties leaves the course unchanged |
| `Database.MergeCourseOverwritesPresent` | services/database.ts:172 | update data carrying every property of a course yields that course |
| `Database.MergeCourseIdempotent` | services/database.ts:172 | merging the same update data twice is merging it once |
| `Database.CountActive` | services/database.ts:187 | the count is at most the number of students; it is 0 exactly when no student is `Ativo` and the total exactly when all are |
| `Database.CountActiveIsMultiplicity` | services/database.ts:187 | the count equals the number of occurrences of `Ativo` among the students' statuses |
| `Database.SumValues` | services/database.ts:191 | the sum of no grades is 0, and the sum of non-negative grade values is non-negative |
| `Database.SumValuesFront` | services/database.ts:191 | summing from the front gives the same total as the left-to-right fold |
| `Database.SumValuesAppend` | services/database.ts:191 | the sum of the grade values of a concatenation is the sum of the parts |
| `Database.SumValuesBounds` | services/database.ts:191 | grades on the 0-100 scale sum to between 0 and 100 per grade |
| `Database.RoundHalfUp` | services/database.ts:192 | the result is the integer nearest to num/den, with halves rounded upward as `Math.round` does |
| `Database.AverageGrade` | services/database.ts:191-192 | the result is 0 with no grades, and otherwise the mean grade value rounded half-up |
| `Database.RoundedMeanOnScale` | services/database.ts:192 | a half-up rounded mean of values whose sum lies between 0 and 100 per value lies between 0 and 100 |
| `Database.AverageGradeOnScale` | services/database.ts:192 | when every grade is on the 0-100 scale, so is the average |
| `Database.SchoolDatabase.constructor` | services/database.ts:46-58 | each collection is the stored one when its slot holds one, and the seed collection otherwise; a store loaded wholly from the seed has unique ids |
| `Database.SchoolDatabase.ResolveStudent` | services/database.ts:70-76 | every field is unchanged except `className`, which is always present. It is the name of the first class whose id is `classId`, or "Sem Turma" if none matches |
| `Database.SchoolDatabase.ResolveCourse` | services/database.ts:78-84 | every field is unchanged except `teacherName`, which is always present. It is the name of the first teacher whose id is `teacherId`, or "Sem Professor" if none matches |
| `Database.SchoolDatabase.ResolvedClassNameIgnoresStored` | services/database.ts:72-75 | the resolved student does not depend on a stored (possibly stale) `className` |
| `Database.SchoolDatabase.ResolvedTeacherNameIgnoresStored` | services/database.ts:80-83 | the resolved course does not depend on a stored `teacherName` |
| `Database.SchoolDatabase.GetClasses` | services/database.ts:88-91 | returns exactly the stored classes in stored order and changes nothing |
| `Database.SchoolDatabase.AddClass` | services/database.ts:93-98 | appends one class with the supplied id and returns it. Earlier classes and the other four collections are unchanged. Unique ids are kept when the id is fresh |
| `Database.SchoolDatabase.DeleteClass` | services/database.ts:100-105 | removes exactly the classes with the id (one of them when ids are unique). Students keep their dangling `classId` and resolve to "Sem Turma". Nothing else changes |
| `Database.SchoolDatabase.GetTeachers` | services/database.ts:109-112 | returns exactly the stored teachers in stored order and changes nothing |
| `Database.SchoolDatabase.AddTeacher` | services/database.ts:114-119 | appends one teacher with the supplied id and returns it. Everything else is unchanged |
| `Database.SchoolDatabase.DeleteTeacher` | services/database.ts:121-124 | removes exactly the teachers with the id. Courses keep their dangling `teacherId` and resolve to "Sem Professor". Nothing else changes |
| `Database.SchoolDatabase.GetStudents` | services/database.ts:128-132 | same length and order as the stored students. Each element is resolved, with `className` present and every other field as stored |
| `Database.SchoolDatabase.AddStudent` | services/database.ts:134-139 | appends one student with the supplied id and a `picsum.photos` avatar, and returns it resolved. Everything else is unchanged |
| `Database.SchoolDatabase.UpdateStudent` | services/database.ts:141-147 | for an unknown id, fails with "Student not found" and changes nothing. Otherwise it merges the data over the first match only, and returns that student resolved. Other collections are unchanged |
| `Database.SchoolDatabase.DeleteStudent` | services/database.ts:149-153 | removes the student and, in cascade, every grade of it; everything else keeps its order. Afterwards the student's grade report is empty and every other student's report is as before |
| `Database.SchoolDatabase.GetCourses` | services/database.ts:157-160 | same length and order as the stored courses. Each element is resolved, with `teacherName` present and every other field as stored |
| `Database.SchoolDatabase.AddCourse` | services/database.ts:162-167 | appends one course with the supplied id and returns it resolved. Everything else is unchanged |
| `Database.SchoolDatabase.UpdateCourse` | services/database.ts:169-175 | for an unknown id, fails with "Course not found" and changes nothing. Otherwise it merges the data over the first match only, and returns that course resolved |
| `Database.SchoolDatabase.DeleteCourse` | services/database.ts:177-181 | removes the course and, in cascade, every grade for it. Students, teachers and classes are unchanged |
| `Database.SchoolDatabase.GetDashboardStats` | services/database.ts:185-201 | the totals are the collection lengths. The active count is the number of `Ativo` statuses, at most the total. The average is 0 with no grades, otherwise the mean rounded half-up |
| `Database.SchoolDatabase.GetStudentGrades` | services/database.ts:205-215 | one entry per grade of the student, in grade order. Each carries that grade's value and the first matching course's name, or "Unknown" |
| `Database.GradeReport` | services/database.ts:208-214 | one entry per grade, in order, with the grade's value and the first matching course's name, or "Unknown" when the course id dangles |
| `Database.SeedCounts` | services/database.ts:18-37 | the seed data holds 3 active students and grade values summing to 320, averaging 80 |
| `Database.SeedDashboard` | services/database.ts:18-37 | on the seed data the statistics are 4 students, 3 of them active, an average grade of 80, 4 courses and 4 teachers |

## Left out

- The browser storage is not modelled. This covers `localStorage`, `JSON.parse`/`JSON.stringify` and `save()` (services/database.ts:46-66). The constructor takes each slot's already-parsed collection, or `None` for an empty slot. `save()` has no effect on the model. The round trip through storage is therefore not stated.
- The `async`/`await` and `setTimeout` delays in the getters are not modelled. They are simulated latency and hold no logic.
- `Math.random()` ids and avatar suffixes become parameters. Their freshness is not guaranteed by the source, so unique ids are kept only under a fresh-id premise.
- Numbers are integers. Ages, years and grade values are `int`. JavaScript's floating-point division before `Math.round` is replaced by exact rational rounding.
- `Omit<T, 'id'>` is modelled as a whole record whose `id` the add method ignores and replaces.
- A `Partial<T>` property present with the value `undefined` on a required field is not representable in the patch datatypes.
- Record-level aliasing is not modelled. `[...this.classes]` and `[...this.teachers]` copy only the array, so the caller shares the element objects with the store. `addClass` and `addTeacher` return the very object they push (services/database.ts:94-97, 115-118). Records are values in Dafny, so this sharing does not arise. No caller in the components mutates a returned record, so dropping it loses no behaviour.
- The React components are not modelled. Their search filter depends on Unicode `toLowerCase` and is presentation only.
- The external text-generation call (services/geminiService.ts) is not modelled.
