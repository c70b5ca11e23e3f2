/** The in-memory relational store of the school dashboard
    (services/database.ts): five ordered collections, add / update / delete
    per entity, resolution of foreign keys to display names, cascading
    deletes, and the dashboard statistics. */
module Database {
  import opened Records
  import opened Sequences

  // Sentinels substituted when a foreign key dangles.
  const NoClass: string := "Sem Turma"
  const NoTeacher: string := "Sem Professor"
  const UnknownCourse: string := "Unknown"

  // Messages of the errors that `updateStudent` and `updateCourse` throw.
  const StudentNotFound: string := "Student not found"
  const CourseNotFound: string := "Course not found"

  /** Prefix of the placeholder avatar given to every new student; the
      random suffix is supplied by the caller. */
  const AvatarBase: string := "https://picsum.photos/200?random="

  // ---------------------------------------------------------------------
  // Seed data, used for every storage slot that holds nothing.

  const InitialClasses: seq<SchoolClass> := [
    SchoolClass("c1", "1º Ano EM - A", 2024),
    SchoolClass("c2", "2º Ano EM - B", 2024),
    SchoolClass("c3", "3º Ano EM - C", 2024)
  ]

  const InitialTeachers: seq<Teacher> := [
    Teacher("t1", "Prof. Mendes", "mendes@escola.com", "Matemática"),
    Teacher("t2", "Profa. Clara", "clara@escola.com", "Português"),
    Teacher("t3", "Prof. Alberto", "alberto@escola.com", "Física"),
    Teacher("t4", "Profa. Helena", "helena@escola.com", "Biologia")
  ]

  const InitialStudents: seq<Student> := [
    Student("1", "Ana Silva", "ana.silva@exemplo.com", 16, "c2", None, "2024-02-15", Ativo,
            "Aluna dedicada, interesse em biologia.", Some("https://picsum.photos/200")),
    Student("2", "Bruno Santos", "bruno.s@exemplo.com", 17, "c3", None, "2024-01-20", Ativo,
            "Precisa de reforço em matemática.", Some("https://picsum.photos/201")),
    Student("3", "Carla Dias", "carla.d@exemplo.com", 15, "c1", None, "2024-03-01", Inativo,
            "Transferida.", Some("https://picsum.photos/202")),
    Student("4", "Daniel Costa", "daniel.c@exemplo.com", 16, "c2", None, "2024-02-10", Ativo,
            "Líder de turma.", Some("https://picsum.photos/203"))
  ]

  const InitialCourses: seq<Course> := [
    Course("101", "Matemática Avançada", "t1", None, "Seg/Qua 08:00"),
    Course("102", "Literatura Portuguesa", "t2", None, "Ter/Qui 10:00"),
    Course("103", "Física", "t3", None, "Sex 09:00"),
    Course("104", "Biologia", "t4", None, "Seg 10:00")
  ]

  const InitialGrades: seq<Grade> := [
    Grade("g1", "1", "101", 85, "2024-04-10"),
    Grade("g2", "1", "102", 92, "2024-04-12"),
    Grade("g3", "2", "101", 65, "2024-04-10"),
    Grade("g4", "4", "103", 78, "2024-04-15")
  ]

  // ---------------------------------------------------------------------
  // Keys and names the lookups compare and return.

  function ClassIdOf(c: SchoolClass): string { c.id }
  function ClassNameOf(c: SchoolClass): string { c.name }
  function TeacherIdOf(t: Teacher): string { t.id }
  function TeacherNameOf(t: Teacher): string { t.name }
  function StudentIdOf(s: Student): string { s.id }
  function CourseIdOf(c: Course): string { c.id }
  function CourseNameOf(c: Course): string { c.name }
  function GradeIdOf(g: Grade): string { g.id }
  function GradeStudentOf(g: Grade): string { g.studentId }
  function GradeCourseOf(g: Grade): string { g.courseId }

  /** Every seed foreign key points at a seed record of the right kind. */
  lemma SeedReferencesResolve()
    ensures forall s :: s in InitialStudents ==> !Absent(InitialClasses, ClassIdOf, s.classId)
    ensures forall c :: c in InitialCourses ==> !Absent(InitialTeachers, TeacherIdOf, c.teacherId)
    ensures forall g :: g in InitialGrades ==> !Absent(InitialStudents, StudentIdOf, g.studentId)
    ensures forall g :: g in InitialGrades ==> !Absent(InitialCourses, CourseIdOf, g.courseId)
  {
    assert ClassIdOf(InitialClasses[0]) == "c1" && ClassIdOf(InitialClasses[1]) == "c2";
    assert ClassIdOf(InitialClasses[2]) == "c3";
    assert TeacherIdOf(InitialTeachers[0]) == "t1" && TeacherIdOf(InitialTeachers[1]) == "t2";
    assert TeacherIdOf(InitialTeachers[2]) == "t3" && TeacherIdOf(InitialTeachers[3]) == "t4";
    assert StudentIdOf(InitialStudents[0]) == "1" && StudentIdOf(InitialStudents[1]) == "2";
    assert StudentIdOf(InitialStudents[3]) == "4";
    assert CourseIdOf(InitialCourses[0]) == "101" && CourseIdOf(InitialCourses[1]) == "102";
    assert CourseIdOf(InitialCourses[2]) == "103";
  }

  /** Every seed collection has unique ids. */
  lemma SeedIdsUnique()
    ensures UniqueKeys(InitialClasses, ClassIdOf) && UniqueKeys(InitialTeachers, TeacherIdOf)
    ensures UniqueKeys(InitialStudents, StudentIdOf) && UniqueKeys(InitialCourses, CourseIdOf)
    ensures UniqueKeys(InitialGrades, GradeIdOf)
  {
  }

  // ---------------------------------------------------------------------
  // Shallow merge `{...record, ...data}` of update data over a record.

  function Pick<T>(patch: Option<T>, current: T): T
  {
    if patch.Some? then patch.value else current
  }

  /** Each property present in the update data overwrites the stored one;
      each absent property keeps its stored value. */
  function MergeStudent(s: Student, p: StudentPatch): (r: Student)
    ensures r.id == (if p.id.Some? then p.id.value else s.id)
    ensures r.name == (if p.name.Some? then p.name.value else s.name)
    ensures r.email == (if p.email.Some? then p.email.value else s.email)
    ensures r.age == (if p.age.Some? then p.age.value else s.age)
    ensures r.classId == (if p.classId.Some? then p.classId.value else s.classId)
    ensures r.className == (if p.className.Some? then p.className.value else s.className)
    ensures r.enrollmentDate == (if p.enrollmentDate.Some? then p.enrollmentDate.value else s.enrollmentDate)
    ensures r.status == (if p.status.Some? then p.status.value else s.status)
    ensures r.notes == (if p.notes.Some? then p.notes.value else s.notes)
    ensures r.avatarUrl == (if p.avatarUrl.Some? then p.avatarUrl.value else s.avatarUrl)
  {
    Student(
      Pick(p.id, s.id), Pick(p.name, s.name), Pick(p.email, s.email), Pick(p.age, s.age),
      Pick(p.classId, s.classId), Pick(p.className, s.className),
      Pick(p.enrollmentDate, s.enrollmentDate), Pick(p.status, s.status),
      Pick(p.notes, s.notes), Pick(p.avatarUrl, s.avatarUrl))
  }

  /** The same merge for courses. */
  function MergeCourse(c: Course, p: CoursePatch): (r: Course)
    ensures r.id == (if p.id.Some? then p.id.value else c.id)
    ensures r.name == (if p.name.Some? then p.name.value else c.name)
    ensures r.teacherId == (if p.teacherId.Some? then p.teacherId.value else c.teacherId)
    ensures r.teacherName == (if p.teacherName.Some? then p.teacherName.value else c.teacherName)
    ensures r.schedule == (if p.schedule.Some? then p.schedule.value else c.schedule)
  {
    Course(Pick(p.id, c.id), Pick(p.name, c.name), Pick(p.teacherId, c.teacherId),
           Pick(p.teacherName, c.teacherName), Pick(p.schedule, c.schedule))
  }

  /** Update data carrying every property of `s`, as the edit form sends it. */
  function StudentPatchOf(s: Student): StudentPatch
  {
    StudentPatch(Some(s.id), Some(s.name), Some(s.email), Some(s.age), Some(s.classId),
                 Some(s.className), Some(s.enrollmentDate), Some(s.status), Some(s.notes),
                 Some(s.avatarUrl))
  }

  function CoursePatchOf(c: Course): CoursePatch
  {
    CoursePatch(Some(c.id), Some(c.name), Some(c.teacherId), Some(c.teacherName), Some(c.schedule))
  }

  const NoStudentChanges: StudentPatch :=
    StudentPatch(None, None, None, None, None, None, None, None, None, None)
  const NoCourseChanges: CoursePatch := CoursePatch(None, None, None, None, None)

  /** Absent properties are kept: empty update data changes nothing. */
  lemma MergeStudentKeepsAbsent(s: Student)
    ensures MergeStudent(s, NoStudentChanges) == s
  {
  }

  /** Present properties overwrite: data carrying a whole record yields it. */
  lemma MergeStudentOverwritesPresent(s: Student, t: Student)
    ensures MergeStudent(s, StudentPatchOf(t)) == t
  {
  }

  /** Applying the same update data twice is applying it once. */
  lemma MergeStudentIdempotent(s: Student, p: StudentPatch)
    ensures MergeStudent(MergeStudent(s, p), p) == MergeStudent(s, p)
  {
  }

  lemma MergeCourseKeepsAbsent(c: Course)
    ensures MergeCourse(c, NoCourseChanges) == c
  {
  }

  lemma MergeCourseOverwritesPresent(c: Course, d: Course)
    ensures MergeCourse(c, CoursePatchOf(d)) == d
  {
  }

  lemma MergeCourseIdempotent(c: Course, p: CoursePatch)
    ensures MergeCourse(MergeCourse(c, p), p) == MergeCourse(c, p)
  {
  }

  // ---------------------------------------------------------------------
  // Statistics.

  /** `filter(s => s.status === 'Ativo').length`. */
  function CountActive(ss: seq<Student>): (n: nat)
    ensures n <= |ss|
    ensures n == 0 <==> forall i :: 0 <= i < |ss| ==> ss[i].status != Ativo
    ensures n == |ss| <==> forall i :: 0 <= i < |ss| ==> ss[i].status == Ativo
  {
    if |ss| == 0 then 0
    else CountActive(ss[..|ss| - 1]) + (if ss[|ss| - 1].status == Ativo then 1 else 0)
  }

  /** The statuses of the students, in order. */
  function Statuses(ss: seq<Student>): seq<Status>
  {
    seq(|ss|, i requires 0 <= i < |ss| => ss[i].status)
  }

  /** `CountActive` is the number of times `Ativo` occurs among the statuses. */
  lemma {:induction false} CountActiveIsMultiplicity(ss: seq<Student>)
    ensures CountActive(ss) == multiset(Statuses(ss))[Ativo]
  {
    if |ss| > 0 {
      var p := ss[..|ss| - 1];
      CountActiveIsMultiplicity(p);
      assert Statuses(ss) == Statuses(p) + [ss[|ss| - 1].status];
    }
  }

  /** `reduce((acc, g) => acc + g.value, 0)`. */
  function SumValues(gs: seq<Grade>): (sum: int)
    ensures |gs| == 0 ==> sum == 0
    ensures (forall i :: 0 <= i < |gs| ==> gs[i].value >= 0) ==> sum >= 0
  {
    if |gs| == 0 then 0 else SumValues(gs[..|gs| - 1]) + gs[|gs| - 1].value
  }

  /** The order of the fold does not matter: summing from the front gives
      the same total. */
  lemma {:induction false} SumValuesFront(gs: seq<Grade>)
    requires |gs| > 0
    ensures SumValues(gs) == gs[0].value + SumValues(gs[1..])
  {
    SumValuesAppend([gs[0]], gs[1..]);
    assert [gs[0]] + gs[1..] == gs;
    assert [gs[0]][..0] == [];
  }

  /** The sum of the grades of a concatenation is the sum of the parts. */
  lemma {:induction false} SumValuesAppend(a: seq<Grade>, b: seq<Grade>)
    ensures SumValues(a + b) == SumValues(a) + SumValues(b)
  {
    if |b| == 0 {
      assert a + b == a;
    } else {
      assert (a + b)[..|a + b| - 1] == a + b[..|b| - 1];
      SumValuesAppend(a, b[..|b| - 1]);
    }
  }

  /** Grades on the 0-100 scale sum to at most 100 per grade. */
  lemma {:induction false} SumValuesBounds(gs: seq<Grade>)
    requires forall i :: 0 <= i < |gs| ==> 0 <= gs[i].value <= 100
    ensures 0 <= SumValues(gs) <= 100 * |gs|
  {
    if |gs| > 0 {
      SumValuesBounds(gs[..|gs| - 1]);
    }
  }

  /** `Math.round(num / den)`: the integer nearest to the quotient, halves
      rounded upward. */
  function RoundHalfUp(num: int, den: int): (r: int)
    requires den > 0
    ensures 2 * den * r <= 2 * num + den < 2 * den * (r + 1)
  {
    (2 * num + den) / (2 * den)
  }

  /** The mean grade rounded to an integer, 0 when there are no grades. */
  function AverageGrade(gs: seq<Grade>): (r: int)
    ensures |gs| == 0 ==> r == 0
    ensures |gs| > 0 ==> 2 * |gs| * r <= 2 * SumValues(gs) + |gs| < 2 * |gs| * (r + 1)
  {
    if |gs| > 0 then RoundHalfUp(SumValues(gs), |gs|) else 0
  }

  /** The mean of grades on the 0-100 scale is on the 0-100 scale. */
  lemma AverageGradeOnScale(gs: seq<Grade>)
    requires forall i :: 0 <= i < |gs| ==> 0 <= gs[i].value <= 100
    ensures 0 <= AverageGrade(gs) <= 100
  {
    if |gs| > 0 {
      SumValuesBounds(gs);
      RoundedMeanOnScale(|gs|, SumValues(gs), AverageGrade(gs));
    }
  }

  /** A rounded mean of `n` values on the 0-100 scale is on that scale. */
  lemma RoundedMeanOnScale(n: int, sum: int, r: int)
    requires n > 0 && 0 <= sum <= 100 * n
    requires 2 * n * r <= 2 * sum + n < 2 * n * (r + 1)
    ensures 0 <= r <= 100
  {
    assert n * (2 * r) <= n * 201;
    FactorCancels(n, 2 * r, 201);
    assert n * 1 <= n * (2 * (r + 1));
    FactorCancels(n, 1, 2 * (r + 1));
  }

  /** A positive factor can be cancelled from both sides of `<=`. */
  lemma FactorCancels(n: int, a: int, b: int)
    requires n > 0 && n * a <= n * b
    ensures a <= b
  {
  }

  // ---------------------------------------------------------------------
  // The store.

  class SchoolDatabase {
    var students: seq<Student>
    var courses: seq<Course>
    var grades: seq<Grade>
    var teachers: seq<Teacher>
    var classes: seq<SchoolClass>

    /** Every collection has unique ids. The store relies on its callers'
        random ids for this; it does not check it. */
    ghost predicate UniqueIds()
      reads this
    {
      && UniqueKeys(students, StudentIdOf)
      && UniqueKeys(courses, CourseIdOf)
      && UniqueKeys(grades, GradeIdOf)
      && UniqueKeys(teachers, TeacherIdOf)
      && UniqueKeys(classes, ClassIdOf)
    }

    /** Loads each collection from its storage slot, already parsed; a slot
        that holds nothing falls back to the seed data. */
    constructor (storedStudents: Option<seq<Student>>, storedCourses: Option<seq<Course>>,
                 storedGrades: Option<seq<Grade>>, storedTeachers: Option<seq<Teacher>>,
                 storedClasses: Option<seq<SchoolClass>>)
      ensures students == (if storedStudents.Some? then storedStudents.value else InitialStudents)
      ensures courses == (if storedCourses.Some? then storedCourses.value else InitialCourses)
      ensures grades == (if storedGrades.Some? then storedGrades.value else InitialGrades)
      ensures teachers == (if storedTeachers.Some? then storedTeachers.value else InitialTeachers)
      ensures classes == (if storedClasses.Some? then storedClasses.value else InitialClasses)
      ensures (storedStudents.None? && storedCourses.None? && storedGrades.None? &&
               storedTeachers.None? && storedClasses.None?) ==> UniqueIds()
    {
      SeedIdsUnique();
      students := Pick(storedStudents, InitialStudents);
      courses := Pick(storedCourses, InitialCourses);
      grades := Pick(storedGrades, InitialGrades);
      teachers := Pick(storedTeachers, InitialTeachers);
      classes := Pick(storedClasses, InitialClasses);
    }

    // --- Resolution ("SQL JOIN") ---

    /** The student with `className` set to the name of the first class with
        id `classId`, or to "Sem Turma" when there is none; nothing else
        changes, and a stored `className` is ignored. */
    function ResolveStudent(s: Student): (r: Student)
      reads this
      ensures r.(className := s.className) == s
      ensures r.className.Some?
      ensures Absent(classes, ClassIdOf, s.classId) ==> r.className == Some(NoClass)
      ensures forall i :: IsFirst(classes, ClassIdOf, s.classId, i) ==> r.className == Some(classes[i].name)
    {
      s.(className := Some(LookupName(classes, ClassIdOf, ClassNameOf, s.classId, NoClass)))
    }

    /** The course with `teacherName` set to the name of the first teacher
        with id `teacherId`, or to "Sem Professor" when there is none. */
    function ResolveCourse(c: Course): (r: Course)
      reads this
      ensures r.(teacherName := c.teacherName) == c
      ensures r.teacherName.Some?
      ensures Absent(teachers, TeacherIdOf, c.teacherId) ==> r.teacherName == Some(NoTeacher)
      ensures forall i :: IsFirst(teachers, TeacherIdOf, c.teacherId, i) ==> r.teacherName == Some(teachers[i].name)
    {
      c.(teacherName := Some(LookupName(teachers, TeacherIdOf, TeacherNameOf, c.teacherId, NoTeacher)))
    }

    /** A resolved name depends only on `classId` and the classes: a stale
        stored `className` (the edit form sends the resolved record back)
        never shows. */
    lemma ResolvedClassNameIgnoresStored(s: Student, stale: Option<string>)
      ensures ResolveStudent(s.(className := stale)) == ResolveStudent(s)
    {
    }

    lemma ResolvedTeacherNameIgnoresStored(c: Course, stale: Option<string>)
      ensures ResolveCourse(c.(teacherName := stale)) == ResolveCourse(c)
    {
    }

    // --- Classes ---

    function GetClasses(): (r: seq<SchoolClass>)
      reads this
      ensures r == classes
    {
      classes
    }

    /** Appends the class with the caller-supplied id and returns it. */
    method AddClass(data: SchoolClass, newId: string) returns (r: SchoolClass)
      modifies this
      ensures r == data.(id := newId)
      ensures classes == old(classes) + [r]
      ensures students == old(students) && courses == old(courses)
      ensures grades == old(grades) && teachers == old(teachers)
      ensures old(UniqueIds()) && Absent(old(classes), ClassIdOf, newId) ==> UniqueIds()
    {
      r := data.(id := newId);
      if UniqueIds() && Absent(classes, ClassIdOf, newId) {
        AppendKeepsUnique(classes, ClassIdOf, r);
      }
      classes := classes + [r];
    }

    /** Removes the classes with this id; students keep their dangling
        `classId` and resolve to "Sem Turma". */
    method DeleteClass(id: string)
      modifies this
      ensures classes == Without(old(classes), ClassIdOf, id)
      ensures old(UniqueIds()) && !Absent(old(classes), ClassIdOf, id) ==> |classes| == |old(classes)| - 1
      ensures Absent(classes, ClassIdOf, id)
      ensures students == old(students) && courses == old(courses)
      ensures grades == old(grades) && teachers == old(teachers)
      ensures forall s :: s in students && s.classId == id ==> ResolveStudent(s).className == Some(NoClass)
      ensures old(UniqueIds()) ==> UniqueIds()
    {
      if UniqueIds() && !Absent(classes, ClassIdOf, id) {
        var j :| 0 <= j < |classes| && ClassIdOf(classes[j]) == id;
        WithoutUniqueRemovesOne(classes, ClassIdOf, id, j);
      }
      if UniqueIds() {
        WithoutKeepsUnique(classes, ClassIdOf, ClassIdOf, id);
      }
      classes := Without(classes, ClassIdOf, id);
      assert Absent(classes, ClassIdOf, id) by {
        forall j | 0 <= j < |classes| ensures ClassIdOf(classes[j]) != id {
          assert classes[j] in classes;
        }
      }
    }

    // --- Teachers ---

    function GetTeachers(): (r: seq<Teacher>)
      reads this
      ensures r == teachers
    {
      teachers
    }

    method AddTeacher(data: Teacher, newId: string) returns (r: Teacher)
      modifies this
      ensures r == data.(id := newId)
      ensures teachers == old(teachers) + [r]
      ensures students == old(students) && courses == old(courses)
      ensures grades == old(grades) && classes == old(classes)
      ensures old(UniqueIds()) && Absent(old(teachers), TeacherIdOf, newId) ==> UniqueIds()
    {
      r := data.(id := newId);
      if UniqueIds() && Absent(teachers, TeacherIdOf, newId) {
        AppendKeepsUnique(teachers, TeacherIdOf, r);
      }
      teachers := teachers + [r];
    }

    /** Removes the teachers with this id; courses keep their dangling
        `teacherId` and resolve to "Sem Professor". */
    method DeleteTeacher(id: string)
      modifies this
      ensures teachers == Without(old(teachers), TeacherIdOf, id)
      ensures old(UniqueIds()) && !Absent(old(teachers), TeacherIdOf, id) ==> |teachers| == |old(teachers)| - 1
      ensures Absent(teachers, TeacherIdOf, id)
      ensures students == old(students) && courses == old(courses)
      ensures grades == old(grades) && classes == old(classes)
      ensures forall c :: c in courses && c.teacherId == id ==> ResolveCourse(c).teacherName == Some(NoTeacher)
      ensures old(UniqueIds()) ==> UniqueIds()
    {
      if UniqueIds() && !Absent(teachers, TeacherIdOf, id) {
        var j :| 0 <= j < |teachers| && TeacherIdOf(teachers[j]) == id;
        WithoutUniqueRemovesOne(teachers, TeacherIdOf, id, j);
      }
      if UniqueIds() {
        WithoutKeepsUnique(teachers, TeacherIdOf, TeacherIdOf, id);
      }
      teachers := Without(teachers, TeacherIdOf, id);
      assert Absent(teachers, TeacherIdOf, id) by {
        forall j | 0 <= j < |teachers| ensures TeacherIdOf(teachers[j]) != id {
          assert teachers[j] in teachers;
        }
      }
    }

    // --- Students ---

    /** Every stored student, in order, each resolved. */
    function GetStudents(): (r: seq<Student>)
      reads this
      ensures |r| == |students|
      ensures forall i :: 0 <= i < |r| ==> r[i] == ResolveStudent(students[i])
      ensures forall i :: 0 <= i < |r| ==> r[i].className.Some? && r[i].(className := students[i].className) == students[i]
    {
      seq(|students|, i requires 0 <= i < |students| reads this => ResolveStudent(students[i]))
    }

    /** Appends the student with the caller-supplied id and a new avatar
        address, and returns it resolved. */
    method AddStudent(data: Student, newId: string, randomSuffix: string) returns (r: Student)
      modifies this
      ensures students == old(students) + [data.(id := newId, avatarUrl := Some(AvatarBase + randomSuffix))]
      ensures r == ResolveStudent(students[|students| - 1])
      ensures r.id == newId && r.className.Some?
      ensures courses == old(courses) && grades == old(grades)
      ensures teachers == old(teachers) && classes == old(classes)
      ensures old(UniqueIds()) && Absent(old(students), StudentIdOf, newId) ==> UniqueIds()
    {
      var s := data.(id := newId, avatarUrl := Some(AvatarBase + randomSuffix));
      if UniqueIds() && Absent(students, StudentIdOf, newId) {
        AppendKeepsUnique(students, StudentIdOf, s);
      }
      students := students + [s];
      r := ResolveStudent(s);
    }

    /** Merges the update data over the first student with this id and
        returns it resolved; with no such student, fails with "Student not
        found" and changes nothing. */
    method UpdateStudent(id: string, data: StudentPatch) returns (r: Result<Student>)
      modifies this
      ensures courses == old(courses) && grades == old(grades)
      ensures teachers == old(teachers) && classes == old(classes)
      ensures Absent(old(students), StudentIdOf, id) ==> r == Err(StudentNotFound) && students == old(students)
      ensures forall i :: IsFirst(old(students), StudentIdOf, id, i) ==>
        && students == old(students)[i := MergeStudent(old(students)[i], data)]
        && r == Ok(ResolveStudent(students[i]))
      ensures old(UniqueIds()) && (data.id.None? || data.id == Some(id)) ==> UniqueIds()
    {
      var found := FindIndex(students, StudentIdOf, id);
      if found.None? {
        r := Err(StudentNotFound);
        return;
      }
      var i := found.value;
      ghost var before := students;
      students := students[i := MergeStudent(students[i], data)];
      if data.id.None? || data.id == Some(id) {
        assert forall j :: 0 <= j < |students| ==> StudentIdOf(students[j]) == StudentIdOf(before[j]);
      }
      r := Ok(ResolveStudent(students[i]));
    }

    /** Removes the students with this id and, in cascade, their grades;
        every other student and grade keeps its place in order. */
    method DeleteStudent(id: string)
      modifies this
      ensures students == Without(old(students), StudentIdOf, id)
      ensures old(UniqueIds()) && !Absent(old(students), StudentIdOf, id) ==> |students| == |old(students)| - 1
      ensures grades == Without(old(grades), GradeStudentOf, id)
      ensures Absent(students, StudentIdOf, id) && Absent(grades, GradeStudentOf, id)
      ensures courses == old(courses) && teachers == old(teachers) && classes == old(classes)
      ensures GetStudentGrades(id) == []
      ensures forall sid :: sid != id ==> GetStudentGrades(sid) == old(GetStudentGrades(sid))
      ensures old(UniqueIds()) ==> UniqueIds()
    {
      if UniqueIds() && !Absent(students, StudentIdOf, id) {
        var j :| 0 <= j < |students| && StudentIdOf(students[j]) == id;
        WithoutUniqueRemovesOne(students, StudentIdOf, id, j);
      }
      if UniqueIds() {
        WithoutKeepsUnique(students, StudentIdOf, StudentIdOf, id);
        WithoutKeepsUnique(grades, GradeIdOf, GradeStudentOf, id);
      }
      ghost var before := grades;
      students := Without(students, StudentIdOf, id);
      grades := Without(grades, GradeStudentOf, id);
      assert Absent(students, StudentIdOf, id) by {
        forall j | 0 <= j < |students| ensures StudentIdOf(students[j]) != id {
          assert students[j] in students;
        }
      }
      assert Absent(grades, GradeStudentOf, id) by {
        forall j | 0 <= j < |grades| ensures GradeStudentOf(grades[j]) != id {
          assert grades[j] in grades;
        }
      }
      MatchingWithoutEmpty(before, GradeStudentOf, id);
      forall sid | sid != id
        ensures Matching(grades, GradeStudentOf, sid) == Matching(before, GradeStudentOf, sid)
      {
        MatchingWithoutOther(before, GradeStudentOf, id, sid);
      }
    }

    // --- Courses ---

    /** Every stored course, in order, each resolved. */
    function GetCourses(): (r: seq<Course>)
      reads this
      ensures |r| == |courses|
      ensures forall i :: 0 <= i < |r| ==> r[i] == ResolveCourse(courses[i])
      ensures forall i :: 0 <= i < |r| ==> r[i].teacherName.Some? && r[i].(teacherName := courses[i].teacherName) == courses[i]
    {
      seq(|courses|, i requires 0 <= i < |courses| reads this => ResolveCourse(courses[i]))
    }

    method AddCourse(data: Course, newId: string) returns (r: Course)
      modifies this
      ensures courses == old(courses) + [data.(id := newId)]
      ensures r == ResolveCourse(courses[|courses| - 1])
      ensures r.id == newId && r.teacherName.Some?
      ensures students == old(students) && grades == old(grades)
      ensures teachers == old(teachers) && classes == old(classes)
      ensures old(UniqueIds()) && Absent(old(courses), CourseIdOf, newId) ==> UniqueIds()
    {
      var c := data.(id := newId);
      if UniqueIds() && Absent(courses, CourseIdOf, newId) {
        AppendKeepsUnique(courses, CourseIdOf, c);
      }
      courses := courses + [c];
      r := ResolveCourse(c);
    }

    method UpdateCourse(id: string, data: CoursePatch) returns (r: Result<Course>)
      modifies this
      ensures students == old(students) && grades == old(grades)
      ensures teachers == old(teachers) && classes == old(classes)
      ensures Absent(old(courses), CourseIdOf, id) ==> r == Err(CourseNotFound) && courses == old(courses)
      ensures forall i :: IsFirst(old(courses), CourseIdOf, id, i) ==>
        && courses == old(courses)[i := MergeCourse(old(courses)[i], data)]
        && r == Ok(ResolveCourse(courses[i]))
      ensures old(UniqueIds()) && (data.id.None? || data.id == Some(id)) ==> UniqueIds()
    {
      var found := FindIndex(courses, CourseIdOf, id);
      if found.None? {
        r := Err(CourseNotFound);
        return;
      }
      var i := found.value;
      courses := courses[i := MergeCourse(courses[i], data)];
      r := Ok(ResolveCourse(courses[i]));
    }

    /** Removes the courses with this id and, in cascade, their grades. */
    method DeleteCourse(id: string)
      modifies this
      ensures courses == Without(old(courses), CourseIdOf, id)
      ensures old(UniqueIds()) && !Absent(old(courses), CourseIdOf, id) ==> |courses| == |old(courses)| - 1
      ensures grades == Without(old(grades), GradeCourseOf, id)
      ensures Absent(courses, CourseIdOf, id) && Absent(grades, GradeCourseOf, id)
      ensures students == old(students) && teachers == old(teachers) && classes == old(classes)
      ensures old(UniqueIds()) ==> UniqueIds()
    {
      if UniqueIds() && !Absent(courses, CourseIdOf, id) {
        var j :| 0 <= j < |courses| && CourseIdOf(courses[j]) == id;
        WithoutUniqueRemovesOne(courses, CourseIdOf, id, j);
      }
      if UniqueIds() {
        WithoutKeepsUnique(courses, CourseIdOf, CourseIdOf, id);
        WithoutKeepsUnique(grades, GradeIdOf, GradeCourseOf, id);
      }
      courses := Without(courses, CourseIdOf, id);
      grades := Without(grades, GradeCourseOf, id);
      assert Absent(courses, CourseIdOf, id) by {
        forall j | 0 <= j < |courses| ensures CourseIdOf(courses[j]) != id {
          assert courses[j] in courses;
        }
      }
      assert Absent(grades, GradeCourseOf, id) by {
        forall j | 0 <= j < |grades| ensures GradeCourseOf(grades[j]) != id {
          assert grades[j] in grades;
        }
      }
    }

    // --- Stats ---

    function GetDashboardStats(): (r: DashboardStats)
      reads this
      ensures r.totalStudents == |students| && r.totalCourses == |courses| && r.totalTeachers == |teachers|
      ensures r.activeStudents == multiset(Statuses(students))[Ativo] <= r.totalStudents
      ensures r.activeStudents == 0 <==> forall i :: 0 <= i < |students| ==> students[i].status != Ativo
      ensures |grades| == 0 ==> r.averageGrade == 0
      ensures |grades| > 0 ==> 2 * |grades| * r.averageGrade <= 2 * SumValues(grades) + |grades| < 2 * |grades| * (r.averageGrade + 1)
    {
      CountActiveIsMultiplicity(students);
      DashboardStats(|students|, CountActive(students), AverageGrade(grades), |courses|, |teachers|)
    }

    // --- Grades ---

    /** For each grade of the student, in grade order: the name of the first
        course with the grade's `courseId` ("Unknown" when there is none) and
        the grade's value. */
    function GetStudentGrades(studentId: string): (r: seq<CourseGrade>)
      reads this
      ensures var mine := Matching(grades, GradeStudentOf, studentId);
        && |r| == |mine|
        && (forall i :: 0 <= i < |r| ==> r[i].value == mine[i].value)
        && (forall i :: 0 <= i < |r| && Absent(courses, CourseIdOf, mine[i].courseId) ==> r[i].courseName == UnknownCourse)
        && (forall i, k :: 0 <= i < |r| && IsFirst(courses, CourseIdOf, mine[i].courseId, k) ==> r[i].courseName == courses[k].name)
    {
      GradeReport(Matching(grades, GradeStudentOf, studentId), courses)
    }
  }

  /** The `map` step of the grade query: each grade with its course's name. */
  function GradeReport(mine: seq<Grade>, courses: seq<Course>): (r: seq<CourseGrade>)
    ensures |r| == |mine|
    ensures forall i :: 0 <= i < |r| ==> r[i].value == mine[i].value
    ensures forall i :: 0 <= i < |r| && Absent(courses, CourseIdOf, mine[i].courseId) ==> r[i].courseName == UnknownCourse
    ensures forall i, k :: 0 <= i < |r| && IsFirst(courses, CourseIdOf, mine[i].courseId, k) ==> r[i].courseName == courses[k].name
  {
    seq(|mine|, i requires 0 <= i < |mine| =>
      CourseGrade(LookupName(courses, CourseIdOf, CourseNameOf, mine[i].courseId, UnknownCourse), mine[i].value))
  }

  /** The seed data holds 3 active students and grades summing to 320. */
  lemma SeedCounts()
    ensures CountActive(InitialStudents) == 3
    ensures SumValues(InitialGrades) == 320
    ensures AverageGrade(InitialGrades) == 80
  {
    assert InitialStudents[..3][..2][..1][..0] == [];
    var g := InitialGrades;
    assert g[..4][..3] == g[..3] && g[..3][..2] == g[..2] && g[..2][..1] == g[..1];
    assert g[..1][..0] == [] && g[..4] == g;
    assert SumValues(g[..1]) == 85;
    assert SumValues(g[..2]) == 177;
    assert SumValues(g[..3]) == 242;
    assert RoundHalfUp(320, 4) == 644 / 8 == 80;
  }

  /** On the seed data the dashboard shows 4 students (3 of them active),
      4 courses, 4 teachers and an average grade of 80. */
  method SeedDashboard() returns (stats: DashboardStats)
    ensures stats == DashboardStats(4, 3, 80, 4, 4)
  {
    SeedCounts();
    var db := new SchoolDatabase(None, None, None, None, None);
    stats := db.GetDashboardStats();
  }
}
