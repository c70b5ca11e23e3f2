/** The records the school store keeps (types.ts). Strings are `seq<char>`;
    the source's `number` fields (age, year, grade value) are integers here. */
module Records {

  /** An optional value: `None` is an absent (or `undefined`) property. */
  datatype Option<T> = None | Some(value: T)

  /** The outcome of an operation that can throw: `Err` carries the message
      of the `Error` the source raises. */
  datatype Result<T> = Ok(value: T) | Err(message: string)

  /** A student's enrolment status, the three literals `'Ativo'`,
      `'Inativo'` and `'Pendente'`. */
  datatype Status = Ativo | Inativo | Pendente

  datatype SchoolClass = SchoolClass(id: string, name: string, year: int)

  datatype Teacher = Teacher(id: string, name: string, email: string, specialty: string)

  /** `classId` is a weak foreign key into the classes; `className` is the
      display name attached on read and may also be stored (stale). */
  datatype Student = Student(
    id: string,
    name: string,
    email: string,
    age: int,
    classId: string,
    className: Option<string>,
    enrollmentDate: string,
    status: Status,
    notes: string,
    avatarUrl: Option<string>)

  /** `teacherId` is a weak foreign key into the teachers; `teacherName` is
      the display name attached on read. */
  datatype Course = Course(
    id: string,
    name: string,
    teacherId: string,
    teacherName: Option<string>,
    schedule: string)

  datatype Grade = Grade(id: string, studentId: string, courseId: string, value: int, date: string)

  datatype DashboardStats = DashboardStats(
    totalStudents: nat,
    activeStudents: nat,
    averageGrade: int,
    totalCourses: nat,
    totalTeachers: nat)

  /** One entry of a student's grade report. */
  datatype CourseGrade = CourseGrade(courseName: string, value: int)

  /** `Partial<Student>`: `Some(v)` is a property present in the update
      data, `None` one that is absent. For the optional properties a present
      value is itself optional. */
  datatype StudentPatch = StudentPatch(
    id: Option<string>,
    name: Option<string>,
    email: Option<string>,
    age: Option<int>,
    classId: Option<string>,
    className: Option<Option<string>>,
    enrollmentDate: Option<string>,
    status: Option<Status>,
    notes: Option<string>,
    avatarUrl: Option<Option<string>>)

  /** `Partial<Course>`, in the same encoding as `StudentPatch`. */
  datatype CoursePatch = CoursePatch(
    id: Option<string>,
    name: Option<string>,
    teacherId: Option<string>,
    teacherName: Option<Option<string>>,
    schedule: Option<string>)
}
