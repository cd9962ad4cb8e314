/** The records of the transcript service (src/types.ts). */
module Types {

  /** A student identifier. The source uses a JavaScript number; here it is an
      unbounded integer, since only equality and `+ 1` are ever applied to it. */
  type StudentID = int

  type StudentName = string

  type Course = string

  datatype Student = Student(studentID: StudentID, studentName: StudentName)

  /** A grade is only stored and handed back, never computed on. */
  datatype CourseGrade = CourseGrade(course: Course, grade: real)

  /** One student together with the grades recorded for them, in the order they were added. */
  datatype Transcript = Transcript(student: Student, grades: seq<CourseGrade>)
}
