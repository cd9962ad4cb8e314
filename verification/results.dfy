/** Outcomes of the registry's operations: a value, or the error the source throws. */
module Results {
  import opened Types

  datatype Option<+T> = None | Some(value: T)

  /** The two conditions under which the registry throws. The message text is not modelled. */
  datatype Error =
    | NotFound(id: StudentID)
    | GradeNotFound(id: StudentID, course: Course)

  /** A value, or a thrown error; `:-` propagates the error as an exception would. */
  datatype Result<+T> = Ok(value: T) | Err(error: Error) {
    predicate IsFailure() {
      Err?
    }

    function PropagateFailure<U>(): Result<U>
      requires Err?
    {
      Err(error)
    }

    function Extract(): T
      requires Ok?
    {
      value
    }
  }
}
