/** Values shared by the client's components: the records the backend sends and
    the two JavaScript coercions the client applies to them. */
module Records {

  /** A nullable value (`null` in the client is `None`). */
  datatype Option<+T> = None | Some(value: T)

  /** JavaScript truthiness of a nullable string: `null` and `""` are falsy. */
  predicate Truthy(s: Option<string>)
  {
    s.Some? && s.value != ""
  }

  /** `reply || []`: a null gateway result is read as an empty list. */
  function OrEmpty<T>(reply: Option<seq<T>>): (xs: seq<T>)
  {
    match reply
    case None => []
    case Some(list) => list
  }

  /** An entry of the grade list, `{grade_id, grade_name}`. */
  datatype Grade = Grade(id: int, name: string)

  /** A feedback record, `{feedback_id, ai_comment_improvement, ai_comment_attitude,
      ai_comment_overall}`; an absent or null comment is the empty string. */
  datatype Feedback = Feedback(id: int, improvement: string, attitude: string, overall: string)

  /** One class session of a student, `{class_date, feedback}`; a null or empty
      `class_date` is the empty string. */
  datatype ClassSession = ClassSession(date: string, feedback: Option<Feedback>)

  /** A student record, `{student_id, name, grade_info, classes}`. */
  datatype Student = Student(id: int, name: string, grade: Grade, classes: seq<ClassSession>)

  /** The login reply, `{access_token}`; an absent or falsy token is the empty string. */
  datatype TokenReply = TokenReply(accessToken: string)
}
