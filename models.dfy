/** The records the two services exchange: tasks and their request bodies, and users. */
module Models {

  /** A task of the in-memory task service. */
  datatype Task = Task(id: int, title: string, done: bool)

  /** The zero value of Task, which the store hands back for a missing id. */
  const ZeroTask := Task(0, "", false)

  /** The body of a POST: only `title` is read. */
  datatype CreateTaskRequest = CreateTaskRequest(title: string)

  /** The body of a PATCH: only `done` is read. */
  datatype UpdateTaskRequest = UpdateTaskRequest(done: bool)

  /**
   * The outcome of decoding a JSON request body into a record of type T:
   * either the body could not be decoded, or it gave this value (with
   * Go's zero values in the fields the body did not mention).
   */
  datatype Body<T> = Malformed | Parsed(value: T)

  /** A user of the Postgres-backed user service; the creation time is not modelled. */
  datatype User = User(id: int, name: string, email: string, age: int, phone: string)
}
