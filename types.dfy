/** The records and enumerations of types.ts, and the small wrappers the model uses. */
module Types {

  datatype Option<+T> = None | Some(value: T)

  /** Project.status */
  datatype Status = Active | Closed | Warning

  /** The role of a signed-in session ('admin' | 'user'); the session's "no role" is None. */
  datatype Role = Admin | User

  /** LogEntry.role */
  datatype LogRole = LogAdmin | LogUser | Unknown

  /** LogEntry.status */
  datatype LogStatus = Success | Failed

  /** The pages of the Page enumeration, in declaration order. */
  datatype Page = HOME | RECORD | DASHBOARD | PROJECTS | REPORT | ACCESS_LOGS

  /** A project row; money is whole baht, an empty string stands for a missing text field. */
  datatype Project = Project(
    id: int,
    name: string,
    group: string,
    owner: string,
    budget: int,
    spent: int,
    category: string,
    status: Status)

  /** An access-log row; `timestamp` is the creation time as a number (milliseconds). */
  datatype LogEntry = LogEntry(
    id: int,
    timestamp: int,
    username: string,
    role: LogRole,
    status: LogStatus)

  /** The JSON answer of a gateway call: its `status` text and its optional `message` ("" when absent). */
  datatype Reply = Reply(status: string, message: string)

  predicate IsSuccess(r: Reply) { r.status == "success" }
}
