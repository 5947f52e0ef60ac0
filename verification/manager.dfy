/** What the routes see of the session manager, whose implementation is not
    part of this model: `getSession(id)` is a lookup in a map of live
    sessions, and every other manager call is an outcome handed in by the
    caller. */
module Manager {
  import opened Wrappers

  /** An open connection of a session; only its identity matters here. */
  datatype Socket = Socket(handle: nat)

  datatype User = User(id: string, name: Option<string>)

  /** A live session as the manager keeps it; `socket` is absent until the
      session has connected. */
  datatype Session = Session(sessionId: string, status: string, user: Option<User>, socket: Option<Socket>)

  /** `getSession(id)`: the session for `id`, if any. */
  type Sessions = map<string, Session>

  /** What a manager call that may throw came to: `None` when it returned,
      the error's message when it threw. */
  type Thrown = Option<string>
}
