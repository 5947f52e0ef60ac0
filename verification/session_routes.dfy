/** The `/api/sessions` router: status codes and response bodies of list, get,
    create and delete over the session manager. */
module SessionRoutes {
  import opened Wrappers
  import Js
  import opened Manager

  /** What GET `/:id` reveals of a session: its id, status and user only. */
  datatype SessionView = SessionView(id: string, status: string, user: Option<User>)

  datatype GetReply = Found(data: SessionView) | NotFound {
    function Status(): int {
      if Found? then 200 else 404
    }
  }

  datatype CreateReply = MissingId | CreateFailed(message: string) | Created(id: Js.Value) {
    function Status(): int {
      match this
      case MissingId => 400
      case CreateFailed(_) => 500
      case Created(_) => 200
    }
  }

  /** The reply to create and the ids `createSession` was called with. */
  datatype CreateRun = CreateRun(reply: CreateReply, managerCalls: seq<Js.Value>)

  datatype DeleteReply = Deleted | DeleteNotFound {
    function Status(): int {
      if Deleted? then 200 else 404
    }
  }

  datatype ListReply<T> = Listed(data: seq<T>) {
    function Status(): int {
      200
    }
  }

  /** GET `/`: the manager's list, unchanged. */
  function List<T>(all: seq<T>): (r: ListReply<T>)
    ensures r.data == all && r.Status() == 200
  {
    Listed(all)
  }

  /** GET `/:id`: 404 for an unknown id; otherwise the session's own id,
      status and user, and nothing else (no socket). */
  function Get(sessions: Sessions, id: string): (r: GetReply)
    ensures r.Status() == 404 <==> id !in sessions
    ensures id in sessions ==>
              var s := sessions[id];
              r == Found(SessionView(s.sessionId, s.status, s.user))
  {
    if id in sessions then
      var s := sessions[id];
      Found(SessionView(s.sessionId, s.status, s.user))
    else NotFound
  }

  /** POST `/create`: a falsy id is refused with 400 before the manager is
      called; otherwise the manager is called once, and a throw becomes 500
      with its message while a return echoes the id. */
  function Create(sessionId: Js.Value, thrown: Thrown): (run: CreateRun)
    ensures !Js.Truthy(sessionId) ==> run.reply == MissingId && run.managerCalls == []
    ensures Js.Truthy(sessionId) ==> run.managerCalls == [sessionId]
    ensures Js.Truthy(sessionId) && thrown.Some? ==> run.reply == CreateFailed(thrown.value)
    ensures Js.Truthy(sessionId) && thrown.None? ==> run.reply == Created(sessionId)
    ensures run.reply.Status() == 200 <==> Js.Truthy(sessionId) && thrown.None?
  {
    if !Js.Truthy(sessionId) then CreateRun(MissingId, [])
    else match thrown
      case Some(message) => CreateRun(CreateFailed(message), [sessionId])
      case None => CreateRun(Created(sessionId), [sessionId])
  }

  /** DELETE `/:id`: 200 iff the manager reports that it deleted the session. */
  function Delete(managerDeleted: bool): (r: DeleteReply)
    ensures r.Status() == 200 <==> managerDeleted
    ensures r.Status() == 404 <==> !managerDeleted
  {
    if managerDeleted then Deleted else DeleteNotFound
  }
}
