/** What the contacts and groups routers share: finding a session's socket
    and turning a phone number into a WhatsApp JID. */
module SessionSockets {
  import opened Wrappers
  import opened Manager

  const NotConnected := "Session not found or not connected"
  const UserServer := "@s.whatsapp.net"

  /** The reply of a route whose every failure is a 500 with the message. */
  datatype Reply<T> = Ok(data: T) | ServerError(message: string) {
    function Status(): int {
      if Ok? then 200 else 500
    }
  }

  /** `getSocket`: fails unless the session exists and has a socket. */
  function GetSocket(sessions: Sessions, sessionId: string): (r: Result<Socket, string>)
    ensures r.Success? <==> sessionId in sessions && sessions[sessionId].socket.Some?
    ensures r.Success? ==> r.value == sessions[sessionId].socket.value
    ensures r.Failure? ==> r.error == NotConnected
  {
    if sessionId in sessions && sessions[sessionId].socket.Some? then
      Success(sessions[sessionId].socket.value)
    else Failure(NotConnected)
  }

  /** A number that already holds `@` is a JID; any other gets the user
      server appended. */
  function NormalizeJid(number: string): (jid: string)
    ensures '@' in jid
    ensures '@' in number ==> jid == number
    ensures |jid| >= |number| && jid[..|number|] == number
    ensures '@' !in number ==> jid[|number|..] == UserServer
  {
    if '@' in number then number else number + UserServer
  }

  /** Normalising twice is normalising once. */
  lemma NormalizeJidIdempotent(number: string)
    ensures NormalizeJid(NormalizeJid(number)) == NormalizeJid(number)
  {
  }

  /** The participant list of a new group: each entry normalised, in order. */
  function NormalizeParticipants(participants: seq<string>): (r: seq<string>)
    ensures |r| == |participants|
    ensures forall i :: 0 <= i < |r| ==> r[i] == NormalizeJid(participants[i])
    ensures forall i :: 0 <= i < |r| ==> '@' in r[i]
    ensures forall i :: 0 <= i < |r| && '@' in participants[i] ==> r[i] == participants[i]
  {
    seq(|participants|, i requires 0 <= i < |participants| => NormalizeJid(participants[i]))
  }
}

/** The `/api/contacts` router. */
module ContactRoutes {
  import opened Wrappers
  import opened Manager
  import opened SessionSockets

  /** The answer of `socket.onWhatsApp`, as opaque JSON. */
  type Presence = string

  datatype ContactList = ContactList(message: string, contacts: seq<string>)

  /** GET `/:sessionId`: a placeholder that lists no contacts once the
      session has a socket. */
  function ListContacts(sessions: Sessions, sessionId: string): (r: Reply<ContactList>)
    ensures r.Ok? <==> GetSocket(sessions, sessionId).Success?
    ensures r.Ok? ==> r.data.contacts == []
    ensures r.ServerError? ==> r.message == NotConnected
  {
    match GetSocket(sessions, sessionId)
    case Failure(e) => ServerError(e)
    case Success(_) => Ok(ContactList("Contacts sync not fully implemented yet", []))
  }

  /** The reply and the JID `onWhatsApp` was asked about, if it was asked. */
  datatype CheckRun = CheckRun(reply: Reply<Presence>, queried: Option<string>)

  /** GET `/:sessionId/:number`: the normalised number is looked up on the
      session's socket; any failure is a 500. */
  function CheckNumber(sessions: Sessions, sessionId: string, number: string, answer: Result<Presence, string>)
    : (run: CheckRun)
    ensures GetSocket(sessions, sessionId).Failure? ==>
              run.reply == ServerError(NotConnected) && run.queried.None?
    ensures GetSocket(sessions, sessionId).Success? ==>
              && run.queried == Some(NormalizeJid(number))
              && (answer.Success? ==> run.reply == Ok(answer.value))
              && (answer.Failure? ==> run.reply == ServerError(answer.error))
  {
    match GetSocket(sessions, sessionId)
    case Failure(e) => CheckRun(ServerError(e), None)
    case Success(_) =>
      var jid := NormalizeJid(number);
      match answer
      case Success(status) => CheckRun(Ok(status), Some(jid))
      case Failure(e) => CheckRun(ServerError(e), Some(jid))
  }
}

/** The `/api/groups` router. */
module GroupRoutes {
  import opened Wrappers
  import opened Manager
  import opened SessionSockets

  /** Group metadata returned by the socket, as opaque JSON. */
  type GroupJson = string

  const ParticipantsNotArray := "participants.map is not a function"

  /** GET `/:sessionId`: the groups the socket reports; any failure is a 500. */
  function ListGroups(sessions: Sessions, sessionId: string, fetched: Result<GroupJson, string>): (r: Reply<GroupJson>)
    ensures GetSocket(sessions, sessionId).Failure? ==> r == ServerError(NotConnected)
    ensures GetSocket(sessions, sessionId).Success? && fetched.Success? ==> r == Ok(fetched.value)
    ensures GetSocket(sessions, sessionId).Success? && fetched.Failure? ==> r == ServerError(fetched.error)
  {
    match GetSocket(sessions, sessionId)
    case Failure(e) => ServerError(e)
    case Success(_) =>
      match fetched
      case Success(groups) => Ok(groups)
      case Failure(e) => ServerError(e)
  }

  /** The `groupCreate` call made, if any. */
  datatype GroupRequest = GroupRequest(subject: string, participants: seq<string>)

  datatype CreateRun = CreateRun(reply: Reply<GroupJson>, request: Option<GroupRequest>)

  /** POST `/create`: the socket is found first, then the participants (`None`
      when the body's value is not an array) are normalised and the group is
      created; any failure is a 500 and stops before `groupCreate`. */
  function CreateGroup(sessions: Sessions, sessionId: string, subject: string,
                       participants: Option<seq<string>>, created: Result<GroupJson, string>)
    : (run: CreateRun)
    ensures run.reply.Ok? ==> GetSocket(sessions, sessionId).Success? && participants.Some? && created.Success?
    ensures GetSocket(sessions, sessionId).Failure? ==> run.reply == ServerError(NotConnected) && run.request.None?
    ensures participants.None? ==> run.reply.Status() == 500 && run.request.None?
    ensures run.request.Some? <==> GetSocket(sessions, sessionId).Success? && participants.Some?
    ensures run.request.Some? ==>
              run.request.value == GroupRequest(subject, NormalizeParticipants(participants.value))
    ensures run.request.Some? && created.Success? ==> run.reply == Ok(created.value)
    ensures run.request.Some? && created.Failure? ==> run.reply == ServerError(created.error)
  {
    match GetSocket(sessions, sessionId)
    case Failure(e) => CreateRun(ServerError(e), None)
    case Success(_) =>
      match participants
      case None => CreateRun(ServerError(ParticipantsNotArray), None)
      case Some(ps) =>
        var request := GroupRequest(subject, NormalizeParticipants(ps));
        match created
        case Success(group) => CreateRun(Ok(group), Some(request))
        case Failure(e) => CreateRun(ServerError(e), Some(request))
  }
}
