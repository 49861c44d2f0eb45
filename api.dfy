/**
 * The API service: session-id generation, the shaping of each request's
 * result (fallbacks on failure, the caller's session id echoed back), and
 * the module-level `activeSession` that the agentic endpoint creates lazily.
 * Each HTTP request is an input: how its promise settled, with the axios
 * response object when it was fulfilled. `Date.now()` is the input `now`.
 */
module ApiService {
  import opened Js
  import opened Text

  const SessionPrefix := "session_"
  /** The reply text when a send fails. */
  const SendFailed := "Error retrieving response."

  /**
   * `session_${Date.now()}`: the prefix followed by the timestamp's digits,
   * from which the timestamp reads back.
   */
  function GenerateSessionId(now: nat): (id: string)
    ensures |id| > |SessionPrefix| && id[..|SessionPrefix|] == SessionPrefix
    ensures AllDigits(id[|SessionPrefix|..]) && DecimalValue(id[|SessionPrefix|..]) == now
    ensures id[|SessionPrefix|] == '0' ==> now == 0
  {
    var id := SessionPrefix + Decimal(now);
    assert id[|SessionPrefix|..] == Decimal(now);
    id
  }

  /**
   * Two ids coincide exactly when their timestamps do: ids made within the
   * same millisecond are equal, so they are not unique.
   */
  lemma SessionIdsMatchTimestamps(a: nat, b: nat)
    ensures GenerateSessionId(a) == GenerateSessionId(b) <==> a == b
  {
    if GenerateSessionId(a) == GenerateSessionId(b) {
      var k := |SessionPrefix|;
      assert GenerateSessionId(a)[k..] == GenerateSessionId(b)[k..];
    }
  }

  /**
   * `response.data[key]` of a settled request; `None` when the request was
   * rejected or `response.data` is null or undefined (the read throws).
   */
  function DataField(request: Settled, key: string): (r: Option<Value>)
    ensures request.Rejected? ==> r.None?
    ensures r.Some? ==> request.Fulfilled? && !Nullish(request.value)
  {
    match request
    case Rejected(_) => None
    case Fulfilled(response) =>
      match Get(response, "data")
      case None => None
      case Some(data) => Get(data, key)
  }

  /**
   * `fetchChatSessions`: the listed `chat_sessions` when truthy; `[]` when
   * it is falsy, when `response.data` cannot be read, or when the request
   * fails. The result is never falsy.
   */
  function FetchChatSessions(request: Settled): (r: Value)
    ensures Truthy(r)
    ensures request.Rejected? ==> r == Arr([])
    ensures DataField(request, "chat_sessions").Some? && Truthy(DataField(request, "chat_sessions").value) ==>
              r == DataField(request, "chat_sessions").value
    ensures !(DataField(request, "chat_sessions").Some? && Truthy(DataField(request, "chat_sessions").value)) ==>
              r == Arr([])
  {
    match DataField(request, "chat_sessions")
    case None => Arr([])
    case Some(sessions) => Or(sessions, Arr([]))
  }

  /**
   * `fetchChatHistory(session_id)`: the `chat_history` when truthy; `[]`
   * when it is falsy, when `response.data` cannot be read, or when the
   * request fails. The result is never falsy.
   */
  function FetchChatHistory(request: Settled): (r: Value)
    ensures Truthy(r)
    ensures request.Rejected? ==> r == Arr([])
    ensures DataField(request, "chat_history").Some? && Truthy(DataField(request, "chat_history").value) ==>
              r == DataField(request, "chat_history").value
    ensures !(DataField(request, "chat_history").Some? && Truthy(DataField(request, "chat_history").value)) ==>
              r == Arr([])
  {
    match DataField(request, "chat_history")
    case None => Arr([])
    case Some(history) => Or(history, Arr([]))
  }

  /**
   * `startNewChat`: a new session id built from the timestamp and an empty
   * history. (The source spells the id template out again rather than
   * calling `generateSessionID`; the two agree.)
   */
  function StartNewChat(now: nat): (r: Value)
    ensures r.Obj? && !Nullish(r)
    ensures Prop(r, "session_id") == Str(GenerateSessionId(now))
    ensures Prop(r, "chat_history") == Arr([])
  {
    Obj(map["session_id" := Str(SessionPrefix + Decimal(now)), "chat_history" := Arr([])])
  }

  /**
   * `sendMessage(query, session_id)`: the caller's session id comes back in
   * every case; when the answer can be read its `chat_history` and
   * `response` are passed through as they are, otherwise the history is
   * empty and the response is the fixed failure text.
   */
  function SendMessage(sessionId: Value, request: Settled): (r: Value)
    ensures r.Obj? && Prop(r, "session_id") == sessionId
    ensures DataField(request, "response").Some? ==>
              && Prop(r, "chat_history") == DataField(request, "chat_history").value
              && Prop(r, "response") == DataField(request, "response").value
    ensures DataField(request, "response").None? ==>
              Prop(r, "chat_history") == Arr([]) && Prop(r, "response") == Str(SendFailed)
  {
    match (DataField(request, "chat_history"), DataField(request, "response"))
    case (Some(history), Some(response)) =>
      Obj(map["session_id" := sessionId, "chat_history" := history, "response" := response])
    case _ =>
      Obj(map["session_id" := sessionId, "chat_history" := Arr([]), "response" := Str(SendFailed)])
  }

  /**
   * `if (!activeSession) activeSession = generateSessionID()`: a falsy
   * session is replaced by a fresh id, a truthy one is kept.
   */
  function LazySession(current: Value, now: nat): (r: Value)
    ensures Truthy(r)
    ensures Truthy(current) ==> r == current
    ensures !Truthy(current) ==> r == Str(GenerateSessionId(now))
  {
    if Truthy(current) then current else Str(GenerateSessionId(now))
  }

  /** The session after a run of calls at the given timestamps. */
  function LazySessionAll(current: Value, times: seq<nat>): Value {
    if times == [] then current else LazySession(LazySessionAll(current, times[..|times| - 1]), times[|times| - 1])
  }

  /** Once a session exists, later calls keep it, whatever their timestamps. */
  lemma {:induction false} LazySessionStable(current: Value, first: nat, later: seq<nat>)
    ensures LazySessionAll(LazySession(current, first), later) == LazySession(current, first)
  {
    if later != [] {
      LazySessionStable(current, first, later[..|later| - 1]);
    }
  }

  /**
   * The reply of `sendAgenticMessage` for session `session`: that id, and
   * the answer's `response` when it can be read, else the failure text.
   */
  function AgenticReply(session: Value, request: Settled): (r: Value)
    ensures r.Obj? && Prop(r, "session_id") == session
    ensures DataField(request, "response").Some? ==> Prop(r, "response") == DataField(request, "response").value
    ensures DataField(request, "response").None? ==> Prop(r, "response") == Str(SendFailed)
  {
    match DataField(request, "response")
    case Some(response) => Obj(map["session_id" := session, "response" := response])
    case None => Obj(map["session_id" := session, "response" := Str(SendFailed)])
  }

  /** The module's mutable state. */
  class Api {
    var activeSession: Value

    constructor ()
      ensures activeSession == Null
    {
      activeSession := Null;
    }

    /**
     * `sendAgenticMessage(query)` at time `now`, given how the request
     * settled: the session is created only when there is none, and the reply
     * names the session the module holds afterwards, on success and failure.
     */
    method SendAgenticMessage(now: nat, request: Settled) returns (reply: Value)
      modifies this`activeSession
      ensures activeSession == LazySession(old(activeSession), now)
      ensures Truthy(activeSession)
      ensures Truthy(old(activeSession)) ==> activeSession == old(activeSession)
      ensures reply == AgenticReply(activeSession, request)
      ensures Prop(reply, "session_id") == activeSession
    {
      if !Truthy(activeSession) {
        activeSession := Str(GenerateSessionId(now));
      }
      reply := AgenticReply(activeSession, request);
    }
  }
}
