/**
 * The chat page: which session is active, the history handed to it, the
 * list of available chats and whether the session list is still loading;
 * the handlers that select a chat or start a new one; and the choice of the
 * right-hand panel.
 */
module ChatPageComponent {
  import opened Js
  import opened SessionList

  /** What the right-hand side of the page shows. */
  datatype Panel = LoadingSessions | Conversation(session: Value) | Landing

  /** Loading first, then the active session's chat window, then the landing view. */
  function ChoosePanel(loading: bool, activeSession: Value): (p: Panel)
    ensures p == LoadingSessions <==> loading
    ensures p.Conversation? <==> !loading && Truthy(activeSession)
    ensures p.Conversation? ==> p.session == activeSession
    ensures p == Landing <==> !loading && !Truthy(activeSession)
  {
    if loading then LoadingSessions
    else if Truthy(activeSession) then Conversation(activeSession)
    else Landing
  }

  class ChatPage {
    var activeSession: Value
    var chatHistory: Value
    var loading: bool
    var availableChats: Value

    constructor ()
      ensures activeSession == Null && chatHistory == Arr([]) && loading && availableChats == Arr([])
    {
      activeSession, chatHistory, loading, availableChats := Null, Arr([]), true, Arr([]);
    }

    /**
     * `loadSessions`, given how the session fetch settled: a fulfilled fetch
     * replaces the list; a rejected one leaves it; loading ends either way.
     */
    method LoadSessions(fetched: Settled)
      modifies this`availableChats, this`loading
      ensures !loading
      ensures fetched.Fulfilled? ==> availableChats == fetched.value
      ensures fetched.Rejected? ==> availableChats == old(availableChats)
    {
      if fetched.Fulfilled? {
        availableChats := fetched.value;
      }
      loading := false;
    }

    /**
     * `handleChatSelect(session_id, history = [])`: the chosen id becomes
     * active and its history is shown; an omitted (undefined) history
     * becomes the empty list, while any other value, null included, is kept.
     */
    method ChatSelect(sessionId: Value, history: Value)
      modifies this`activeSession, this`chatHistory
      ensures activeSession == sessionId
      ensures history.Undefined? ==> chatHistory == Arr([])
      ensures !history.Undefined? ==> chatHistory == history
    {
      activeSession := sessionId;
      chatHistory := if history.Undefined? then Arr([]) else history;
    }

    /**
     * `handleNewChat`, given how `startNewChat()` settled. On success the new
     * id becomes active, the shown history is emptied, and a "New Chat" entry
     * is put in front of the list, which otherwise stays as it was. A rejected
     * start, or a null result whose `session_id` cannot be read, is caught
     * and changes nothing.
     */
    method NewChat(started: Settled)
      modifies this`activeSession, this`chatHistory, this`availableChats
      ensures started.Rejected? || Nullish(started.value) ==>
                activeSession == old(activeSession) && chatHistory == old(chatHistory)
                && availableChats == old(availableChats)
      ensures started.Fulfilled? && !Nullish(started.value) ==>
                && activeSession == Prop(started.value, "session_id")
                && chatHistory == Arr([])
                && availableChats == match Prepend(NewChatEntry(activeSession), old(availableChats))
                                     case Some(list) => list
                                     case None => old(availableChats)
    {
      match started
      case Rejected(_) =>
      case Fulfilled(newChat) =>
        match Get(newChat, "session_id")
        case None =>
        case Some(id) =>
          activeSession := id;
          chatHistory := Arr([]);
          match Prepend(NewChatEntry(id), availableChats)
          case None =>
          case Some(list) => availableChats := list;
    }
  }
}
