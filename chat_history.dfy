/**
 * The history sidebar: its state (`chats`, `loading`, `error`,
 * `currentChat`), the fetch effect, the "New Chat" button, clicking an
 * entry, and what the list area shows.
 */
module ChatHistoryComponent {
  import opened Js
  import opened Text
  import opened SessionList

  const NoChatsFound := "No chat history found."
  const LoadFailed := "Failed to load chat history."

  /** `chat.title || `Chat ${index + 1}``: the entry's own title, or a 1-based numbered fallback. */
  function DisplayTitle(chat: Value, index: nat): (t: Value)
    requires !Nullish(chat)
    ensures Truthy(t)
    ensures Truthy(Prop(chat, "title")) ==> t == Prop(chat, "title")
    ensures !Truthy(Prop(chat, "title")) ==>
              t.Str? && |t.s| > 5 && t.s[..5] == "Chat " && t.s[5] != '0'
              && AllDigits(t.s[5..]) && DecimalValue(t.s[5..]) == index + 1
  {
    var fallback := "Chat " + Decimal(index + 1);
    assert fallback[5..] == Decimal(index + 1);
    Or(Prop(chat, "title"), Str(fallback))
  }

  /**
   * `currentChat === chat.session_id`: the entry is drawn highlighted exactly
   * when the current id is the same primitive value as the entry's id; an
   * array or object id is never taken to be identical (references are not
   * modelled).
   */
  function Highlighted(currentChat: Value, chat: Value): (h: bool)
    requires !Nullish(chat)
    ensures h ==> currentChat == Prop(chat, "session_id")
    ensures Primitive(currentChat) ==> (h <==> currentChat == Prop(chat, "session_id"))
    ensures !Primitive(currentChat) ==> !h
  {
    StrictEquals(currentChat, Prop(chat, "session_id"))
  }

  /** One rendered list entry: its React key, its caption and whether it is highlighted. */
  datatype EntryView = EntryView(key: Value, caption: Value, highlighted: bool)

  /** What the list area of the sidebar shows. */
  datatype SidebarView = LoadingChats | ErrorText(message: string) | ChatList(entries: seq<EntryView>)

  /**
   * The list area: the loading text while loading, else the error if it is
   * truthy (`null` is `None`; an empty message would be falsy and show the
   * list), else one entry per chat. `None` stands for the TypeError thrown
   * when `chats` has no `map` or an entry is null.
   */
  function View(loading: bool, error: Option<string>, chats: Value, currentChat: Value): (r: Option<SidebarView>)
    ensures loading ==> r == Some(LoadingChats)
    ensures !loading && error.Some? && error.value != "" ==> r == Some(ErrorText(error.value))
    ensures !loading && (error.None? || error.value == "") ==>
              (r.Some? <==> chats.Arr? && forall i | 0 <= i < |chats.items| :: !Nullish(chats.items[i]))
    ensures !loading && (error.None? || error.value == "") && r.Some? ==> r.value.ChatList?
    ensures r.Some? && r.value.ChatList? ==>
              && chats.Arr? && |r.value.entries| == |chats.items|
              && forall i | 0 <= i < |chats.items| ::
                   && !Nullish(chats.items[i])
                   && r.value.entries[i].key == Prop(chats.items[i], "session_id")
                   && r.value.entries[i].caption == DisplayTitle(chats.items[i], i)
                   && (r.value.entries[i].highlighted <==> Highlighted(currentChat, chats.items[i]))
  {
    if loading then Some(LoadingChats)
    else if error.Some? && error.value != "" then Some(ErrorText(error.value))
    else if chats.Arr? && forall i | 0 <= i < |chats.items| :: !Nullish(chats.items[i]) then
      var xs := chats.items;
      Some(ChatList(seq(|xs|, i requires 0 <= i < |xs| && !Nullish(xs[i]) =>
        EntryView(Prop(xs[i], "session_id"), DisplayTitle(xs[i], i), Highlighted(currentChat, xs[i])))))
    else None
  }

  /**
   * After "New Chat" with a primitive id, the list (once shown) starts with
   * the new entry, captioned "New Chat" and highlighted, followed by the old
   * entries in order. Each old entry moves down one place: an untitled one is
   * renumbered ("Chat 1" becomes "Chat 2"), and one whose id equals the new
   * id is highlighted as well, since ids are not unique.
   */
  lemma NewChatShownFirst(id: Value, list: Value)
    requires Primitive(id) && list.Arr? && forall i | 0 <= i < |list.items| :: !Nullish(list.items[i])
    ensures View(false, None, Prepend(NewChatEntry(id), list).value, id).Some?
    ensures var v := View(false, None, Prepend(NewChatEntry(id), list).value, id).value;
            v.ChatList? && |v.entries| == |list.items| + 1
            && v.entries[0] == EntryView(id, Str(NewChatTitle), true)
            && forall i | 0 <= i < |list.items| ::
                 v.entries[i + 1] == EntryView(Prop(list.items[i], "session_id"), DisplayTitle(list.items[i], i + 1),
                                               Highlighted(id, list.items[i]))
  {
    var chats := Prepend(NewChatEntry(id), list).value;
    assert chats.items[0] == NewChatEntry(id);
    forall i | 0 <= i < |chats.items|
      ensures !Nullish(chats.items[i])
    {
      if i > 0 {
        assert chats.items[i] == list.items[i - 1];
      }
    }
  }

  class ChatHistory {
    var chats: Value
    var loading: bool
    var error: Option<string>
    var currentChat: Value

    /** `initialChat` is the session id the sidebar starts with. */
    constructor (initialChat: Value)
      ensures chats == Arr([]) && loading && error == None && currentChat == initialChat
    {
      chats, loading, error, currentChat := Arr([]), true, None, initialChat;
    }

    /**
     * The fetch effect, given how the fetch settled. An empty list (length
     * 0) reports "No chat history found." and keeps the old chats; any other
     * list replaces them and clears the error; a rejected fetch, or a null
     * result whose `length` cannot be read, reports "Failed to load chat
     * history." and keeps the old chats. Loading ends in every case.
     */
    method LoadChats(fetched: Settled)
      modifies this`chats, this`loading, this`error
      ensures !loading
      ensures fetched.Rejected? || Nullish(fetched.value) ==>
                error == Some(LoadFailed) && chats == old(chats)
      ensures fetched.Fulfilled? && !Nullish(fetched.value) && Prop(fetched.value, "length") == Num(0) ==>
                error == Some(NoChatsFound) && chats == old(chats)
      ensures fetched.Fulfilled? && !Nullish(fetched.value) && Prop(fetched.value, "length") != Num(0) ==>
                error == None && chats == fetched.value
    {
      loading := true;
      match fetched {
        case Rejected(_) =>
          error := Some(LoadFailed);
        case Fulfilled(chatSessions) =>
          match Get(chatSessions, "length") {
            case None =>
              error := Some(LoadFailed);
            case Some(length) =>
              if StrictEquals(length, Num(0)) {
                error := Some(NoChatsFound);
              } else {
                chats := chatSessions;
                error := None;
              }
          }
      }
      loading := false;
    }

    /**
     * "New Chat": the new id becomes current, a "New Chat" entry is put in
     * front of the list, and the id is handed to `onSelectChat`.
     */
    method NewChat(newSessionId: Value) returns (selected: Value)
      modifies this`currentChat, this`chats
      ensures currentChat == newSessionId && selected == newSessionId
      ensures chats == match Prepend(NewChatEntry(newSessionId), old(chats))
                       case Some(list) => list
                       case None => old(chats)
    {
      currentChat := newSessionId;
      match Prepend(NewChatEntry(newSessionId), chats) {
        case None =>
        case Some(list) => chats := list;
      }
      selected := newSessionId;
    }

    /**
     * Clicking the entry at `index` of the shown list: its `session_id`
     * becomes current and is handed to `onSelectChat`.
     */
    method Select(index: nat) returns (selected: Value)
      requires chats.Arr? && index < |chats.items| && !Nullish(chats.items[index])
      modifies this`currentChat
      ensures currentChat == Prop(chats.items[index], "session_id") && selected == currentChat
    {
      currentChat := Prop(chats.items[index], "session_id");
      selected := currentChat;
    }
  }
}
