/**
 * The session-list entry that both the chat page and the history sidebar put
 * in front of their list when a new chat starts, and the `[entry, ...list]`
 * update they both apply.
 */
module SessionList {
  import opened Js

  /** Title given to a freshly started chat in the list. */
  const NewChatTitle := "New Chat"

  /** The list entry `{session_id: id, title: "New Chat"}`. */
  function NewChatEntry(id: Value): (e: Value)
    ensures e.Obj? && Prop(e, "session_id") == id && Prop(e, "title") == Str(NewChatTitle)
  {
    Obj(map["session_id" := id, "title" := Str(NewChatTitle)])
  }

  /**
   * `[entry, ...list]`: the entry first, then every element of the list in
   * order, nothing removed or merged; `None` when the list cannot be spread.
   */
  function Prepend(entry: Value, list: Value): (r: Option<Value>)
    ensures r.Some? <==> Spread(list).Some?
    ensures r.Some? ==> r.value.Arr? && r.value.items == [entry] + Spread(list).value
    ensures list.Arr? ==> r.Some? && |r.value.items| == |list.items| + 1
                          && r.value.items[0] == entry && r.value.items[1..] == list.items
  {
    match Spread(list)
    case None => None
    case Some(xs) =>
      var r := Arr([entry] + xs);
      assert r.items[1..] == xs;
      Some(r)
  }
}
