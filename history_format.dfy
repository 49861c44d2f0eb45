/**
 * The history normaliser of the chat window (the `flatMap` inside
 * `loadChatHistory`): a fetched chat-history payload, a list of
 * `{user, bot}` entries, becomes the flat list of messages the window shows.
 *
 * The transformation is written as the client writes it (a map over the bot
 * fragments, a flat-map over the entries) and is checked against an
 * index-based description: entry `j` occupies the `Width(entry)` positions
 * starting at `Offset(entries, j)`, its user message first, then one bot
 * message per answer.
 */
module HistoryFormat {
  import opened Js
  import opened FlatMap

  const UserSender := "You"
  const BotSender := "GUY"
  /** Text shown for a bot fragment whose `content` is falsy. */
  const NoResponse := "No response available."

  /** The `type` field of a message: "user" or "bot". */
  datatype Kind = UserKind | BotKind

  /** `{sender, text, type}`; `text` is whatever value the payload held. */
  datatype Message = Message(sender: string, text: Value, kind: Kind)

  function UserMessage(text: Value): Message {
    Message(UserSender, text, UserKind)
  }

  function BotMessage(text: Value): Message {
    Message(BotSender, text, BotKind)
  }

  // ---------------------------------------------------------------------
  // What one entry should contribute, position by position.
  // ---------------------------------------------------------------------

  /** Number of bot messages a `bot` field yields: one per array element, one for a string, none otherwise. */
  function BotCount(bot: Value): nat {
    if bot.Arr? then |bot.items| else if bot.Str? then 1 else 0
  }

  /** Reading `content` from every fragment of an array `bot` does not throw. */
  predicate FragmentsReadable(bot: Value) {
    bot.Arr? ==> forall i | 0 <= i < |bot.items| :: !Nullish(bot.items[i])
  }

  /** Normalising this entry does not throw: it is an object-like value whose fragments are too. */
  predicate EntryReadable(chat: Value) {
    !Nullish(chat) && FragmentsReadable(Prop(chat, "bot"))
  }

  /** The text of the `k`-th bot message of a `bot` field. */
  function BotTextAt(bot: Value, k: nat): Value
    requires FragmentsReadable(bot) && k < BotCount(bot)
  {
    if bot.Arr? then Or(Prop(bot.items[k], "content"), Str(NoResponse)) else bot
  }

  /** Number of messages an entry yields: its user message and its bot messages. */
  function Width(chat: Value): nat {
    1 + if Nullish(chat) then 0 else BotCount(Prop(chat, "bot"))
  }

  /** Position of entry `j`'s first message: the widths of the entries before it. */
  function Offset(entries: seq<Value>, j: nat): (r: nat)
    requires j <= |entries|
    ensures r >= j
  {
    if j == 0 then 0 else Offset(entries, j - 1) + Width(entries[j - 1])
  }

  // ---------------------------------------------------------------------
  // The transformation as the client writes it.
  // ---------------------------------------------------------------------

  /** `botMsg.content || "No response available."`; `None` when `botMsg` is null or undefined. */
  function FragmentText(fragment: Value): (r: Option<Value>)
    ensures r.Some? <==> !Nullish(fragment)
    ensures r.Some? ==> Truthy(r.value)
    ensures r.Some? && Truthy(Prop(fragment, "content")) ==> r.value == Prop(fragment, "content")
    ensures r.Some? && !Truthy(Prop(fragment, "content")) ==> r.value == Str(NoResponse)
  {
    match Get(fragment, "content")
    case None => None
    case Some(content) => Some(Or(content, Str(NoResponse)))
  }

  /** `chat.bot.map(...)`: one bot message per fragment, in order. */
  function FragmentMessages(fragments: seq<Value>): (r: Option<seq<Message>>)
    ensures r.Some? <==> forall i | 0 <= i < |fragments| :: !Nullish(fragments[i])
    ensures r.Some? ==> |r.value| == |fragments|
    ensures r.Some? ==> forall i | 0 <= i < |fragments| :: r.value[i] == BotMessage(FragmentText(fragments[i]).value)
  {
    if fragments == [] then Some([])
    else
      match FragmentText(fragments[0])
      case None => None
      case Some(text) =>
        match FragmentMessages(fragments[1..])
        case None => None
        case Some(rest) => Some([BotMessage(text)] + rest)
  }

  /** The bot messages of one entry's `bot` field. */
  function BotMessages(bot: Value): (r: Option<seq<Message>>)
    ensures r.Some? <==> FragmentsReadable(bot)
    ensures r.Some? ==> |r.value| == BotCount(bot)
    ensures r.Some? ==> forall k | 0 <= k < |r.value| :: r.value[k] == BotMessage(BotTextAt(bot, k))
  {
    if bot.Arr? then FragmentMessages(bot.items)
    else if bot.Str? then Some([BotMessage(bot)])
    else Some([])
  }

  /** One entry: the user message first, then its bot messages. */
  function EntryMessages(chat: Value): (r: Option<seq<Message>>)
    ensures r.Some? <==> EntryReadable(chat)
    ensures r.Some? ==> |r.value| == Width(chat)
    ensures r.Some? ==> r.value[0] == UserMessage(Prop(chat, "user"))
    ensures r.Some? ==> forall k | 0 <= k < Width(chat) - 1 ::
              r.value[1 + k] == BotMessage(BotTextAt(Prop(chat, "bot"), k))
  {
    match Get(chat, "bot")
    case None => None
    case Some(bot) =>
      match BotMessages(bot)
      case None => None
      case Some(bots) => Some([UserMessage(Prop(chat, "user"))] + bots)
  }

  /** Every entry of the history can be normalised without a TypeError. */
  predicate AllReadable(entries: seq<Value>) {
    forall j | 0 <= j < |entries| :: EntryReadable(entries[j])
  }

  /** `entries.map(...)`: the messages of each entry, when none of them throws. */
  function Pieces(entries: seq<Value>): (r: seq<seq<Message>>)
    requires AllReadable(entries)
    ensures |r| == |entries|
    ensures forall j | 0 <= j < |entries| :: r[j] == EntryMessages(entries[j]).value
  {
    if entries == [] then []
    else
      var n := |entries| - 1;
      assert forall j | 0 <= j < n :: entries[..n][j] == entries[j];
      Pieces(entries[..n]) + [EntryMessages(entries[n]).value]
  }

  /**
   * `entries.flatMap(...)`: each entry mapped to its messages, the results
   * concatenated in order; `None` when some entry throws.
   */
  function EntriesMessages(entries: seq<Value>): (r: Option<seq<Message>>)
    ensures r.Some? <==> AllReadable(entries)
    ensures r.Some? ==> |r.value| == Offset(entries, |entries|)
  {
    if AllReadable(entries) then
      OffsetIsStart(entries, |entries|);
      Some(Flatten(Pieces(entries)))
    else None
  }

  /**
   * The messages of a fetched history: an array payload is flattened entry
   * by entry, anything else gives the empty list. `None` stands for the
   * TypeError the flattening throws on a null entry or null fragment.
   */
  function Normalize(payload: Value): (r: Option<seq<Message>>)
    ensures !payload.Arr? ==> r == Some([])
    ensures payload.Arr? ==> (r.Some? <==> AllReadable(payload.items))
  {
    if payload.Arr? then EntriesMessages(payload.items) else Some([])
  }

  // ---------------------------------------------------------------------
  // Lemmas.
  // ---------------------------------------------------------------------

  /** `Offset` is where the flattening puts each entry's first message. */
  lemma {:induction false} OffsetIsStart(entries: seq<Value>, j: nat)
    requires AllReadable(entries) && j <= |entries|
    ensures Offset(entries, j) == Start(Pieces(entries), j)
  {
    if j > 0 {
      OffsetIsStart(entries, j - 1);
      assert |Pieces(entries)[j - 1]| == Width(entries[j - 1]) by {
        assert EntryReadable(entries[j - 1]);
      }
    }
  }

  /** The flat-map ends with the last entry's messages. */
  lemma EntriesMessagesSnoc(entries: seq<Value>)
    requires EntriesMessages(entries).Some? && entries != []
    ensures EntriesMessages(entries[..|entries| - 1]).Some?
    ensures EntryMessages(entries[|entries| - 1]).Some?
    ensures EntriesMessages(entries).value
            == EntriesMessages(entries[..|entries| - 1]).value + EntryMessages(entries[|entries| - 1]).value
  {
    var n := |entries| - 1;
    assert forall j | 0 <= j < n :: entries[..n][j] == entries[j];
    assert Pieces(entries)[..n] == Pieces(entries[..n]);
    assert Pieces(entries)[n] == EntryMessages(entries[n]).value;
  }

  /** Entry `j`'s messages fit inside the history. */
  lemma {:induction false} EntryFits(entries: seq<Value>, j: nat)
    requires EntriesMessages(entries).Some? && j < |entries|
    ensures Offset(entries, j) + Width(entries[j]) <= |EntriesMessages(entries).value|
  {
    var ps := Pieces(entries);
    OffsetIsStart(entries, j);
    assert |ps[j]| == Width(entries[j]);
    FlattenAt(ps, j, |ps[j]| - 1);
  }

  /** The `i`-th message of entry `j` sits at position `Offset(entries, j) + i` of the history. */
  lemma {:induction false} EntryMessageAt(entries: seq<Value>, j: nat, i: nat)
    requires EntriesMessages(entries).Some?
    requires j < |entries| && i < Width(entries[j])
    ensures Offset(entries, j) + Width(entries[j]) <= |EntriesMessages(entries).value|
    ensures EntriesMessages(entries).value[Offset(entries, j) + i] == EntryMessages(entries[j]).value[i]
  {
    EntryFits(entries, j);
    var ps := Pieces(entries);
    OffsetIsStart(entries, j);
    assert ps[j] == EntryMessages(entries[j]).value;
    FlattenAt(ps, j, i);
  }

  /**
   * Layout of a normalised history, user side: entry `j`'s messages fit in
   * the history and its user message sits at `Offset(entries, j)` with the
   * entry's `user` value verbatim. Entry order is kept.
   */
  lemma {:induction false} EntryLayout(entries: seq<Value>, j: nat)
    requires EntriesMessages(entries).Some?
    requires j < |entries|
    ensures Offset(entries, j) + Width(entries[j]) <= |EntriesMessages(entries).value|
    ensures EntriesMessages(entries).value[Offset(entries, j)] == UserMessage(Prop(entries[j], "user"))
  {
    EntryMessageAt(entries, j, 0);
  }

  /** Message `1 + k` of an entry is its `k`-th bot message. */
  lemma EntryBotText(chat: Value, k: nat)
    requires EntryReadable(chat) && k < Width(chat) - 1
    ensures 1 + k < |EntryMessages(chat).value|
    ensures EntryMessages(chat).value[1 + k] == BotMessage(BotTextAt(Prop(chat, "bot"), k))
  {
  }

  /**
   * Layout of a normalised history, bot side: the `k`-th bot message of
   * entry `j` comes right after its user message, at `Offset(entries, j) + 1 + k`,
   * carrying the `k`-th answer text.
   */
  lemma {:induction false} EntryBotAt(entries: seq<Value>, j: nat, k: nat)
    requires EntriesMessages(entries).Some?
    requires j < |entries| && k < Width(entries[j]) - 1
    ensures Offset(entries, j) + 1 + k < |EntriesMessages(entries).value|
    ensures EntriesMessages(entries).value[Offset(entries, j) + 1 + k]
            == BotMessage(BotTextAt(Prop(entries[j], "bot"), k))
  {
    EntryBotText(entries[j], k);
    EntryMessageAt(entries, j, 1 + k);
    var p := Offset(entries, j);
    assert p + 1 + k == p + (1 + k);
  }

  /** The texts of the user-kind messages, in order. */
  function UserTexts(ms: seq<Message>): seq<Value> {
    if ms == [] then []
    else if ms[0].kind == UserKind then [ms[0].text] + UserTexts(ms[1..])
    else UserTexts(ms[1..])
  }

  lemma {:induction false} UserTextsConcat(a: seq<Message>, b: seq<Message>)
    ensures UserTexts(a + b) == UserTexts(a) + UserTexts(b)
  {
    if a == [] {
      assert a + b == b;
    } else {
      assert (a + b)[1..] == a[1..] + b;
      UserTextsConcat(a[1..], b);
    }
  }

  lemma {:induction false} UserTextsOfBots(ms: seq<Message>)
    requires forall i | 0 <= i < |ms| :: ms[i].kind == BotKind
    ensures UserTexts(ms) == []
  {
    if ms != [] {
      UserTextsOfBots(ms[1..]);
    }
  }

  /**
   * Exactly one user message per entry, in entry order, each carrying the
   * entry's `user` value verbatim (no placeholder for a missing one).
   */
  lemma {:induction false} UserTextsMatchEntries(entries: seq<Value>)
    requires EntriesMessages(entries).Some?
    ensures UserTexts(EntriesMessages(entries).value)
            == seq(|entries|, j requires 0 <= j < |entries| && !Nullish(entries[j]) => Prop(entries[j], "user"))
  {
    if entries != [] {
      var n := |entries| - 1;
      var init := entries[..n];
      var front := EntriesMessages(init).value;
      var last := EntryMessages(entries[n]).value;
      EntriesMessagesSnoc(entries);
      UserTextsMatchEntries(init);
      UserTextsConcat(front, last);
      assert UserTexts(last) == [Prop(entries[n], "user")] by {
        assert last == [last[0]] + last[1..];
        UserTextsOfBots(last[1..]);
        UserTextsConcat([last[0]], last[1..]);
      }
      assert forall j | 0 <= j < n :: init[j] == entries[j];
    }
  }

  /**
   * A normalised history has at least one message per entry: a corollary of
   * the length clause of `EntriesMessages` and of `Offset(entries, j) >= j`.
   */
  lemma NormalizeAtLeastEntries(payload: Value)
    requires payload.Arr? && Normalize(payload).Some?
    ensures |Normalize(payload).value| >= |payload.items|
  {
  }

  /** Spells out the normalised form of a one-entry history from the layout lemma. */
  lemma {:induction false} SingleEntry(chat: Value)
    requires EntryReadable(chat)
    ensures Normalize(Arr([chat])) == EntryMessages(chat)
  {
    var entries := [chat];
    assert entries[..0] == [];
    assert EntriesMessages([]) == Some([]);
    assert EntriesMessages(entries[..0]) == Some([]);
    assert EntryMessages(entries[0]).Some?;
    assert EntriesMessages(entries) == Some([] + EntryMessages(chat).value);
    assert [] + EntryMessages(chat).value == EntryMessages(chat).value;
  }

  /** `[{user: "hi", bot: "hello"}]` gives the user message, then one bot message. */
  lemma {:induction false} StringAnswerExample()
    ensures Normalize(Arr([Obj(map["user" := Str("hi"), "bot" := Str("hello")])]))
            == Some([UserMessage(Str("hi")), BotMessage(Str("hello"))])
  {
    var chat := Obj(map["user" := Str("hi"), "bot" := Str("hello")]);
    assert Prop(chat, "bot") == Str("hello") && Prop(chat, "user") == Str("hi");
    SingleEntry(chat);
    var ms := EntryMessages(chat).value;
    assert |ms| == 2 && ms[1] == BotMessage(BotTextAt(Prop(chat, "bot"), 0));
    assert ms == [UserMessage(Str("hi")), BotMessage(Str("hello"))];
    assert Normalize(Arr([chat])) == Some(ms);
  }

  /** `[{user: "hi", bot: [{content: "a"}, {content: "b"}]}]` gives one bot message per fragment. */
  lemma {:induction false} FragmentAnswerExample()
    ensures Normalize(Arr([Obj(map["user" := Str("hi"), "bot" := Arr([Obj(map["content" := Str("a")]),
                                                                      Obj(map["content" := Str("b")])])])]))
            == Some([UserMessage(Str("hi")), BotMessage(Str("a")), BotMessage(Str("b"))])
  {
    var f1 := Obj(map["content" := Str("a")]);
    var f2 := Obj(map["content" := Str("b")]);
    var chat := Obj(map["user" := Str("hi"), "bot" := Arr([f1, f2])]);
    var bots := [BotMessage(Str("a")), BotMessage(Str("b"))];
    assert FragmentMessages([f1, f2]) == Some(bots) by {
      assert FragmentText(f1) == Some(Str("a")) && FragmentText(f2) == Some(Str("b"));
      assert [f1, f2][1..] == [f2] && [f2][1..] == [];
      assert FragmentMessages([]) == Some([]);
      assert FragmentMessages([f2]) == Some([BotMessage(Str("b"))] + []);
      assert [BotMessage(Str("b"))] + [] == [BotMessage(Str("b"))];
      assert [BotMessage(Str("a"))] + [BotMessage(Str("b"))] == bots;
    }
    assert EntryMessages(chat) == Some([UserMessage(Str("hi"))] + bots) by {
      assert Get(chat, "bot") == Some(Arr([f1, f2])) && Prop(chat, "user") == Str("hi");
    }
    SingleEntry(chat);
    assert [UserMessage(Str("hi"))] + bots == [UserMessage(Str("hi")), BotMessage(Str("a")), BotMessage(Str("b"))];
  }

  /** A fragment with empty `content` gets the placeholder text. */
  lemma {:induction false} EmptyFragmentExample()
    ensures Normalize(Arr([Obj(map["user" := Str("q"), "bot" := Arr([Obj(map["content" := Str("")])])])]))
            == Some([UserMessage(Str("q")), BotMessage(Str(NoResponse))])
  {
    var f := Obj(map["content" := Str("")]);
    var chat := Obj(map["user" := Str("q"), "bot" := Arr([f])]);
    var bots := [BotMessage(Str(NoResponse))];
    assert FragmentMessages([f]) == Some(bots) by {
      assert FragmentText(f) == Some(Str(NoResponse));
      assert [f][1..] == [];
      assert FragmentMessages([]) == Some([]);
      assert FragmentMessages([f]) == Some(bots + []);
      assert bots + [] == bots;
    }
    assert EntryMessages(chat) == Some([UserMessage(Str("q"))] + bots) by {
      assert Get(chat, "bot") == Some(Arr([f])) && Prop(chat, "user") == Str("q");
    }
    SingleEntry(chat);
    assert [UserMessage(Str("q"))] + bots == [UserMessage(Str("q")), BotMessage(Str(NoResponse))];
  }
}
