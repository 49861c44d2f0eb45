/**
 * The chat window: its React state (`messages`, `input`, `typing`), the
 * history-loading effect and the send handler. Sending has two phases: the
 * synchronous part that echoes the user's text, and the settlement, the
 * awaited answer followed by the one-second timer callback that appends
 * the bot's reply.
 */
module ChatInterfaceComponent {
  import opened Js
  import opened Text
  import opened HistoryFormat

  /** Text of the bot message when the answer carries no usable `response`. */
  const NoAnswer := "I couldn't generate a relevant response."

  /** The bot message appended for an answer that resolved to `answer`. */
  function ReplyMessage(answer: Value): (m: Message)
    requires !Nullish(answer)
    ensures m.kind == BotKind && m.sender == BotSender
    ensures Truthy(m.text)
    ensures Truthy(Prop(answer, "response")) ==> m.text == Prop(answer, "response")
    ensures !Truthy(Prop(answer, "response")) ==> m.text == Str(NoAnswer)
  {
    BotMessage(Or(Prop(answer, "response"), Str(NoAnswer)))
  }

  class ChatInterface {
    var messages: seq<Message>
    var input: string
    var typing: bool

    constructor ()
      ensures messages == [] && input == "" && !typing
    {
      messages, input, typing := [], "", false;
    }

    /** The input box's change handler. */
    method SetInput(text: string)
      modifies this`input
      ensures input == text
    {
      input := text;
    }

    /**
     * The history effect for the current `sessionId` prop, given how the
     * history fetch settled. A falsy id loads nothing; a rejected fetch or a
     * payload whose flattening throws leaves the list as it was; otherwise the
     * list becomes the normalised history (empty for a non-array payload).
     */
    method LoadHistory(sessionId: Value, fetched: Settled)
      modifies this`messages
      ensures !Truthy(sessionId) || fetched.Rejected? ==> messages == old(messages)
      ensures Truthy(sessionId) && fetched.Fulfilled? && !fetched.value.Arr? ==> messages == []
      ensures Truthy(sessionId) && fetched.Fulfilled? ==>
                messages == match Normalize(fetched.value)
                            case Some(ms) => ms
                            case None => old(messages)
    {
      if !Truthy(sessionId) {
        return;
      }
      match fetched
      case Rejected(_) =>
      case Fulfilled(payload) =>
        match Normalize(payload)
        case None =>
        case Some(ms) => messages := ms;
    }

    /**
     * The synchronous part of `sendMessage`. Blank input is ignored and
     * nothing is sent; otherwise the user's message is appended, the input is
     * cleared, `typing` is set, and the query sent is the text as typed.
     */
    method SendMessage() returns (query: Option<string>)
      modifies this`messages, this`input, this`typing
      ensures Blank(old(input)) ==>
                query == None && messages == old(messages) && input == old(input) && typing == old(typing)
      ensures !Blank(old(input)) ==>
                && query == Some(old(input))
                && messages == old(messages) + [UserMessage(Str(old(input)))]
                && input == ""
                && typing
    {
      if Trim(input) == "" {
        return None;
      }
      query := Some(input);
      messages := messages + [UserMessage(Str(input))];
      input := "";
      typing := true;
    }

    /**
     * How a sent query settles. A rejected answer only clears `typing`. A
     * fulfilled one appends exactly one bot message after the existing ones
     * and clears `typing`, unless the answer is null or undefined: then reading
     * its `response` throws inside the timer callback and nothing changes.
     */
    method Settle(answer: Settled)
      modifies this`messages, this`typing
      ensures answer.Rejected? ==> messages == old(messages) && !typing
      ensures answer.Fulfilled? && Nullish(answer.value) ==>
                messages == old(messages) && typing == old(typing)
      ensures answer.Fulfilled? && !Nullish(answer.value) ==>
                && messages == old(messages) + [ReplyMessage(answer.value)]
                && Truthy(messages[|messages| - 1].text)
                && !typing
    {
      match answer
      case Rejected(_) =>
        typing := false;
      case Fulfilled(value) =>
        if !Nullish(value) {
          messages := messages + [ReplyMessage(value)];
          typing := false;
        }
    }
  }
}
