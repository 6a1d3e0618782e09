/** The turn function `chatbot_response` in its three forms. Every variant
    pulls the text out of a plain string or a `{"text": ...}` payload, ignores
    empty input, and otherwise returns a copy of the history followed by one
    user message and one assistant reply. The forms differ in what they strip
    and in the reply they build. */
module Responses {
  import opened ChatTypes
  import opened Replies

  /** The two values a turn function returns: the new history, and the text the
      UI writes back into the input box. */
  datatype Turn = Turn(history: Log, boxText: string)

  /** A plain string is stripped; payload text is taken as it is. */
  function StrippedText(input: UserInput): string {
    match input
    case Plain(s) => Strip(s)
    case Payload(t) => PayloadText(t)
  }

  /** Neither a plain string nor payload text is stripped. */
  function RawText(input: UserInput): string {
    match input
    case Plain(s) => s
    case Payload(t) => PayloadText(t)
  }

  /** What the session-aware handlers pass on: the text of either kind of
      input, stripped. */
  function HandlerText(input: UserInput): (t: string)
    ensures Unpadded(t)
    ensures t == [] <==> AllSpace(RawText(input))
  {
    Strip(RawText(input))
  }

  /** The echo bot without a context: the second value is the reply itself. */
  function EchoResponse(input: UserInput, history: Log): (r: Turn)
    ensures StrippedText(input) == [] ==> r == Turn(history, "")
    ensures StrippedText(input) != [] ==>
      && ExtendsByExchange(r.history, history, StrippedText(input), EchoReply(StrippedText(input)))
      && r.boxText == EchoReply(StrippedText(input))
  {
    var text := StrippedText(input);
    if text == [] then Turn(history, "")
    else
      var reply := EchoReply(text);
      Turn(history + [Message(User, text), Message(Assistant, reply)], reply)
  }

  /** The context bot whose plain input is stripped before it is stored. */
  function ContextResponse(input: UserInput, history: Log, context: string): (r: Turn)
    ensures r.boxText == ""
    ensures StrippedText(input) == [] ==> r.history == history
    ensures StrippedText(input) != [] ==>
      ExtendsByExchange(r.history, history, StrippedText(input), ContextReply(context, StrippedText(input)))
  {
    var text := StrippedText(input);
    if text == [] then Turn(history, "")
    else Turn(history + [Message(User, text), Message(Assistant, ContextReply(context, text))], "")
  }

  /** The context bot that only tests `text.strip()` for emptiness and stores
      the text with its surrounding whitespace. */
  function RawContextResponse(input: UserInput, history: Log, context: string): (r: Turn)
    ensures r.boxText == ""
    ensures AllSpace(RawText(input)) ==> r.history == history
    ensures !AllSpace(RawText(input)) ==>
      ExtendsByExchange(r.history, history, RawText(input), ContextReply(context, RawText(input)))
  {
    var text := RawText(input);
    if Strip(text) == [] then Turn(history, "")
    else Turn(history + [Message(User, text), Message(Assistant, ContextReply(context, text))], "")
  }

  /** A stripping turn changes the history exactly when the input has text:
      whitespace around a plain string never counts, whitespace-only payload
      text does. */
  lemma StrippedTurnIgnoresExactlyBlankInput(input: UserInput, history: Log, context: string)
    ensures EchoResponse(input, history).history == history <==> StrippedText(input) == []
    ensures ContextResponse(input, history, context).history == history <==> StrippedText(input) == []
    ensures input.Plain? ==> (StrippedText(input) == [] <==> AllSpace(input.s))
    ensures input.Payload? ==> (StrippedText(input) == [] <==> PayloadText(input.text) == [])
  {
    if StrippedText(input) != [] {
      assert |EchoResponse(input, history).history| == |history| + 2;
      assert |ContextResponse(input, history, context).history| == |history| + 2;
    }
  }

  /** The raw turn changes the history exactly when the text is not all
      whitespace, for either kind of input. */
  lemma RawTurnIgnoresExactlyBlankInput(input: UserInput, history: Log, context: string)
    ensures RawContextResponse(input, history, context).history == history <==> AllSpace(RawText(input))
  {
    if !AllSpace(RawText(input)) {
      assert |RawContextResponse(input, history, context).history| == |history| + 2;
    }
  }

  /** What a stripping turn stores for a plain string has no whitespace at
      either end; what the raw turn stores is the string exactly as typed. */
  lemma StoredTextOfPlainInput(s: string, history: Log, context: string)
    requires !AllSpace(s)
    ensures var h := ContextResponse(Plain(s), history, context).history;
      h[|history|].content == Strip(s) && Unpadded(h[|history|].content)
    ensures RawContextResponse(Plain(s), history, context).history[|history|].content == s
  {
  }

  /** A turn keeps the roles of a log alternating: a log that alternates and
      ends with the assistant (or is empty) still does after one exchange. */
  lemma ExchangeKeepsAlternation(after: Log, before: Log, text: string, reply: string)
    requires ExtendsByExchange(after, before, text, reply)
    requires Alternates(before)
    requires before == [] || before[|before| - 1].role == Assistant
    ensures Alternates(after)
    ensures after[|after| - 1].role == Assistant
  {
    forall k | 0 <= k < |after| - 1
      ensures after[k].role != after[k + 1].role
    {
      if k + 1 < |before| {
        assert after[k] == before[k] && after[k + 1] == before[k + 1];
      } else if k + 1 == |before| {
        assert after[k] == before[k];
      }
    }
  }
}
