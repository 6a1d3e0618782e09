/** The value-returning handlers of the styling variants (Aesthetically_good.py,
    Proper_spacing.py, visual_test.py). Each forwards to the raw context turn
    and always clears the input box. */
module StyledHandlers {
  import opened ChatTypes
  import opened Replies
  import opened Responses

  /** The nested `handle_message(user_input, history, context)`: the turn's
      history, and `""` for the input box. */
  function HandleMessage(input: UserInput, history: Log, context: string): (r: Turn)
    ensures r.boxText == ""
    ensures AllSpace(RawText(input)) ==> r.history == history
    ensures !AllSpace(RawText(input)) ==>
      ExtendsByExchange(r.history, history, RawText(input), ContextReply(context, RawText(input)))
  {
    Turn(RawContextResponse(input, history, context).history, "")
  }

  /** The context visual_test.py always passes. */
  const FixedContext := "Science"

  /** The opening of every reply visual_test.py can produce. */
  const ScienceLead := "[Science Context] " + "This chatbot specializes in answering science-related questions." + " - "

  /** visual_test.py's `handle_message(user_input, history)`: the context is fixed. */
  function ScienceHandleMessage(input: UserInput, history: Log): (r: Turn)
    ensures r.boxText == ""
    ensures AllSpace(RawText(input)) ==> r.history == history
    ensures !AllSpace(RawText(input)) ==>
      ExtendsByExchange(r.history, history, RawText(input), ContextReply(FixedContext, RawText(input)))
  {
    HandleMessage(input, history, FixedContext)
  }

  /** Every reply of the fixed-context handler opens with the Science header
      and the Science description, and then echoes the question. */
  lemma ScienceRepliesOpenWithScienceLead(input: UserInput, history: Log)
    requires !AllSpace(RawText(input))
    ensures var reply := ScienceHandleMessage(input, history).history[|history| + 1].content;
      && |ScienceLead| <= |reply|
      && reply[..|ScienceLead|] == ScienceLead
      && reply[|ScienceLead|..] == EchoReply(RawText(input))
  {
    var reply := ContextReply(FixedContext, RawText(input));
    DescribeFallsBackExactlyOnUnknown(FixedContext);
    assert Describe(FixedContext) == "This chatbot specializes in answering science-related questions.";
    assert ContextHeader(FixedContext) == "[Science Context] ";
    assert ContextLead(FixedContext) == ContextHeader(FixedContext) + Describe(FixedContext) + " - ";
    assert ContextLead(FixedContext) == ScienceLead;
    assert reply[|ScienceLead|..] == reply[|reply| - |EchoReply(RawText(input))|..];
  }

  /** The log the new-chat button of Aesthetically_good.py and Proper_spacing.py
      shows: the greeting alone. The saved history is not touched. */
  const NewChatButtonLog: Log := [Message(Assistant, NewChatButtonGreeting)]
}
