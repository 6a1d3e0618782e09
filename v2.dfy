/** The in-place variant (v2.py). The turn function appends to the caller's
    history list and hands the same list back; `start_new_chat` appends the
    new name to the caller's name list and returns a copy of it. The saved
    log is a copy, so it does not follow later appends to the history. */
module V2 {
  import opened ChatTypes
  import opened Replies
  import opened Responses
  import opened Loading
  import opened Store

  /** The caller's `chat_history` list, which this variant appends to. */
  class ChatLog {
    var messages: Log

    constructor (initial: Log)
      ensures messages == initial
    {
      messages := initial;
    }
  }

  /** `chatbot_response(user_input, chat_history, selected_context)`: the text
      is stored as typed and tested with `strip()`; the reply carries the
      context. The list object returned is the one passed in. */
  method ChatbotResponse(input: UserInput, history: ChatLog, context: string) returns (same: ChatLog, cleared: string)
    modifies history
    ensures same == history && cleared == ""
    ensures history.messages == RawContextResponse(input, old(history.messages), context).history
    ensures AllSpace(RawText(input)) ==> history.messages == old(history.messages)
    ensures !AllSpace(RawText(input)) ==>
      ExtendsByExchange(history.messages, old(history.messages), RawText(input), ContextReply(context, RawText(input)))
  {
    var text := RawText(input);
    if Strip(text) == [] {
      return history, "";
    }
    var reply := ContextReply(context, text);
    history.messages := history.messages + [Message(User, text), Message(Assistant, reply)];
    return history, "";
  }

  /** `start_new_chat(selected_context, chat_history, session_list, ...)`:
      a non-empty history is saved under the generated name, which is appended
      to the caller's list; the list returned is a copy equal to it. */
  method StartNewChat(table: SessionTable, context: string, history: ChatLog, names: NameList, generatedName: string)
    returns (chat: Log, cleared: Log, updated: seq<string>)
    modifies table, names
    ensures chat == [Message(Assistant, ContextWelcome(context))] && cleared == []
    ensures updated == names.names
    ensures history.messages == [] ==> table.sessions == old(table.sessions) && names.names == old(names.names)
    ensures history.messages != [] ==>
      && table.sessions == old(table.sessions)[generatedName := history.messages]
      && names.names == old(names.names) + [generatedName]
  {
    if history.messages != [] {
      table.sessions := table.sessions[generatedName := history.messages];
      names.names := names.names + [generatedName];
    }
    chat := [Message(Assistant, ContextWelcome(context))];
    cleared := [];
    updated := names.names;
  }

  /** Archiving and then writing to the same history list afterwards: the
      saved log stays what it was at archive time while the list grows, and
      `load_chat` by the new name returns that snapshot. */
  method ArchiveIsSnapshot(table: SessionTable, context: string, history: ChatLog, names: NameList,
                           generatedName: string, input: UserInput)
    returns (loaded: Log)
    requires history.messages != [] && !AllSpace(RawText(input))
    modifies table, names, history
    ensures loaded == old(history.messages)
    ensures |history.messages| == |old(history.messages)| + 2
    ensures generatedName in table.sessions && table.sessions[generatedName] == old(history.messages)
    ensures history.messages != table.sessions[generatedName]
  {
    var chat, cleared, updated := StartNewChat(table, context, history, names, generatedName);
    var same, box := ChatbotResponse(input, history, context);
    loaded := LoadByName(table.sessions, generatedName);
  }
}
