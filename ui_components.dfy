/** The nested `handle_message` of modularization/chatbot/ui_components.py. The
    first message of an empty chat creates a session under the generated name,
    listing that name only if the bot had no session by that name. The history
    it returns repeats the user's message after the bot's reply. The sidebar
    renderer of this file is `Sidebar.RenderFixedTemplate`. */
module UiComponents {
  import opened ChatTypes
  import opened Replies
  import opened Responses
  import opened ChatbotLogic

  /** The part both modular handlers share once the text is known to be
      non-empty: create the session on an empty history, run the bot's turn,
      append the user's text again, and save the result for a first message.
      If every listed name is a saved session and no name is listed twice,
      that stays so. */
  method RecordMessage(bot: Chatbot, text: string, history: Log, names: seq<string>, generatedName: string)
    returns (newHistory: Log, namesOut: seq<string>)
    requires text != [] && Unpadded(text)
    modifies bot
    ensures |newHistory| == |history| + 3
    ensures ExtendsByExchange(newHistory[..|history| + 2], history, text, EchoReply(text))
    ensures newHistory[|history| + 2] == Message(User, text)
    ensures history == [] ==>
      && bot.chatSessions == old(bot.chatSessions)[generatedName := newHistory]
      && namesOut == if generatedName in old(bot.chatSessions) then names else names + [generatedName]
    ensures history != [] ==> bot.chatSessions == old(bot.chatSessions) && namesOut == names
    ensures (forall n :: n in names ==> n in old(bot.chatSessions)) && Distinct(names) ==>
      (forall n :: n in namesOut ==> n in bot.chatSessions) && Distinct(namesOut)
  {
    namesOut := names;
    if history == [] && generatedName !in bot.chatSessions {
      bot.chatSessions := bot.chatSessions[generatedName := [Message(Assistant, BrainBotWelcome)]];
      namesOut := namesOut + [generatedName];
    }
    StripUnpadded(text);
    var turn := bot.ChatbotResponse(Plain(text), history);
    newHistory := turn.history + [Message(User, text)];
    assert newHistory[..|history| + 2] == turn.history;
    if history == [] {
      bot.chatSessions := bot.chatSessions[generatedName := newHistory];
    }
    if (forall n :: n in names ==> n in old(bot.chatSessions)) && Distinct(names) && namesOut != names {
      AppendIfAbsentKeepsDistinct(names, generatedName);
    }
  }

  /** `handle_message(user_input, history, session_list)`: the text of either
      kind of input is stripped; empty text changes nothing. The fourth value,
      the sidebar HTML, is always the empty string. */
  method HandleMessage(bot: Chatbot, input: UserInput, history: Log, names: seq<string>, generatedName: string)
    returns (newHistory: Log, cleared: string, namesOut: seq<string>, sidebar: string)
    modifies bot
    ensures cleared == "" && sidebar == ""
    ensures HandlerText(input) == [] ==>
      newHistory == history && namesOut == names && bot.chatSessions == old(bot.chatSessions)
    ensures HandlerText(input) != [] ==>
      && |newHistory| == |history| + 3
      && ExtendsByExchange(newHistory[..|history| + 2], history, HandlerText(input), EchoReply(HandlerText(input)))
      && newHistory[|history| + 2] == Message(User, HandlerText(input))
    ensures HandlerText(input) != [] && history == [] ==>
      && bot.chatSessions == old(bot.chatSessions)[generatedName := newHistory]
      && namesOut == if generatedName in old(bot.chatSessions) then names else names + [generatedName]
    ensures HandlerText(input) != [] && history != [] ==>
      bot.chatSessions == old(bot.chatSessions) && namesOut == names
  {
    var text := HandlerText(input);
    if text == [] {
      return history, "", names, "";
    }
    newHistory, namesOut := RecordMessage(bot, text, history, names, generatedName);
    cleared := "";
    sidebar := "";
  }
}
