/** The nested `handle_message` of modularization/app.py: the same session
    bookkeeping as the one in ui_components.py, and the sidebar is then
    rendered from the returned name list. On empty text the handler returns
    `session_html` before that name is assigned. Python treats the name as
    local to the whole function, so the call raises `UnboundLocalError`. */
module ModularApp {
  import opened ChatTypes
  import opened Replies
  import opened Responses
  import opened Sidebar
  import opened ChatbotLogic
  import opened UiComponents

  /** What one call of the handler brings about. */
  datatype Outcome =
    | Replied(history: Log, cleared: string, sessionList: seq<string>, view: seq<Entry>)
    | UnboundLocalError

  method HandleMessage(bot: Chatbot, input: UserInput, history: Log, names: seq<string>, generatedName: string)
    returns (r: Outcome)
    modifies bot
    ensures HandlerText(input) == [] <==> r == UnboundLocalError
    ensures HandlerText(input) == [] ==> bot.chatSessions == old(bot.chatSessions)
    ensures r.Replied? ==>
      && r.cleared == ""
      && r.view == FixedTemplateItems(|r.sessionList|)
      && |r.history| == |history| + 3
      && ExtendsByExchange(r.history[..|history| + 2], history, HandlerText(input), EchoReply(HandlerText(input)))
      && r.history[|history| + 2] == Message(User, HandlerText(input))
    ensures r.Replied? && history == [] ==>
      && bot.chatSessions == old(bot.chatSessions)[generatedName := r.history]
      && r.sessionList == if generatedName in old(bot.chatSessions) then names else names + [generatedName]
    ensures r.Replied? && history != [] ==>
      bot.chatSessions == old(bot.chatSessions) && r.sessionList == names
  {
    var text := HandlerText(input);
    if text == [] {
      return UnboundLocalError;
    }
    var newHistory, namesOut := RecordMessage(bot, text, history, names, generatedName);
    var view := RenderFixedTemplate(namesOut);
    r := Replied(newHistory, "", namesOut, view);
  }
}
