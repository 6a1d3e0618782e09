/** The class-based bot (modularization/chatbot/chatbot_logic.py). Its saved
    sessions are a field of the bot object. `start_new_chat` appends to the
    caller's name list in place, never twice the same name, and returns that
    list object. The sentence-embedding model the constructor also loads is
    not part of this model. */
module ChatbotLogic {
  import opened ChatTypes
  import opened Replies
  import opened Responses
  import opened IndexParse
  import opened Loading
  import opened Store

  /** `session_list.append(chat_name)` guarded by `chat_name not in session_list`. */
  function AppendIfAbsent(names: seq<string>, name: string): (r: seq<string>)
    ensures name in r
    ensures name in names ==> r == names
    ensures name !in names ==> r == names + [name]
  {
    if name in names then names else names + [name]
  }

  /** No name occurs twice. */
  predicate Distinct(names: seq<string>) {
    forall i, j :: 0 <= i < j < |names| ==> names[i] != names[j]
  }

  /** The guarded append never introduces a duplicate, keeps every earlier
      name where it was, and adds exactly the new name to the set of names. */
  lemma AppendIfAbsentKeepsDistinct(names: seq<string>, name: string)
    requires Distinct(names)
    ensures Distinct(AppendIfAbsent(names, name))
    ensures AppendIfAbsent(names, name)[..|names|] == names
    ensures (set n | n in AppendIfAbsent(names, name)) == (set n | n in names) + {name}
  {
    var r := AppendIfAbsent(names, name);
    if name !in names {
      forall i, j | 0 <= i < j < |r|
        ensures r[i] != r[j]
      {
        if j == |names| {
          assert r[i] == names[i];
        }
      }
    }
  }

  class Chatbot {
    var chatSessions: map<string, Log>

    /** `Chatbot()`: no sessions yet. */
    constructor ()
      ensures chatSessions == map[]
    {
      chatSessions := map[];
    }

    /** `chatbot_response(user_input, chat_history)`: the echo bot on a copy of
        the history. A plain string is stripped, payload text is not. The guard
        that replaces a blank reply never fires (`Replies.RepliesAreNeverBlank`). */
    function ChatbotResponse(input: UserInput, history: Log): (r: Turn)
      ensures r.boxText == ""
      ensures StrippedText(input) == [] ==> r.history == history
      ensures StrippedText(input) != [] ==>
        ExtendsByExchange(r.history, history, StrippedText(input), EchoReply(StrippedText(input)))
    {
      Turn(EchoResponse(input, history).history, "")
    }

    /** `start_new_chat(chat_history, session_list)`: a non-empty history is
        saved under the generated name, added to the caller's list unless it
        is listed already. */
    method StartNewChat(history: Log, names: NameList, generatedName: string)
      returns (chat: Log, cleared: Log, same: NameList)
      modifies this, names
      ensures chat == [Message(Assistant, NewChatGreeting)] && cleared == [] && same == names
      ensures history == [] ==> chatSessions == old(chatSessions) && names.names == old(names.names)
      ensures history != [] ==>
        && chatSessions == old(chatSessions)[generatedName := history]
        && names.names == AppendIfAbsent(old(names.names), generatedName)
    {
      if history != [] {
        chatSessions := chatSessions[generatedName := history];
        if generatedName !in names.names {
          names.names := names.names + [generatedName];
        }
      }
      chat := [Message(Assistant, NewChatGreeting)];
      cleared := [];
      same := names;
    }

    /** `load_chat(selected_index_str, session_list)`: the index-checked loader
        over this bot's sessions. */
    method LoadChat(indexText: string, names: seq<string>) returns (r: Log)
      ensures r == LoadByIndex(chatSessions, indexText, names)
    {
      r := [];
      var parsed := ParseInt(indexText);
      if parsed.Some? {
        var idx := parsed.value;
        if 0 <= idx < |names| {
          var chatName := names[idx];
          if chatName in chatSessions {
            r := chatSessions[chatName];
          }
        }
      }
    }
  }
}
