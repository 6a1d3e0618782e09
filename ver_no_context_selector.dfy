/** The placeholder variant (Ver_No_context_Selector.py). `generate_chat_name`
    always answers "New Chat" (`Sidebar.NewChatName`). A "New Chat" entry at
    the top of the name list stands for the unsaved chat. The first message
    renames it after that message, and starting a new chat puts a fresh
    placeholder back on top. The caller's name list is changed in place by
    `start_new_chat` and copied by `handle_message`. */
module VerNoContext {
  import opened ChatTypes
  import opened Replies
  import opened Responses
  import opened IndexParse
  import opened Loading
  import opened Store
  import opened Sidebar

  /** The one-message log of a just-started chat. */
  const NewChatLog: Log := [Message(Assistant, NewChatGreeting)]

  /** `user_text[:20] + "..."`: the name the placeholder gets on the first
      message. The ellipsis is added even to short text, so the title is never
      the placeholder name itself. */
  function SessionTitle(text: string): (r: string)
    ensures |r| == (if |text| < 20 then |text| else 20) + 3
    ensures r[..|r| - 3] == text[..|r| - 3]
    ensures r[|r| - 3..] == "..."
    ensures r != NewChatName
  {
    var r := Prefix(text, 20) + "...";
    assert r[|r| - 3..] == "...";
    r
  }

  /** The list `start_new_chat` leaves behind: a fresh "New Chat" on top, the
      first earlier "New Chat" removed, every other name in its old order. */
  function ListForNewChat(names: seq<string>): (r: seq<string>)
    ensures r != [] && r[0] == NewChatName
    ensures NewChatName in names ==> r[1..] == RemoveFirst(names, NewChatName)
    ensures NewChatName !in names ==> r[1..] == names
    ensures multiset(r) == multiset(names) + if NewChatName in names then multiset{} else multiset{NewChatName}
  {
    var rest := if NewChatName in names then RemoveFirst(names, NewChatName) else names;
    assert ([NewChatName] + rest)[1..] == rest;
    [NewChatName] + rest
  }

  /** The outcome of `start_new_chat`: the new chat, the cleared history, the
      caller's own list object and the sidebar; or the IndexError raised by
      `session_list[0]` when a non-empty history meets an empty list. */
  datatype NewChatOutcome = NewChat(chat: Log, cleared: Log, sessionList: NameList, view: seq<Entry>) | IndexError

  method StartNewChat(table: SessionTable, history: Log, names: NameList) returns (r: NewChatOutcome)
    modifies table, names
    ensures history != [] && old(names.names) == [] ==>
      r == IndexError && table.sessions == old(table.sessions) && names.names == old(names.names)
    ensures !(history != [] && old(names.names) == []) ==>
      && r.NewChat?
      && r.chat == NewChatLog && r.cleared == []
      && r.sessionList == names
      && names.names == ListForNewChat(old(names.names))
      && r.view == VisibleEntries(names.names)
    ensures history != [] && old(names.names) != [] ==>
      table.sessions == old(table.sessions)[old(names.names)[0] := history][NewChatName := NewChatLog]
    ensures history == [] ==> table.sessions == old(table.sessions)[NewChatName := NewChatLog]
  {
    if history != [] {
      if names.names == [] {
        return IndexError;
      }
      var chatName := names.names[0];
      table.sessions := table.sessions[chatName := history];
    }
    if NewChatName in names.names {
      names.names := RemoveFirst(names.names, NewChatName);
    }
    names.names := [NewChatName] + names.names;
    table.sessions := table.sessions[NewChatName := NewChatLog];
    var view := RenderSkippingPlaceholder(names.names);
    r := NewChat(NewChatLog, [], names, view);
  }

  /** The list `handle_message` returns for a message with text: a missing
      placeholder is created, and a placeholder on top is renamed after the
      message; every other position is left alone. */
  function ListAfterMessage(names: seq<string>, text: string): (r: seq<string>)
    ensures |r| == if names == [] then 1 else |names|
    ensures r[0] == if names == [] || names[0] == NewChatName then SessionTitle(text) else names[0]
    ensures names != [] ==> r[1..] == names[1..]
  {
    if names == [] then [SessionTitle(text)]
    else if names[0] == NewChatName then names[0 := SessionTitle(text)]
    else names
  }

  /** The placeholder branch of `handle_message`: create the placeholder if the
      list is empty, rename it after the message (its saved log moves with it),
      then save the new history under the new name. */
  method SaveUnderTitle(table: SessionTable, list: seq<string>, text: string, newHistory: Log)
    returns (listOut: seq<string>)
    requires list == [] || list[0] == NewChatName
    modifies table
    ensures listOut == ListAfterMessage(list, text)
    ensures table.sessions == (old(table.sessions) - {NewChatName})[SessionTitle(text) := newHistory]
  {
    listOut := list;
    if listOut == [] {
      listOut := [NewChatName];
      table.sessions := table.sessions[NewChatName := NewChatLog];
    }
    var newName := SessionTitle(text);
    listOut := listOut[0 := newName];
    if NewChatName in table.sessions {
      var saved := table.sessions[NewChatName];
      table.sessions := (table.sessions - {NewChatName})[newName := saved];
    } else {
      table.sessions := table.sessions[newName := []];
    }
    table.sessions := table.sessions[newName := newHistory];
  }

  /** `handle_message(user_input, history, session_list)`: the sidebar-aware turn
      handler. Text of either kind is stripped; empty text changes nothing. */
  method HandleMessage(table: SessionTable, input: UserInput, history: Log, names: seq<string>)
    returns (newHistory: Log, cleared: string, namesOut: seq<string>, view: seq<Entry>)
    modifies table
    ensures cleared == ""
    ensures view == VisibleEntries(namesOut)
    ensures HandlerText(input) == [] ==>
      newHistory == history && namesOut == names && table.sessions == old(table.sessions)
    ensures HandlerText(input) != [] ==>
      && ExtendsByExchange(newHistory, history, HandlerText(input), EchoReply(HandlerText(input)))
      && namesOut == ListAfterMessage(names, HandlerText(input))
      && namesOut[0] in table.sessions && table.sessions[namesOut[0]] == newHistory
    ensures HandlerText(input) != [] && (names == [] || names[0] == NewChatName) ==>
      table.sessions == (old(table.sessions) - {NewChatName})[namesOut[0] := newHistory]
    ensures HandlerText(input) != [] && names != [] && names[0] != NewChatName ==>
      table.sessions == old(table.sessions)[names[0] := newHistory]
  {
    var text := HandlerText(input);
    if text == [] {
      view := RenderSkippingPlaceholder(names);
      return history, "", names, view;
    }
    StripIdempotent(RawText(input));
    assert StrippedText(Plain(text)) == text;
    newHistory := EchoResponse(Plain(text), history).history;
    if names == [] || names[0] == NewChatName {
      namesOut := SaveUnderTitle(table, names, text, newHistory);
    } else {
      namesOut := names;
      table.sessions := table.sessions[names[0] := newHistory];
    }
    view := RenderSkippingPlaceholder(namesOut);
    cleared := "";
  }

  /** Clicking an item of this sidebar loads the log saved under the name that
      item shows. */
  lemma SelectingVisibleEntryLoadsIt(sessions: map<string, Log>, names: seq<string>, e: Entry)
    requires e in VisibleEntries(names)
    ensures LoadByIndex(sessions, Decimal(e.index), names) == LoadByName(sessions, e.name)
  {
    VisibleEntriesExactly(names, e);
    LoadRenderedIndex(sessions, names, e.index);
  }

  /** Right after `start_new_chat` the top entry is the hidden placeholder, so
      every shown item sits below it. */
  lemma NewChatPlaceholderIsHidden(names: seq<string>, e: Entry)
    requires e in VisibleEntries(ListForNewChat(names))
    ensures 0 < e.index < |ListForNewChat(names)|
  {
    VisibleEntriesExactly(ListForNewChat(names), e);
  }

  /** The first message makes the session visible: its title is shown at the top. */
  lemma FirstMessageShowsTitle(names: seq<string>, text: string)
    requires names == [] || names[0] == NewChatName
    ensures Entry(0, SessionTitle(text)) in VisibleEntries(ListAfterMessage(names, text))
  {
    VisibleEntriesExactly(ListAfterMessage(names, text), Entry(0, SessionTitle(text)));
  }
}
