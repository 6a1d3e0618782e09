/** `start_new_chat` of the timestamp-naming variants: a non-empty history is
    saved, as a copy, under a freshly generated name that is appended to a
    copy of the caller's name list; an empty history saves nothing. The new
    chat always opens with the context's welcome message. The sidebar the
    source also returns is that variant's rendering of the returned list. */
module TimestampArchive {
  import opened ChatTypes
  import opened Replies
  import opened IndexParse
  import opened Loading
  import opened Store

  /** `generatedName` stands for `generate_chat_name()`, the current time formatted
      as `%Y-%m-%d %H:%M:%S`. */
  method StartNewChat(table: SessionTable, context: string, history: Log, names: seq<string>, generatedName: string)
    returns (chat: Log, cleared: Log, namesOut: seq<string>)
    modifies table
    ensures chat == [Message(Assistant, ContextWelcome(context))]
    ensures cleared == []
    ensures history == [] ==> table.sessions == old(table.sessions) && namesOut == names
    ensures history != [] ==> table.sessions == old(table.sessions)[generatedName := history]
    ensures history != [] ==> |namesOut| == |names| + 1 && namesOut[..|names|] == names && namesOut[|names|] == generatedName
  {
    namesOut := names;
    if history != [] {
      table.sessions := table.sessions[generatedName := history];
      namesOut := namesOut + [generatedName];
    }
    chat := [Message(Assistant, ContextWelcome(context))];
    cleared := [];
  }

  /** Selecting the newest sidebar item right after archiving gives back exactly
      the archived log. */
  lemma ArchiveThenLoad(sessions: map<string, Log>, names: seq<string>, name: string, history: Log)
    ensures LoadByIndex(sessions[name := history], Decimal(|names|), names + [name]) == history
  {
    LoadRenderedIndex(sessions[name := history], names + [name], |names|);
  }

  /** Archiving leaves every earlier session loadable at its old position, unless
      the generated name repeats that session's name (two archives within the
      same second), in which case the earlier log is overwritten. */
  lemma ArchiveKeepsEarlierSessions(sessions: map<string, Log>, names: seq<string>, name: string, history: Log, k: nat)
    requires k < |names|
    ensures names[k] != name ==>
      LoadByIndex(sessions[name := history], Decimal(k), names + [name]) == LoadByIndex(sessions, Decimal(k), names)
    ensures names[k] == name ==> LoadByIndex(sessions[name := history], Decimal(k), names + [name]) == history
  {
    LoadRenderedIndex(sessions[name := history], names + [name], k);
    LoadRenderedIndex(sessions, names, k);
  }

  /** By-name loading (Final.py) right after archiving a non-empty history returns it. */
  lemma ArchiveThenLoadByName(sessions: map<string, Log>, name: string, history: Log)
    requires history != []
    ensures LoadByNameOrNotice(sessions[name := history], name) == history
    ensures LoadByName(sessions[name := history], name) == history
  {
  }
}
