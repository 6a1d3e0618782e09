/** `load_chat` in its three forms: by the index text the sidebar sends back,
    by name, and by name with a notice when nothing is stored. */
module Loading {
  import opened ChatTypes
  import opened IndexParse

  /** The index-checked loader: parse the text as an int, bounds-check it against
      the name list, then look the name up. Every failure (unparsable text, a
      position outside the list, a name without a saved log) gives `[]`. The
      result is always `[]` or the log saved under some listed name. */
  function LoadByIndex(sessions: map<string, Log>, indexText: string, names: seq<string>): (r: Log)
    ensures ParseInt(indexText).None? ==> r == []
    ensures ParseInt(indexText).Some? && !(0 <= ParseInt(indexText).value < |names|) ==> r == []
    ensures ParseInt(indexText).Some? && 0 <= ParseInt(indexText).value < |names| ==>
      r == LoadByName(sessions, names[ParseInt(indexText).value])
    ensures r == [] || exists i :: 0 <= i < |names| && names[i] in sessions && r == sessions[names[i]]
  {
    match ParseInt(indexText)
    case None => []
    case Some(i) =>
      if 0 <= i < |names| && names[i] in sessions then sessions[names[i]] else []
  }

  /** Sending back the index a sidebar item printed loads exactly the log saved
      under the name at that position, or `[]` if that name has none. */
  lemma LoadRenderedIndex(sessions: map<string, Log>, names: seq<string>, k: nat)
    requires k < |names|
    ensures LoadByIndex(sessions, Decimal(k), names) == if names[k] in sessions then sessions[names[k]] else []
  {
    ParseDecimal(k);
  }

  /** A position at or past the end of the list loads nothing. */
  lemma LoadPastTheEnd(sessions: map<string, Log>, names: seq<string>, n: nat)
    requires n >= |names|
    ensures LoadByIndex(sessions, Decimal(n), names) == []
  {
    ParseDecimal(n);
  }

  /** `chat_sessions.get(name)` falling back to `[]`. */
  function LoadByName(sessions: map<string, Log>, name: string): (r: Log)
    ensures name in sessions ==> r == sessions[name]
    ensures name !in sessions ==> r == []
  {
    if name in sessions then sessions[name] else []
  }

  const NoHistoryNotice := "No history available for this session."

  /** `chat_sessions.get(name, [])`, replaced by a one-message notice when that
      log is empty or missing: the result is never empty. */
  function LoadByNameOrNotice(sessions: map<string, Log>, name: string): (r: Log)
    ensures r != []
    ensures name in sessions && sessions[name] != [] ==> r == sessions[name]
    ensures !(name in sessions && sessions[name] != []) ==> r == [Message(Assistant, NoHistoryNotice)]
  {
    var history := if name in sessions then sessions[name] else [];
    if history != [] then history else [Message(Assistant, NoHistoryNotice)]
  }
}
