/** The mutable state the sources share between calls. */
module Store {
  import opened ChatTypes

  /** A module-level `chat_sessions = {}`: session name to its saved log. Every
      variant's operations receive the one table of their module. */
  class SessionTable {
    var sessions: map<string, Log>

    constructor ()
      ensures sessions == map[]
    {
      sessions := map[];
    }
  }

  /** A Python list of session names that a handler changes in place, so that
      the caller sees the change through its own reference. */
  class NameList {
    var names: seq<string>

    constructor (initial: seq<string>)
      ensures names == initial
    {
      names := initial;
    }
  }
}
