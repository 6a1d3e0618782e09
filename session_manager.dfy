/** `SessionManager` (modularization/chatbot/session_manager.py): a dictionary
    from session name to session data. Python dictionaries remember the order
    in which keys were first inserted, and `list_sessions` reports that
    order, so the model keeps it next to the map. */
module SessionManagement {
  import opened ChatTypes

  class SessionManager<T> {
    var sessions: map<string, T>
    /** The keys of `sessions` in first-insertion order. */
    var order: seq<string>

    /** `order` lists every key exactly once. */
    ghost predicate Valid()
      reads this
    {
      && (forall i, j :: 0 <= i < j < |order| ==> order[i] != order[j])
      && (forall n :: n in order <==> n in sessions)
    }

    /** `SessionManager()`: no sessions. */
    constructor ()
      ensures Valid() && sessions == map[] && order == []
    {
      sessions := map[];
      order := [];
    }

    /** `add_session(session_name, session_data)`: insert or overwrite. A new
        name goes to the end of the order; an existing one keeps its place. */
    method AddSession(name: string, data: T)
      requires Valid()
      modifies this
      ensures Valid()
      ensures sessions == old(sessions)[name := data]
      ensures name in old(sessions) ==> order == old(order)
      ensures name !in old(sessions) ==> order == old(order) + [name]
    {
      if name !in sessions {
        order := order + [name];
      }
      sessions := sessions[name := data];
    }

    /** `get_session(session_name)`: `dict.get`, `None` for an absent name. */
    function GetSession(name: string): (r: Option<T>)
      reads this
      ensures r.Some? <==> name in sessions
      ensures r.Some? ==> r.value == sessions[name]
    {
      if name in sessions then Some(sessions[name]) else None
    }

    /** `list_sessions()`: every stored name, once each, in first-insertion
        order (the order `AddSession` keeps). */
    function ListSessions(): (r: seq<string>)
      requires Valid()
      reads this
      ensures r == order
      ensures forall n :: n in r <==> n in sessions
      ensures forall i, j :: 0 <= i < j < |r| ==> r[i] != r[j]
      ensures |r| == |sessions|
    {
      DistinctKeysCount(order, sessions);
      order
    }
  }

  /** A duplicate-free list of exactly a map's keys is as long as the map. */
  lemma {:induction false} DistinctKeysCount<T>(order: seq<string>, m: map<string, T>)
    requires forall i, j :: 0 <= i < j < |order| ==> order[i] != order[j]
    requires forall n :: n in order <==> n in m
    ensures |order| == |m|
  {
    if order == [] {
      assert m.Keys == {};
    } else {
      var last := order[|order| - 1];
      var rest := order[..|order| - 1];
      assert forall n :: n in rest <==> n in order && n != last by {
        forall n ensures n in rest <==> n in order && n != last {
          if n in order && n != last {
            var k :| 0 <= k < |order| && order[k] == n;
            assert rest[k] == n;
          }
        }
      }
      DistinctKeysCount(rest, m - {last});
      assert |m - {last}| == |m| - 1;
    }
  }
}
