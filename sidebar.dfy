/** `create_session_html` in its five forms. The HTML text, the inline styles
    and the modal markup are not modelled: a rendering is the sequence of
    session items it emits, each with the attributes that tie it back to a
    session (its `data-index` and shown name, or its `data-session` key). */
module Sidebar {

  /** A `session-item` with its `data-index` and the name it shows. */
  datatype Entry = Entry(index: nat, name: string)

  /** A `session-item` that carries its position twice: as `data-index` and as
      the argument of its `onclick='selectSession(...)'`. */
  datatype SelectableEntry = SelectableEntry(dataIndex: nat, selectArg: nat, name: string)

  /** A `session-item` keyed by `data-session="<name>"`. */
  datatype KeyedEntry = KeyedEntry(session: string)

  /** A rendering that shows "No saved chats yet" for an empty list. */
  datatype View<E> = NoSavedChats | Items(entries: seq<E>)

  /** The reserved name of the not-yet-renamed session. */
  const NewChatName := "New Chat"

  /** The items of the placeholder-skipping sidebar: one per name other than
      "New Chat", carrying its position in the full list, in list order. */
  function VisibleEntries(names: seq<string>): (r: seq<Entry>)
    ensures |r| <= |names|
    ensures forall k :: 0 <= k < |r| ==> r[k].index < |names|
    ensures forall a, b :: 0 <= a < b < |r| ==> r[a].index < r[b].index
  {
    if names == [] then []
    else
      var last := |names| - 1;
      VisibleEntries(names[..last]) + if names[last] == NewChatName then [] else [Entry(last, names[last])]
  }

  /** An item is shown exactly for a position whose name is not "New Chat". */
  lemma {:induction false} VisibleEntriesExactly(names: seq<string>, e: Entry)
    ensures e in VisibleEntries(names) <==> e.index < |names| && names[e.index] == e.name && e.name != NewChatName
  {
    if names != [] {
      var last := |names| - 1;
      VisibleEntriesExactly(names[..last], e);
      if e.index < last {
        assert names[..last][e.index] == names[e.index];
      }
    }
  }

  /** Ver_No_context_Selector.py: the item loop skips the "New Chat" placeholder. */
  method RenderSkippingPlaceholder(names: seq<string>) returns (r: seq<Entry>)
    ensures r == VisibleEntries(names)
  {
    r := [];
    for i := 0 to |names|
      invariant r == VisibleEntries(names[..i])
    {
      assert names[..i + 1][..i] == names[..i];
      if names[i] != NewChatName {
        r := r + [Entry(i, names[i])];
      }
    }
    assert names[..|names|] == names;
  }

  /** Control_Version.py and idk.py: the placeholder for an empty list, otherwise
      one item per name, in order, with `data-index = i`. */
  method RenderIndexed(names: seq<string>) returns (v: View<Entry>)
    ensures v == NoSavedChats <==> names == []
    ensures v.Items? ==> |v.entries| == |names| && forall k :: 0 <= k < |names| ==> v.entries[k] == Entry(k, names[k])
  {
    if names == [] {
      return NoSavedChats;
    }
    var entries := [];
    for i := 0 to |names|
      invariant |entries| == i
      invariant forall k :: 0 <= k < i ==> entries[k] == Entry(k, names[k])
    {
      entries := entries + [Entry(i, names[i])];
    }
    v := Items(entries);
  }

  /** test.py: like the indexed sidebar, and each item's click handler selects
      the same position its `data-index` names. */
  method RenderSelectable(names: seq<string>) returns (v: View<SelectableEntry>)
    ensures v == NoSavedChats <==> names == []
    ensures v.Items? ==> |v.entries| == |names| && forall k :: 0 <= k < |names| ==> v.entries[k] == SelectableEntry(k, k, names[k])
  {
    if names == [] {
      return NoSavedChats;
    }
    var entries := [];
    for i := 0 to |names|
      invariant |entries| == i
      invariant forall k :: 0 <= k < i ==> entries[k] == SelectableEntry(k, k, names[k])
    {
      entries := entries + [SelectableEntry(i, i, names[i])];
    }
    v := Items(entries);
  }

  /** Final.py: one item per session, in order, keyed by its name. */
  method RenderByName(names: seq<string>) returns (v: View<KeyedEntry>)
    ensures v == NoSavedChats <==> names == []
    ensures v.Items? ==> |v.entries| == |names| && forall k :: 0 <= k < |names| ==> v.entries[k].session == names[k]
  {
    if names == [] {
      return NoSavedChats;
    }
    var entries: seq<KeyedEntry> := [];
    for i := 0 to |names|
      invariant |entries| == i
      invariant forall k :: 0 <= k < i ==> entries[k].session == names[k]
    {
      entries := entries + [KeyedEntry(names[i])];
    }
    v := Items(entries);
  }

  /** The single hard-coded item the modular sidebar repeats. */
  const FixedItem := Entry(0, "2025-02-28 15:08:16")

  /** The modular sidebar for a list of `n` names: `n` copies of the fixed item. */
  function FixedTemplateItems(n: nat): (r: seq<Entry>)
    ensures |r| == n
    ensures forall k :: 0 <= k < n ==> r[k] == FixedItem
  {
    seq(n, _ => FixedItem)
  }

  /** modularization/chatbot/ui_components.py: the output depends only on the
      length of the list; no item shows a real name or position. */
  method RenderFixedTemplate(names: seq<string>) returns (r: seq<Entry>)
    ensures r == FixedTemplateItems(|names|)
  {
    r := [];
    for i := 0 to |names|
      invariant r == FixedTemplateItems(i)
    {
      r := r + [FixedItem];
    }
  }
}
