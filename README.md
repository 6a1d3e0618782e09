# Gradio_Tinker chat bookkeeping, modelled in Dafny

Gradio_Tinker is a set of variants of one Gradio chat demo. It has a stub bot that
echoes the question, sometimes prefixed with a simulated RAG context description.
It also has a sidebar of saved sessions. This project models the session bookkeeping
that every variant repeats in its own way, and proves properties of it:

- the turn function `chatbot_response`: it takes the text of a plain string or
  a `{"text": ...}` payload, ignores blank input, and otherwise appends a user
  message and the bot's reply;
- `start_new_chat`: it archives the current log into the global name-to-log
  dictionary and updates the ordered list of session names;
- `load_chat`: it parses the index the sidebar sends back, checks it against
  the name list and looks the name up; the by-name forms do a dictionary lookup;
- the "New Chat" placeholder of `Ver_No_context_Selector.py`, which the first
  message renames to the first 20 characters of that message plus `"..."`;
- `create_session_html`: the session items each sidebar emits, with the
  position or name each item carries;
- the `Chatbot` and `SessionManager` classes of the modular version, and its two
  `handle_message` handlers.

## Layout

- `ChatTypes`: messages, logs, the input box value, Python's `str.strip()` and
  `str.isspace()`, `list.remove`, and slicing.
- `IndexParse`: `int()` on the index text, and `str()` of a position.
- `Replies`: the context table, the two reply formats and the greetings.
- `Responses`: the three forms of `chatbot_response`. They differ in what is
  stripped and in the reply format.
- `Store`: the module-level `chat_sessions` dictionary (`SessionTable`) and a
  name list that a handler changes in place (`NameList`).
- `Loading`: the three forms of `load_chat`.
- `Sidebar`: the five forms of `create_session_html`. Each is a loop method
  proved against a specification function, or shown to produce the list of
  entries it specifies.
- `TimestampArchive`: the `start_new_chat` shared by `Control_Version.py`,
  `idk.py`, `test.py` and `Final.py`.
- One module per variant for what differs: `VerNoContext`, `V2`,
  `StyledHandlers` (`Aesthetically_good.py`, `Proper_spacing.py`,
  `visual_test.py`), `ChatbotLogic`, `SessionManagement`, `UiComponents` and
  `ModularApp`.

Where variants share the same logic, it is modelled once, even though their
print calls, comments and local names differ. The row for the shared member
cites one place and names the others.

State the source changes in place is modelled with classes:
- the `chat_sessions` dictionary is modelled as `SessionTable`, or as the
  `chatSessions` field of `Chatbot`;
- a list the source appends to or edits is a `NameList` or a `ChatLog`.

Lists the source copies with `list(...)` are Dafny sequences, which are values.
The clock that names archived sessions appears as a `generatedName` parameter.

## Model

| member | source | states |
|---|---|---|
| `ChatTypes.Strip` | Ver_No_context_Selector.py:31 | `str.strip()`: the result is a contiguous slice of the input with only whitespace before and after it, and has no whitespace at either end, so exactly the outer whitespace (Python's `isspace` set) is removed; it is empty exactly when the input is all whitespace |
| `ChatTypes.StripUnpadded` | Ver_No_context_Selector.py:282-284 | stripping text that has no whitespace at either end gives it back unchanged |
| `ChatTypes.StripIdempotent` | Ver_No_context_Selector.py:314 | stripping twice is stripping once, so `chatbot_response` re-stripping the already stripped handler text stores the same text |
| `ChatTypes.Prefix` | Ver_No_context_Selector.py:304 | `s[:n]`: the first `min(n, len(s))` characters |
| `ChatTypes.RemoveFirst` | Ver_No_context_Selector.py:66-67 | `list.remove(x)`: removes the first occurrence only, shifts the later elements down by one, and keeps everything else (as a multiset, exactly one `x` fewer) |
| `IndexParse.Decimal` | Ver_No_context_Selector.py:117 | the `{i}` an item prints is a non-empty run of decimal digits |
| `IndexParse.ParseInt` | Ver_No_context_Selector.py:88 | `int(text)`: a value exactly when the stripped text is one or more ASCII digits, possibly after a single `-` or `+`; anything else is the `ValueError` path (`None`). The value is the digits' decimal value, negated after `-` |
| `IndexParse.DigitsValueOfDecimal` | Ver_No_context_Selector.py:117 | the printed digits read back as the position they print |
| `IndexParse.ParseDecimal` | Ver_No_context_Selector.py:88 | `int(str(i)) == i` for every position `i` |
| `Replies.Describe` | Control_Version.py:35 | `RAG_CONTEXTS.get(selected_context, "General Chatbot")`: a known key's own description, `"General Chatbot"` for any other key |
| `Replies.DescribeFallsBackExactlyOnUnknown` | Control_Version.py:35 | the description is `"General Chatbot"` exactly for a context key outside `RAG_CONTEXTS`; a known key gives its own description |
| `Replies.EchoReply` | Ver_No_context_Selector.py:38 | `"You asked: '<text>'"`: the lead, the text exactly, a closing quote |
| `Replies.ContextLead` | Control_Version.py:35-38 | the part of a context reply before the echo starts with `"[<ctx> Context] "` |
| `Replies.ContextReply` | Control_Version.py:38 | `"[<ctx> Context] <desc> - You asked: '<text>'"`: header and description first, the echo of the text last |
| `Replies.RepliesAreNeverBlank` | Control_Version.py:45-46 | neither reply form is blank after stripping, so the "force non-empty bot response" guard never fires |
| `Replies.EchoReplyInjective` | Ver_No_context_Selector.py:38 | different questions never get the same echo |
| `Replies.ContextReplyInjective` | Control_Version.py:38 | within one context, different questions never get the same reply |
| `Replies.ContextWelcome` | Control_Version.py:70 | `"🔄 New chat started with **<ctx>** context!"`: the fixed lead, the context name exactly, the fixed tail |
| `Responses.HandlerText` | Ver_No_context_Selector.py:280-284 | the handlers' text: either input kind stripped; empty exactly when the raw text is all whitespace |
| `Responses.EchoResponse` | Ver_No_context_Selector.py:25-51 | blank stripped text gives `(history, "")`; otherwise a copy of the history plus user text and echo, and the reply as the second value. Plain input is stripped, payload text is not |
| `Responses.ContextResponse` | Control_Version.py:22-51 | the same with the context reply and `""` as second value. The nested `handle_message` at Control_Version.py 357-360 returns this very pair |
| `Responses.RawContextResponse` | idk.py:22-41 | emptiness tested on `strip()`, text stored as typed, context reply, `""` second. The same code is in test.py 19-36, Final.py 19-35, Aesthetically_good.py 15-31, Proper_spacing.py 15-31 and visual_test.py 17-33 |
| `Responses.StrippedTurnIgnoresExactlyBlankInput` | Control_Version.py:25-32 | a stripping turn leaves the history alone exactly when the stripped text is empty: whitespace-only plain strings are ignored, whitespace-only payload text is not |
| `Responses.RawTurnIgnoresExactlyBlankInput` | idk.py:30-32 | the raw turn leaves the history alone exactly when the text is all whitespace |
| `Responses.StoredTextOfPlainInput` | idk.py:25-39 | the stripping turn stores the stripped string; the raw turn stores the string exactly as typed |
| `Responses.ExchangeKeepsAlternation` | test.py:33-36 | appending user then assistant keeps a log's roles alternating and ending with the assistant |
| `Loading.LoadByIndex` | Ver_No_context_Selector.py:84-97 | unparsable text or an index outside `0 <= idx < len(session_list)` gives `[]`; an index inside it gives the log saved under that name, or `[]` if none; so any result is `[]` or the log saved under a listed name. The same code is in Control_Version.py 84-97, idk.py 72-84, test.py 58-67 |
| `Loading.LoadRenderedIndex` | Ver_No_context_Selector.py:89-93 | loading the index an item printed gives exactly the log saved under the name at that position, or `[]` if none is saved |
| `Loading.LoadPastTheEnd` | Ver_No_context_Selector.py:89 | a position at or past the end loads `[]` |
| `Loading.LoadByName` | v2.py:53-56 | the stored log, or `[]` for an absent name |
| `Loading.LoadByNameOrNotice` | Final.py:51-60 | the stored log if present and non-empty, else the one-message notice "No history available for this session."; never empty |
| `Sidebar.VisibleEntries` | Ver_No_context_Selector.py:111-121 | at most one entry per list position (a name listed twice shows twice), each carrying a valid full-list position, in increasing position order |
| `Sidebar.VisibleEntriesExactly` | Ver_No_context_Selector.py:111-121 | an entry is shown exactly for a position whose name is not "New Chat", with that name |
| `Sidebar.RenderSkippingPlaceholder` | Ver_No_context_Selector.py:102-122 | the item loop produces exactly the visible entries |
| `Sidebar.RenderIndexed` | Control_Version.py:102-115 | "No saved chats yet" exactly for an empty list; otherwise one item per name, in order, `data-index = i`. Same as idk.py 89-102 |
| `Sidebar.RenderSelectable` | test.py:70-82 | as the indexed sidebar, and each item's `selectSession(i)` names the same position as its `data-index` |
| `Sidebar.RenderByName` | Final.py:63-74 | "No saved chats yet" exactly for an empty list; otherwise one item per session, in order, keyed by its name |
| `Sidebar.FixedTemplateItems` | modularization/chatbot/ui_components.py:11-28 | `n` copies of the hard-coded item (`data-index="0"`, fixed name) |
| `Sidebar.RenderFixedTemplate` | modularization/chatbot/ui_components.py:4-35 | the output depends only on the list's length: one fixed item per name, none for `[]` |
| `Store.SessionTable.constructor` | Control_Version.py:12 | `chat_sessions = {}` starts empty |
| `Store.NameList.constructor` | Ver_No_context_Selector.py:56 | a name list holds the caller's names |
| `TimestampArchive.StartNewChat` | Control_Version.py:58-79 | welcome log with the context, cleared history; an empty history changes nothing; otherwise the generated name maps to the history and the returned list is the old one plus that name last. The same code is in idk.py 46-67, test.py 39-55, Final.py 38-48 |
| `TimestampArchive.ArchiveThenLoad` | Control_Version.py:61-66 | selecting the newest item right after archiving loads exactly the archived log |
| `TimestampArchive.ArchiveKeepsEarlierSessions` | Control_Version.py:61-66 | every earlier item still loads what it loaded before, unless the generated name repeats its name (same second), when the archive overwrites it |
| `TimestampArchive.ArchiveThenLoadByName` | Final.py:39-41 | by-name loading of the just-archived name returns the archived log |
| `VerNoContext.SessionTitle` | Ver_No_context_Selector.py:304 | `text[:20] + "..."`: first `min(20, len)` characters, then `"..."` even for short text; never `"New Chat"` |
| `VerNoContext.ListForNewChat` | Ver_No_context_Selector.py:65-71 | "New Chat" on top; the first earlier "New Chat" removed; all other names in their old order |
| `VerNoContext.StartNewChat` | Ver_No_context_Selector.py:56-79 | IndexError for a non-empty history and an empty list; otherwise the history is saved under `session_list[0]`, the caller's own list becomes `ListForNewChat`, "New Chat" maps to the welcome log, and the history returned is `[]` |
| `VerNoContext.ListAfterMessage` | Ver_No_context_Selector.py:293-305 | the list is at least one long; position 0 becomes the title if it was "New Chat" or missing; other positions unchanged |
| `VerNoContext.SaveUnderTitle` | Ver_No_context_Selector.py:293-317 | the placeholder branch: "New Chat" is gone from the table and the title maps to the new history |
| `VerNoContext.HandleMessage` | Ver_No_context_Selector.py:273-322 | blank text: nothing changes. Otherwise the history grows by the exchange, `chat_sessions[session_list[0]]` is the new history, the list is `ListAfterMessage`, and the sidebar shows its visible entries |
| `VerNoContext.SelectingVisibleEntryLoadsIt` | Ver_No_context_Selector.py:84-121 | clicking a shown item loads the log saved under the name it shows |
| `VerNoContext.NewChatPlaceholderIsHidden` | Ver_No_context_Selector.py:71-77 | right after a new chat, every shown item sits below the hidden placeholder |
| `VerNoContext.FirstMessageShowsTitle` | Ver_No_context_Selector.py:303-320 | after the first message the title is shown as the top item |
| `V2.ChatLog.constructor` | v2.py:92 | a history list holds its messages |
| `V2.ChatbotResponse` | v2.py:19-35 | appends in place to the caller's list and returns that same object; whitespace-only input leaves it untouched; otherwise it grows by user text and context reply |
| `V2.StartNewChat` | v2.py:38-50 | a non-empty history is saved and its name appended to the caller's list in place; the returned list equals the caller's list |
| `V2.ArchiveIsSnapshot` | v2.py:41 | a later in-place append to the history does not change the archived log, and loading by the name returns the snapshot |
| `StyledHandlers.HandleMessage` | Aesthetically_good.py:202-204 | returns the raw turn's history and always `""`. The same code is in Proper_spacing.py 126-128, idk.py 241-244 and test.py 221-223 |
| `StyledHandlers.ScienceHandleMessage` | visual_test.py:111-113 | the same with the context fixed to "Science" |
| `StyledHandlers.ScienceRepliesOpenWithScienceLead` | visual_test.py:26-27 | every reply starts `"[Science Context] This chatbot specializes in answering science-related questions. - "` and then echoes the question |
| `ChatbotLogic.AppendIfAbsent` | modularization/chatbot/chatbot_logic.py:40-41 | the name is in the result; the list is unchanged if it was listed, else extended by it |
| `ChatbotLogic.AppendIfAbsentKeepsDistinct` | modularization/chatbot/chatbot_logic.py:40-41 | the guarded append never creates a duplicate, keeps earlier names in place and adds exactly the name to the set |
| `ChatbotLogic.Chatbot.constructor` | modularization/chatbot/chatbot_logic.py:7-8 | a new bot has no sessions |
| `ChatbotLogic.Chatbot.ChatbotResponse` | modularization/chatbot/chatbot_logic.py:15-33 | the echo turn: plain input stripped, payload not; blank gives the history back; `""` second |
| `ChatbotLogic.Chatbot.StartNewChat` | modularization/chatbot/chatbot_logic.py:35-43 | empty history: nothing changes; otherwise the generated name maps to the history and is appended to the caller's list unless already there; the same list object is returned |
| `ChatbotLogic.Chatbot.LoadChat` | modularization/chatbot/chatbot_logic.py:45-55 | the index-checked loader over the bot's own sessions |
| `SessionManagement.SessionManager.constructor` | modularization/chatbot/session_manager.py:2-3 | a new manager lists no sessions |
| `SessionManagement.SessionManager.AddSession` | modularization/chatbot/session_manager.py:5-6 | insert or overwrite one entry, all others unchanged; a new name goes last in the order, a re-added name keeps its place |
| `SessionManagement.SessionManager.GetSession` | modularization/chatbot/session_manager.py:8-9 | the stored data, `None` exactly for an absent name |
| `SessionManagement.SessionManager.ListSessions` | modularization/chatbot/session_manager.py:11-12 | the names in first-insertion order (the order `AddSession` keeps): every stored name exactly once, as many as there are sessions |
| `UiComponents.RecordMessage` | modularization/chatbot/ui_components.py:77-89 | history grows by user, echo, user; on an empty history the generated name maps to the new history and is listed only if it was new; never adds a duplicate or an unsaved name to a list of saved names |
| `UiComponents.HandleMessage` | modularization/chatbot/ui_components.py:70-91 | blank text: nothing changes; otherwise as `RecordMessage`; the cleared input and the sidebar value are always `""` |
| `ModularApp.HandleMessage` | modularization/app.py:55-79 | blank text raises `UnboundLocalError` (read of `session_html` before its assignment at line 77) and changes nothing; otherwise as `RecordMessage`, and the sidebar is rendered from the returned list |

## Left out

- Everything Gradio: layout, event wiring, `.then` chains, `demo.load` and
  `demo.launch`, and the `gr.Dropdown` and `gr.update` values some handlers
  return (v2.py line 50).
- The CSS, the inline styles and scripts and the modal markup inside
  `create_session_html`. The browser JavaScript, including the rename and
  delete handlers: those are not implemented on the Python side either.
- File and asset I/O (the logo read and base64 encoding, the static js and css
  files), the `SentenceTransformer` load in `Chatbot()`, and all `print`
  output.
- `datetime.now()`: the generated name is a parameter.
  `generate_chat_name` of Ver_No_context_Selector.py always gives "New Chat",
  which is `Sidebar.NewChatName`.
- v3.py: a click-wiring demo outside the session bookkeeping.
- `IndexParse.ParseInt`: `int()` also accepts `_` between digits and non-ASCII
  decimal digits. The model accepts ASCII digits only. The sidebar only ever
  sends ASCII positions.
- A payload whose "text" key holds `None` is not modelled: a payload's text
  is either missing or a string. In the source that value is falsy, so the
  stripping turn functions ignore it like empty text (Ver_No_context_Selector.py
  lines 29 and 33, Control_Version.py lines 26 and 30, chatbot_logic.py lines 18
  and 22). The raw turn functions and the session-aware handlers call
  `.strip()` on it and raise `AttributeError` (idk.py line 30, test.py line 25,
  Final.py line 25, v2.py line 25, Aesthetically_good.py line 21,
  Proper_spacing.py line 21, visual_test.py line 23, Ver_No_context_Selector.py
  line 282, ui_components.py line 72, app.py line 57).
- The start-up lambdas that show a fixed welcome log, for example
  Ver_No_context_Selector.py line 816. The new-chat button lambda of the styling
  variants is the constant `StyledHandlers.NewChatButtonLog`.
- `UiComponents.RecordMessage`, `VerNoContext.HandleMessage`,
  `Loading.LoadByIndex`, `Loading.LoadByName` and `ChatbotLogic.Chatbot.LoadChat`:
  the source shares list objects between `chat_sessions` and what these return.
  The handlers store the very history list they return
  (ui_components.py line 89, Ver_No_context_Selector.py lines 317 and 322), and
  the loaders return the stored list itself (for example
  Ver_No_context_Selector.py line 93). Only Gradio's copying of values keeps
  later appends from reaching the saved log. The model passes values and does
  not capture that aliasing.
- `TimestampArchive.StartNewChat`: the source also returns `session_html`,
  the variant's sidebar for the returned list (Control_Version.py lines 73 and
  79, and the same in idk.py, test.py and Final.py). The model does not return
  it. That sidebar is `Sidebar.RenderIndexed` (Control_Version.py, idk.py),
  `Sidebar.RenderSelectable` (test.py) or `Sidebar.RenderByName` (Final.py)
  applied to the returned list.
- The sidebar HTML text itself: each rendering is the sequence of items with
  the attributes that tie it to a session.
