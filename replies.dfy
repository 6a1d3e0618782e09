/** The canned texts the stub bot produces: the simulated RAG context table,
    the two reply formats and the welcome messages. */
module Replies {
  import opened ChatTypes

  /** `RAG_CONTEXTS` */
  const RagContexts: map<string, string> := map[
    "Science" := "This chatbot specializes in answering science-related questions.",
    "History" := "This chatbot provides insights into historical events and figures.",
    "Technology" := "This chatbot discusses the latest advancements in technology."
  ]

  const GeneralDescription := "General Chatbot"

  /** `RAG_CONTEXTS.get(selected_context, "General Chatbot")` */
  function Describe(context: string): (r: string)
    ensures context in RagContexts ==> r == RagContexts[context]
    ensures context !in RagContexts ==> r == GeneralDescription
    ensures r in RagContexts.Values || r == GeneralDescription
  {
    if context in RagContexts then RagContexts[context] else GeneralDescription
  }

  /** The generic description is used exactly for context keys outside the table:
      none of the three known descriptions is the fallback text. */
  lemma DescribeFallsBackExactlyOnUnknown(context: string)
    ensures Describe(context) == GeneralDescription <==> context !in RagContexts
    ensures context in RagContexts ==> Describe(context) == RagContexts[context]
  {
    if context in RagContexts {
      assert context == "Science" || context == "History" || context == "Technology";
      assert |Describe(context)| != |GeneralDescription|;
    }
  }

  const EchoLead := "You asked: '"

  /** `f"You asked: '{user_text}'"`: the quoted text can be read back out of it. */
  function EchoReply(text: string): (r: string)
    ensures |r| == |EchoLead| + |text| + 1
    ensures r[..|EchoLead|] == EchoLead && r[|EchoLead|..|r| - 1] == text && r[|r| - 1] == '\''
  {
    EchoLead + text + "'"
  }

  /** The header `[<ctx> Context] ` that opens every context reply. */
  function ContextHeader(context: string): string {
    "[" + context + " Context] "
  }

  /** The header, the context's description and the separator `" - "`. */
  function ContextLead(context: string): (r: string)
    ensures |ContextHeader(context)| <= |r| && r[..|ContextHeader(context)|] == ContextHeader(context)
  {
    var header := ContextHeader(context);
    var r := header + Describe(context) + " - ";
    assert r[..|header|] == header;
    r
  }

  /** `f"[{selected_context} Context] {description} - You asked: '{user_text}'"`:
      it opens with the context header and the description, and ends with the
      echo of the user's text. */
  function ContextReply(context: string, text: string): (r: string)
    ensures |r| == |ContextLead(context)| + |EchoReply(text)|
    ensures r[..|ContextLead(context)|] == ContextLead(context)
    ensures |ContextHeader(context)| <= |r| && r[..|ContextHeader(context)|] == ContextHeader(context)
    ensures r[|r| - |EchoReply(text)|..] == EchoReply(text)
  {
    var lead := ContextLead(context);
    var r := lead + EchoReply(text);
    assert r[..|lead|] == lead;
    assert r[..|ContextHeader(context)|] == lead[..|ContextHeader(context)|];
    r
  }

  /** Neither reply format is ever blank, so the source's "force non-empty bot
      response" guard (`if not bot_reply.strip()`) can never fire. */
  lemma RepliesAreNeverBlank(context: string, text: string)
    ensures Strip(EchoReply(text)) != []
    ensures Strip(ContextReply(context, text)) != []
  {
    assert !IsSpace(EchoReply(text)[0]);
    assert !IsSpace(ContextReply(context, text)[0]);
  }

  /** The echo determines the question: two different texts never get the same reply. */
  lemma EchoReplyInjective(a: string, b: string)
    requires EchoReply(a) == EchoReply(b)
    ensures a == b
  {
    assert a == EchoReply(a)[|EchoLead|..|EchoReply(a)| - 1];
  }

  /** Within one context, the reply determines the question. */
  lemma ContextReplyInjective(context: string, a: string, b: string)
    requires ContextReply(context, a) == ContextReply(context, b)
    ensures a == b
  {
    var r := ContextReply(context, a);
    assert |EchoReply(a)| == |EchoReply(b)|;
    assert EchoReply(a) == r[|r| - |EchoReply(a)|..];
    EchoReplyInjective(a, b);
  }

  const WelcomeLead := "🔄 New chat started with **"
  const WelcomeTail := "** context!"

  /** `f"🔄 New chat started with **{selected_context}** context!"`: the
      context's name can be read back out of it, between the fixed lead and
      the fixed tail. */
  function ContextWelcome(context: string): (r: string)
    ensures |r| == |WelcomeLead| + |context| + |WelcomeTail|
    ensures r[..|WelcomeLead|] == WelcomeLead
    ensures r[|WelcomeLead|..|WelcomeLead| + |context|] == context
    ensures r[|WelcomeLead| + |context|..] == WelcomeTail
  {
    WelcomeLead + context + WelcomeTail
  }

  /** The greeting of a placeholder session and of the class-based bot. */
  const NewChatGreeting := "🔄 New chat started!"

  /** The greeting a lazily created session gets in the modular app. */
  const BrainBotWelcome := "👋 Welcome to W3 BrainBot!"

  /** The fixed log the new-chat button of the styling variants shows. */
  const NewChatButtonGreeting := "🔄 New Chat Started!"
}
