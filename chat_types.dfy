/** Values every variant of the chat demo shares: messages and logs, the raw value
    the input box delivers, Python's whitespace stripping and the two list
    operations (`s[:n]`, `list.remove`) the session code relies on. */
module ChatTypes {

  datatype Option<T> = None | Some(value: T)

  datatype Role = User | Assistant

  /** One `{"role": ..., "content": ...}` entry of a chat log. */
  datatype Message = Message(role: Role, content: string)

  /** A conversation, oldest message first. */
  type Log = seq<Message>

  /** What the input box hands to a handler: a plain string, or the multimodal
      payload dict, whose "text" key may be missing. */
  datatype UserInput = Plain(s: string) | Payload(text: Option<string>)

  /** `payload.get("text", "")` */
  function PayloadText(text: Option<string>): string {
    match text
    case None => ""
    case Some(t) => t
  }

  /** Python's `str.isspace()` for a single character. */
  predicate IsSpace(c: char) {
    || c == ' '
    || '\t' <= c <= '\r'
    || '\U{1c}' <= c <= '\U{1f}'
    || c == '\U{85}' || c == '\U{a0}' || c == '\U{1680}'
    || '\U{2000}' <= c <= '\U{200a}'
    || c == '\U{2028}' || c == '\U{2029}' || c == '\U{202f}' || c == '\U{205f}' || c == '\U{3000}'
  }

  predicate AllSpace(s: string) {
    forall k :: 0 <= k < |s| ==> IsSpace(s[k])
  }

  /** No whitespace at either end. */
  predicate Unpadded(s: string) {
    s == [] || (!IsSpace(s[0]) && !IsSpace(s[|s| - 1]))
  }

  /** `s.lstrip()`: the suffix of `s` left after dropping its leading whitespace. */
  function StripLeft(s: string): (r: string)
    ensures |r| <= |s| && r == s[|s| - |r|..]
    ensures r == [] || !IsSpace(r[0])
    ensures forall k :: 0 <= k < |s| - |r| ==> IsSpace(s[k])
  {
    if s != [] && IsSpace(s[0]) then StripLeft(s[1..]) else s
  }

  /** `s.rstrip()`: the prefix of `s` left after dropping its trailing whitespace. */
  function StripRight(s: string): (r: string)
    ensures |r| <= |s| && r == s[..|r|]
    ensures r == [] || !IsSpace(r[|r| - 1])
    ensures forall k :: |r| <= k < |s| ==> IsSpace(s[k])
  {
    if s != [] && IsSpace(s[|s| - 1]) then StripRight(s[..|s| - 1]) else s
  }

  /** `s.strip()`: the part of `s` left once its leading and trailing
      whitespace is dropped. The result has no whitespace at either end, and it
      is empty exactly when `s` is all whitespace (which is what
      `if not text.strip()` tests). */
  function Strip(s: string): (r: string)
    ensures Unpadded(r)
    ensures r == [] <==> AllSpace(s)
    ensures exists i, j :: 0 <= i <= j <= |s| && r == s[i..j] && AllSpace(s[..i]) && AllSpace(s[j..])
  {
    var left := StripLeft(s);
    var r := StripRight(left);
    assert r != [] ==> r[0] == left[0];
    StripKeepsMiddle(s, left, r);
    r
  }

  /** Dropping a whitespace prefix and then a whitespace suffix leaves a
      middle slice of the original. */
  lemma StripKeepsMiddle(s: string, left: string, r: string)
    requires |left| <= |s| && left == s[|s| - |left|..]
    requires forall k :: 0 <= k < |s| - |left| ==> IsSpace(s[k])
    requires |r| <= |left| && r == left[..|r|]
    requires forall k :: |r| <= k < |left| ==> IsSpace(left[k])
    ensures exists i, j :: 0 <= i <= j <= |s| && r == s[i..j] && AllSpace(s[..i]) && AllSpace(s[j..])
  {
    var i := |s| - |left|;
    var j := i + |r|;
    assert r == s[i..j];
    assert AllSpace(s[..i]);
    assert s[j..] == left[|r|..];
  }

  /** Stripping leaves a string without surrounding whitespace as it is. */
  lemma StripUnpadded(s: string)
    requires Unpadded(s)
    ensures Strip(s) == s
  {
    assert StripLeft(s) == s;
  }

  /** `Strip` is idempotent, so a handler that strips before calling a turn
      function that strips again stores the same text. */
  lemma StripIdempotent(s: string)
    ensures Strip(Strip(s)) == Strip(s)
  {
    StripUnpadded(Strip(s));
  }

  /** Python's slice `s[:n]`: at most the first `n` characters. */
  function Prefix(s: string, n: nat): (r: string)
    ensures |r| == (if |s| < n then |s| else n)
    ensures r == s[..|r|]
  {
    if |s| <= n then s else s[..n]
  }

  /** Position of the first occurrence of `x` in `s`. */
  function FirstIndex<T(==)>(s: seq<T>, x: T): (i: nat)
    requires x in s
    ensures i < |s| && s[i] == x
    ensures forall j :: 0 <= j < i ==> s[j] != x
  {
    if s[0] == x then 0 else 1 + FirstIndex(s[1..], x)
  }

  /** Python's `list.remove(x)` on a list that holds `x`: the first occurrence
      goes, every other element keeps its relative order. */
  function RemoveFirst<T(==)>(s: seq<T>, x: T): (r: seq<T>)
    requires x in s
    ensures |r| == |s| - 1
    ensures forall j :: 0 <= j < |r| ==> r[j] == if j < FirstIndex(s, x) then s[j] else s[j + 1]
    ensures multiset(r) == multiset(s) - multiset{x}
  {
    var i := FirstIndex(s, x);
    assert s == s[..i] + [x] + s[i + 1..];
    s[..i] + s[i + 1..]
  }

  /** `after` is `before` followed by exactly one user message carrying `text`
      and one assistant message carrying `reply`, in that order. */
  predicate ExtendsByExchange(after: Log, before: Log, text: string, reply: string) {
    && |after| == |before| + 2
    && after[..|before|] == before
    && after[|before|] == Message(User, text)
    && after[|before| + 1] == Message(Assistant, reply)
  }

  /** Roles alternate from one message to the next. */
  predicate Alternates(log: Log) {
    forall k :: 0 <= k < |log| - 1 ==> log[k].role != log[k + 1].role
  }
}
