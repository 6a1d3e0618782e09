/** The string channel between the sidebar and `load_chat`: a session item
    prints its position with `{i}`, the browser sends that text back, and the
    loader calls `int(...)` on it. */
module IndexParse {
  import opened ChatTypes

  predicate IsDigit(c: char) {
    '0' <= c <= '9'
  }

  predicate AllDigits(s: string) {
    forall k :: 0 <= k < |s| ==> IsDigit(s[k])
  }

  function DigitChar(d: nat): (c: char)
    requires d < 10
    ensures IsDigit(c)
  {
    ('0' as int + d) as char
  }

  function DigitValue(c: char): (d: nat)
    requires IsDigit(c)
    ensures d < 10 && DigitChar(d) == c
  {
    c as int - '0' as int
  }

  /** The decimal numeral of `n`, as an f-string prints an int. */
  function Decimal(n: nat): (r: string)
    ensures r != [] && AllDigits(r)
  {
    if n < 10 then [DigitChar(n)] else Decimal(n / 10) + [DigitChar(n % 10)]
  }

  /** The value of a run of decimal digits, most significant first. */
  function DigitsValue(s: string): nat
    requires AllDigits(s)
  {
    if s == [] then 0 else DigitsValue(s[..|s| - 1]) * 10 + DigitValue(s[|s| - 1])
  }

  /** What `int()` accepts once the whitespace around it is gone: one or more
      decimal digits, possibly after a single `-` or `+`. */
  predicate Numeral(t: string) {
    || (t != [] && AllDigits(t))
    || (|t| >= 2 && (t[0] == '-' || t[0] == '+') && AllDigits(t[1..]))
  }

  /** Python's `int(text)`: surrounding whitespace is ignored, then an optional
      sign and one or more decimal digits; anything else raises ValueError,
      which is `None` here. */
  function ParseInt(text: string): (r: Option<int>)
    ensures r.Some? ==> Strip(text) != []
    ensures r.Some? <==> Numeral(Strip(text))
    ensures r.Some? && AllDigits(Strip(text)) ==> r.value == DigitsValue(Strip(text))
    ensures r.Some? && !AllDigits(Strip(text)) ==>
      var t := Strip(text);
      r.value == if t[0] == '-' then -(DigitsValue(t[1..]) as int) else DigitsValue(t[1..])
  {
    var t := Strip(text);
    if t != [] && (t[0] == '-' || t[0] == '+') then
      var body := t[1..];
      if body != [] && AllDigits(body) then
        var v: int := DigitsValue(body);
        Some(if t[0] == '-' then -v else v)
      else None
    else if t != [] && AllDigits(t) then Some(DigitsValue(t))
    else None
  }

  lemma {:induction false} DigitsValueOfDecimal(n: nat)
    ensures DigitsValue(Decimal(n)) == n
  {
    var d := Decimal(n);
    if n < 10 {
      assert d[..|d| - 1] == [];
    } else {
      DigitsValueOfDecimal(n / 10);
      assert d[..|d| - 1] == Decimal(n / 10);
    }
  }

  /** Parsing what the sidebar printed gives back the position it printed. */
  lemma ParseDecimal(n: nat)
    ensures ParseInt(Decimal(n)) == Some(n)
  {
    var d := Decimal(n);
    StripUnpadded(d);
    DigitsValueOfDecimal(n);
    assert !(d[0] == '-' || d[0] == '+');
  }
}
