/** The string conversions the code relies on: `String(n)` for integers,
    `Number(s)` for decimal strings, `padStart(2, '0')`, `startsWith`, and
    the code-unit order used to sort names. */
module Text {
  import opened Values

  predicate IsDigit(c: char) {
    '0' <= c <= '9'
  }

  predicate AllDigits(s: string) {
    forall i :: 0 <= i < |s| ==> IsDigit(s[i])
  }

  function DigitChar(d: nat): (c: char)
    requires d < 10
    ensures IsDigit(c) && c as int - '0' as int == d
  {
    (d + '0' as int) as char
  }

  /** The value of a non-empty run of decimal digits. */
  function DigitsValue(s: string): nat
    requires AllDigits(s)
  {
    if s == [] then 0
    else DigitsValue(s[..|s| - 1]) * 10 + (s[|s| - 1] as int - '0' as int)
  }

  /** `String(n)` for a natural number: its shortest decimal spelling. */
  function NatDigits(n: nat): (s: string)
    ensures |s| >= 1 && AllDigits(s)
    ensures (|s| == 1) == (n < 10)
    ensures s[0] != '0' || n == 0
    decreases n
  {
    if n < 10 then [DigitChar(n)] else NatDigits(n / 10) + [DigitChar(n % 10)]
  }

  /** `String(n)` for an integer. */
  function ShowInt(n: int): (s: string)
    ensures |s| >= 1
    ensures n >= 0 ==> AllDigits(s)
    ensures n < 0 ==> s[0] == '-'
  {
    if n < 0 then "-" + NatDigits(-n) else NatDigits(n)
  }

  lemma {:induction false} NatDigitsValue(n: nat)
    ensures DigitsValue(NatDigits(n)) == n
    decreases n
  {
    if n >= 10 {
      NatDigitsValue(n / 10);
      var s := NatDigits(n);
      assert s[..|s| - 1] == NatDigits(n / 10);
    }
  }

  /** `Number(s)` for the strings the application produces: the empty
      string is 0, an optional sign followed by decimal digits is that
      integer, and anything else is `NaN` (None). */
  function ToNumber(s: string): (r: Option<int>)
    ensures s == "" ==> r == Some(0)
    ensures s != "" && AllDigits(s) ==> r == Some(DigitsValue(s))
  {
    if s == "" then Some(0)
    else if AllDigits(s) then Some(DigitsValue(s))
    else if (s[0] == '-' || s[0] == '+') && |s| > 1 && AllDigits(s[1..]) then
      var v: int := DigitsValue(s[1..]);
      if s[0] == '-' then Some(-v) else Some(v)
    else None
  }

  /** Reading back what `String(n)` writes gives `n`: `Number(String(n)) == n`. */
  lemma {:induction false} ToNumberShowInt(n: int)
    ensures ToNumber(ShowInt(n)) == Some(n)
  {
    if n < 0 {
      var m: nat := -n;
      var d := NatDigits(m);
      NatDigitsValue(m);
      ToNumberNegative(d);
      assert ShowInt(n) == "-" + d;
    } else {
      NatDigitsValue(n);
    }
  }

  /** A minus sign before decimal digits reads as the negated value. */
  lemma {:induction false} ToNumberNegative(d: string)
    requires d != "" && AllDigits(d)
    ensures ToNumber("-" + d) == Some(0 - DigitsValue(d))
  {
    var s := "-" + d;
    assert s[1..] == d;
    assert !IsDigit(s[0]);
  }

  /** `String(n)` is injective on integers, so comparing `String(a) === String(b)`
      is comparing `a === b`. */
  lemma {:induction false} ShowIntInjective(a: int, b: int)
    ensures ShowInt(a) == ShowInt(b) <==> a == b
  {
    if ShowInt(a) == ShowInt(b) {
      ToNumberShowInt(a);
      ToNumberShowInt(b);
    }
  }

  /** `String(n).padStart(2, '0')`. */
  function Pad2(n: nat): (s: string)
    ensures AllDigits(s) && DigitsValue(s) == n
    ensures n < 100 ==> |s| == 2
    ensures |s| >= 2
  {
    NatDigitsValue(n);
    var d := NatDigits(n);
    if |d| < 2 then
      assert ("0" + d)[..1] == "0";
      "0" + d
    else d
  }

  /** Each part of a three-part concatenation is a slice of it. */
  lemma {:induction false} Join3(a: string, b: string, c: string)
    ensures |a + b + c| == |a| + |b| + |c|
    ensures (a + b + c)[..|a|] == a
    ensures (a + b + c)[|a|..|a| + |b|] == b
    ensures (a + b + c)[|a| + |b|..] == c
  {
    var r := a + b + c;
    assert r[..|a|] == a;
    assert r[|a|..|a| + |b|] == b;
    assert r[|a| + |b|..] == c;
  }

  predicate StartsWith(s: string, prefix: string) {
    |prefix| <= |s| && s[..|prefix|] == prefix
  }

  /** Ascending order of strings, compared code unit by code unit (a proper
      prefix sorts first), as a sort on a text field does. */
  predicate StrLe(a: string, b: string)
    decreases |a|
  {
    a == [] || (b != [] && (a[0] < b[0] || (a[0] == b[0] && StrLe(a[1..], b[1..]))))
  }

  lemma {:induction false} StrLeTotal(a: string, b: string)
    ensures StrLe(a, b) || StrLe(b, a)
    decreases |a|
  {
    if a != [] && b != [] && a[0] == b[0] {
      StrLeTotal(a[1..], b[1..]);
    }
  }

  lemma {:induction false} StrLeTransitive(a: string, b: string, c: string)
    requires StrLe(a, b) && StrLe(b, c)
    ensures StrLe(a, c)
    decreases |a|
  {
    if a != [] && a[0] == b[0] && b[0] == c[0] {
      StrLeTransitive(a[1..], b[1..], c[1..]);
    }
  }
}
