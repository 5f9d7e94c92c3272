/** The few Python string operations the bot relies on: `str()` and `f"{n}"` of an
    integer, `int()` of a command argument or callback field, `s.split(sep)[-1]`
    and `sep.join(items)`. */
module Text {
  import opened Base

  predicate IsDigit(c: char) {
    '0' <= c <= '9'
  }

  predicate AllDigits(s: string) {
    forall i :: 0 <= i < |s| ==> IsDigit(s[i])
  }

  function DigitChar(d: nat): (c: char)
    requires d < 10
    ensures IsDigit(c) && c as int - '0' as int == d
  {
    ('0' as int + d) as char
  }

  /** Decimal digits of n, most significant first, with no leading zero. */
  function NatToString(n: nat): (s: string)
    ensures |s| >= 1 && AllDigits(s)
    ensures s[0] == '0' ==> n == 0
    decreases n
  {
    if n < 10 then [DigitChar(n)] else NatToString(n / 10) + [DigitChar(n % 10)]
  }

  /** Python's `str(i)`: a minus sign for negative values, then the digits. */
  function IntToString(i: int): (s: string)
    ensures |s| >= 1
    ensures i >= 0 <==> AllDigits(s)
    ensures i < 0 <==> s[0] == '-'
  {
    if i < 0 then
      var s := "-" + NatToString(-i);
      assert !IsDigit(s[0]);
      s
    else
      NatToString(i)
  }

  /** The value of a run of decimal digits (most significant first). */
  function DigitsValue(s: string): nat
    requires AllDigits(s)
  {
    if s == [] then 0 else DigitsValue(s[..|s| - 1]) * 10 + (s[|s| - 1] as int - '0' as int)
  }

  /** Python's `int(s)` restricted to an optional sign followed by decimal digits;
      None where `int` raises ValueError. */
  function ParseInt(s: string): (r: Option<int>)
    ensures r.Some? ==> |s| >= 1
    ensures |s| >= 1 && AllDigits(s) ==> r == Some(DigitsValue(s) as int)
  {
    if |s| >= 2 && (s[0] == '-' || s[0] == '+') && AllDigits(s[1..]) then
      Some(if s[0] == '-' then -(DigitsValue(s[1..]) as int) else DigitsValue(s[1..]) as int)
    else if |s| >= 1 && AllDigits(s) then
      Some(DigitsValue(s) as int)
    else
      None
  }

  lemma {:induction false} DigitsValueOfNatToString(n: nat)
    ensures DigitsValue(NatToString(n)) == n
    decreases n
  {
    if n >= 10 {
      DigitsValueOfNatToString(n / 10);
      var s := NatToString(n);
      assert s[..|s| - 1] == NatToString(n / 10);
    }
  }

  /** Reading back what `str()` wrote gives the same integer. */
  lemma ParseIntOfIntToString(i: int)
    ensures ParseInt(IntToString(i)) == Some(i)
  {
    var s := IntToString(i);
    if i < 0 {
      var digits := NatToString(-i);
      assert s == "-" + digits;
      assert s[1..] == digits;
      DigitsValueOfNatToString(-i);
      assert ParseInt(s) == Some(-(DigitsValue(digits) as int));
    } else {
      assert IsDigit(s[0]);
      DigitsValueOfNatToString(i);
    }
  }

  /** Rendering is one-to-one. */
  lemma IntToStringInjective(i: int, j: int)
    requires IntToString(i) == IntToString(j)
    ensures i == j
  {
    ParseIntOfIntToString(i);
    ParseIntOfIntToString(j);
  }

  /** The text before and after the last occurrence of `sep`; None when `sep`
      does not occur. */
  function SplitLast(s: string, sep: char): (r: Option<(string, string)>)
    ensures r.None? <==> sep !in s
    ensures r.Some? ==> s == r.value.0 + [sep] + r.value.1 && sep !in r.value.1
  {
    if s == [] then None
    else if s[|s| - 1] == sep then
      assert s == s[..|s| - 1] + [sep];
      Some((s[..|s| - 1], ""))
    else
      match SplitLast(s[..|s| - 1], sep)
      case None =>
        assert s == s[..|s| - 1] + [s[|s| - 1]];
        None
      case Some(pq) =>
        assert s == s[..|s| - 1] + [s[|s| - 1]];
        Some((pq.0, pq.1 + [s[|s| - 1]]))
  }

  /** Python's `s.split(sep)[-1]`: everything after the last `sep`, or all of `s`. */
  function LastField(s: string, sep: char): (r: string)
    ensures sep !in r
    ensures sep !in s ==> r == s
  {
    match SplitLast(s, sep)
    case None => s
    case Some(pq) => pq.1
  }

  /** Splitting at the last separator undoes joining with it, whenever the
      second part holds no separator. */
  lemma {:induction false} SplitLastOfJoin(p: string, sep: char, t: string)
    requires sep !in t
    ensures SplitLast(p + [sep] + t, sep) == Some((p, t))
    decreases |t|
  {
    var s := p + [sep] + t;
    if t == [] {
      assert s[..|s| - 1] == p;
    } else {
      var t' := t[..|t| - 1];
      assert s[..|s| - 1] == p + [sep] + t';
      SplitLastOfJoin(p, sep, t');
      assert t' + [t[|t| - 1]] == t;
    }
  }

  /** Python's `sep.join(items)`. */
  function Join(items: seq<string>, sep: string): (r: string)
    ensures |items| == 0 ==> r == ""
    ensures |items| == 1 ==> r == items[0]
  {
    if |items| == 0 then ""
    else if |items| == 1 then items[0]
    else items[0] + sep + Join(items[1..], sep)
  }

  /** A text starts with a given prefix. */
  predicate HasPrefix(s: string, prefix: string) {
    |prefix| <= |s| && s[..|prefix|] == prefix
  }
}
