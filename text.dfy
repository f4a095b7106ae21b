/** String helpers the screens and services rely on: the character filters
    written as `s.replace(/[^…]/g, '')`, decimal printing of numbers
    (`${n}`, `n.toString()`), and the two-character zero padding
    `('0' + n).slice(-2)`. */
module Text {
  import opened Wrappers

  predicate IsDigit(c: char) {
    '0' <= c <= '9'
  }

  predicate IsDigitOrDot(c: char) {
    IsDigit(c) || c == '.'
  }

  predicate AllDigits(s: string) {
    forall i :: 0 <= i < |s| ==> IsDigit(s[i])
  }

  /** `s.replace(/[^…]/g, '')`: the characters of s that keep accepts, in their order. */
  function KeepWhere(s: string, keep: char -> bool): (r: string)
    ensures |r| <= |s|
    ensures forall i :: 0 <= i < |r| ==> keep(r[i])
  {
    if s == [] then []
    else (if keep(s[0]) then [s[0]] else []) + KeepWhere(s[1..], keep)
  }

  /** A character survives exactly when it occurs and is accepted. */
  lemma {:induction false} KeepWhereMembers(s: string, keep: char -> bool)
    ensures forall c :: c in KeepWhere(s, keep) <==> c in s && keep(c)
  {
    if s != [] {
      KeepWhereMembers(s[1..], keep);
      assert s == [s[0]] + s[1..];
    }
  }

  /** Text whose every character is accepted comes through whole. */
  lemma {:induction false} KeepWhereAll(s: string, keep: char -> bool)
    ensures (forall i :: 0 <= i < |s| ==> keep(s[i])) ==> KeepWhere(s, keep) == s
  {
    if s != [] && forall i :: 0 <= i < |s| ==> keep(s[i]) {
      KeepWhereAll(s[1..], keep);
      assert s == [s[0]] + s[1..];
    }
  }

  /** Text with no accepted character filters to nothing. */
  lemma {:induction false} KeepWhereNone(s: string, keep: char -> bool)
    ensures (forall i :: 0 <= i < |s| ==> !keep(s[i])) ==> KeepWhere(s, keep) == []
  {
    if s != [] && forall i :: 0 <= i < |s| ==> !keep(s[i]) {
      KeepWhereNone(s[1..], keep);
    }
  }

  /** Filtering distributes over concatenation. */
  lemma {:induction false} KeepWhereConcat(a: string, b: string, keep: char -> bool)
    ensures KeepWhere(a + b, keep) == KeepWhere(a, keep) + KeepWhere(b, keep)
  {
    if a == [] {
      assert a + b == b;
    } else {
      assert (a + b)[1..] == a[1..] + b;
      KeepWhereConcat(a[1..], b, keep);
    }
  }

  /** Filtering twice is filtering once. */
  lemma KeepWhereIdempotent(s: string, keep: char -> bool)
    ensures KeepWhere(KeepWhere(s, keep), keep) == KeepWhere(s, keep)
  {
    KeepWhereAll(KeepWhere(s, keep), keep);
  }

  /** `s.replace(/[^0-9]/g, '')`, equally `s.replace(/[^\d]/g, '')` (`\d` is ASCII without the u flag). */
  function KeepDigits(s: string): (r: string)
    ensures AllDigits(r) && |r| <= |s|
    ensures AllDigits(s) ==> r == s
  {
    KeepWhereAll(s, IsDigit);
    KeepWhere(s, IsDigit)
  }

  function DigitChar(d: nat): (c: char)
    requires d < 10
    ensures IsDigit(c)
  {
    ('0' as int + d) as char
  }

  function DigitValue(c: char): (d: nat)
    requires IsDigit(c)
    ensures d < 10 && DigitChar(d) == c
  {
    c as int - '0' as int
  }

  /** The decimal text JavaScript prints for a non-negative integer: no leading zeros. */
  function NatToString(n: nat): (s: string)
    ensures |s| >= 1 && AllDigits(s)
    ensures |s| > 1 ==> s[0] != '0'
    ensures n < 10 <==> |s| == 1
    decreases n
  {
    if n < 10 then [DigitChar(n)] else NatToString(n / 10) + [DigitChar(n % 10)]
  }

  /** The value of a string of decimal digits (`parseInt(s, 10)` on digits-only text). */
  function ParseDigits(s: string): nat
    requires AllDigits(s)
  {
    if s == [] then 0 else ParseDigits(s[..|s| - 1]) * 10 + DigitValue(s[|s| - 1])
  }

  /** Printing then parsing a natural number gives it back. */
  lemma {:induction false} ParseNatToString(n: nat)
    ensures ParseDigits(NatToString(n)) == n
    decreases n
  {
    var s := NatToString(n);
    if n >= 10 {
      ParseNatToString(n / 10);
      assert s[..|s| - 1] == NatToString(n / 10);
    }
  }

  /** `${i}` for an integer: a leading '-' for negative values. */
  function IntToString(i: int): (s: string)
    ensures |s| >= 1
    ensures i >= 0 ==> AllDigits(s)
  {
    if i < 0 then "-" + NatToString(-i) else NatToString(i)
  }

  /** Reads an optionally signed decimal integer; None for anything else (including ""). */
  function ParseInt(s: string): (r: Option<int>)
    ensures r.Some? && r.value < 0 ==> s != "" && s[0] == '-'
    ensures AllDigits(s) && s != "" ==> r == Some(ParseDigits(s))
  {
    if s != "" && AllDigits(s) then Some(ParseDigits(s))
    else if |s| > 1 && s[0] == '-' && AllDigits(s[1..]) then Some(-(ParseDigits(s[1..]) as int))
    else None
  }

  /** Printing then parsing an integer gives it back, so integer printing is injective. */
  lemma ParseIntToString(i: int)
    ensures ParseInt(IntToString(i)) == Some(i)
  {
    if i < 0 {
      ParseNegative(i);
    } else {
      ParseNatToString(i);
    }
  }

  /** A negative integer's text reads back as that integer. */
  lemma ParseNegative(i: int)
    requires i < 0
    ensures ParseInt(IntToString(i)) == Some(i)
  {
    var n: nat := -i;
    var t := NatToString(n);
    ParseNatToString(n);
    ParseSigned(t);
    assert IntToString(i) == "-" + t;
  }

  /** A minus sign before digits reads as the negated value. */
  lemma ParseSigned(t: string)
    requires AllDigits(t) && t != ""
    ensures ParseInt("-" + t) == Some(-(ParseDigits(t) as int))
  {
    var s := "-" + t;
    assert s[1..] == t;
    assert !AllDigits(s) by { assert !IsDigit(s[0]); }
  }

  lemma IntToStringInjective(i: int, j: int)
    requires IntToString(i) == IntToString(j)
    ensures i == j
  {
    ParseIntToString(i);
    ParseIntToString(j);
  }

  /** `s.slice(-k)`: the last k characters, or all of s when it is shorter.
      `slice(-0)` is `slice(0)`, the whole string. */
  function SliceLast(s: string, k: nat): (r: string)
    ensures |r| == if k == 0 || |s| <= k then |s| else k
    ensures r == s[|s| - |r|..]
  {
    if k == 0 || |s| <= k then s else s[|s| - k..]
  }

  /** `('0' + n).slice(-2)` */
  function Pad2(n: nat): string {
    SliceLast("0" + NatToString(n), 2)
  }

  /** For 1..99 the padding gives exactly two digits, which read back as n. */
  lemma Pad2Exact(n: nat)
    requires n < 100
    ensures |Pad2(n)| == 2 && AllDigits(Pad2(n)) && ParseDigits(Pad2(n)) == n
  {
    var t := NatToString(n);
    ParseNatToString(n);
    if n < 10 {
      assert Pad2(n) == "0" + t;
      assert ParseDigits(Pad2(n)[..1]) == 0;
    } else {
      assert n / 10 < 10;
      assert |NatToString(n / 10)| == 1;
      assert |t| == 2;
      assert Pad2(n) == t;
    }
  }

  /** The longest prefix of s made of decimal digits. */
  function DigitRun(s: string): (p: string)
    ensures |p| <= |s| && p == s[..|p|] && AllDigits(p)
    ensures |p| < |s| ==> !IsDigit(s[|p|])
  {
    if s != [] && IsDigit(s[0]) then [s[0]] + DigitRun(s[1..]) else []
  }

  /** Text made of digits is one whole run. */
  lemma {:induction false} DigitRunAll(s: string)
    requires AllDigits(s)
    ensures DigitRun(s) == s
  {
    if s != [] {
      DigitRunAll(s[1..]);
    }
  }

  function Pow10(n: nat): (r: nat)
    ensures r > 0
  {
    if n == 0 then 1 else 10 * Pow10(n - 1)
  }

  /** The decimal number at the head of s: whole digits, then optionally a dot
      and fraction digits; None when s starts with neither. */
  function LeadingDecimal(s: string): Option<real> {
    var whole := DigitRun(s);
    var rest := s[|whole|..];
    var fraction := if rest != [] && rest[0] == '.' then DigitRun(rest[1..]) else "";
    if whole == "" && fraction == "" then None
    else Some(ParseDigits(whole) as real + (ParseDigits(fraction) as real) / (Pow10(|fraction|) as real))
  }

  /** A JavaScript number as `parseFloat` yields it: a value, or NaN. */
  datatype JsNumber = Finite(value: real) | NaN

  /** `parseFloat(s)`: an optional sign, then the longest decimal prefix; NaN
      when there is none. Values are exact reals, not rounded doubles. */
  function ParseFloat(s: string): (r: JsNumber)
    ensures s == "" ==> r == NaN
  {
    var signed := s != [] && (s[0] == '-' || s[0] == '+');
    var body := if signed then s[1..] else s;
    match LeadingDecimal(body)
    case None => NaN
    case Some(v) => Finite(if s != [] && s[0] == '-' then -v else v)
  }

  /** Digits alone read as their value. */
  lemma ParseFloatDigits(d: string)
    requires AllDigits(d) && d != ""
    ensures ParseFloat(d) == Finite(ParseDigits(d) as real)
  {
    DigitRunAll(d);
    assert d[|d|..] == [];
    assert !(d[0] == '-' || d[0] == '+') by { assert IsDigit(d[0]); }
  }

  /** A printed integer reads back as that integer. */
  lemma ParseFloatInt(i: int)
    ensures ParseFloat(IntToString(i)) == Finite(i as real)
  {
    if i < 0 {
      var n: nat := -i;
      var t := NatToString(n);
      ParseNatToString(n);
      ParseFloatDigits(t);
      var s := IntToString(i);
      assert s == "-" + t && s[1..] == t;
      assert !(t[0] == '-' || t[0] == '+') by { assert IsDigit(t[0]); }
      assert LeadingDecimal(t) == Some(n as real);
    } else {
      ParseNatToString(i);
      ParseFloatDigits(NatToString(i));
    }
  }

  /** A lone dot holds no number. */
  lemma ParseFloatLoneDot()
    ensures ParseFloat(".") == NaN
  {
    assert DigitRun(".") == "";
    assert DigitRun(""[..]) == "";
    assert "."[1..] == "";
  }

  /** A zero fraction adds nothing: `70` and `70.0` are one number. */
  lemma ParseFloatZeroFraction()
    ensures ParseFloat("70") == ParseFloat("70.0") == Finite(70.0)
  {
    ParseFloatDigits("70");
    assert ParseDigits("70") == 70 by { assert "70"[..1] == "7"; }
    var s := "70.0";
    assert DigitRun(s) == "70" by {
      assert DigitRun(s[2..]) == "" by { assert s[2..][0] == '.'; }
      assert DigitRun(s[1..]) == "0" + DigitRun(s[2..]) by { assert s[1..][1..] == s[2..]; }
      assert DigitRun(s) == "7" + DigitRun(s[1..]);
    }
    assert s[2..] == ".0" && s[2..][1..] == "0";
    assert DigitRun("0") == "0" by { DigitRunAll("0"); }
    assert ParseDigits("0") == 0;
    assert LeadingDecimal(s) == Some(70.0);
  }
}
