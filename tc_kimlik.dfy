/** The Turkish national ID (T.C. Kimlik) input rule that the login and
    sign-up screens both apply (src/screens/LoginScreen.js:18-23,
    src/screens/SignUpScreen.js:37-41), and the length indicator shown
    beside the field. */
module TcKimlik {
  import opened Wrappers
  import opened Text

  const MaxLength := 11

  /** What the field can hold: at most 11 digits. */
  predicate WellFormed(tc: string) {
    AllDigits(tc) && |tc| <= MaxLength
  }

  /** The value an edit stores: the digits of the typed text, or None (the
      field keeps its value) when they would exceed 11. */
  function Accepted(text: string): (r: Option<string>)
    ensures r.Some? <==> |KeepDigits(text)| <= MaxLength
    ensures r.Some? ==> r.value == KeepDigits(text) && WellFormed(r.value)
  {
    var digits := KeepDigits(text);
    if |digits| <= MaxLength then Some(digits) else None
  }

  /** The field's value after typing text into it. */
  function AfterInput(previous: string, text: string): (r: string)
    ensures r == previous || r == KeepDigits(text)
    ensures WellFormed(previous) ==> WellFormed(r)
  {
    match Accepted(text)
    case Some(digits) => digits
    case None => previous
  }

  /** Typing a well-formed value gives that value; on a well-formed field,
      applying the same edit twice is applying it once. */
  lemma AfterInputStable(previous: string, text: string)
    ensures WellFormed(text) ==> AfterInput(previous, text) == text
    ensures WellFormed(previous) ==> AfterInput(previous, AfterInput(previous, text)) == AfterInput(previous, text)
  {
    var r := AfterInput(previous, text);
    if WellFormed(text) {
      assert KeepDigits(text) == text;
    }
    if WellFormed(previous) {
      assert WellFormed(r);
      assert KeepDigits(r) == r;
      assert Accepted(r) == Some(r);
    }
  }

  /** What is drawn beside a non-empty field: a check mark at 11 characters,
      otherwise the counter `n/11`. */
  datatype Indicator = Hidden | CheckMark | Counter(caption: string)

  function IndicatorFor(tc: string): (i: Indicator)
    ensures i.Hidden? <==> tc == ""
    ensures i.CheckMark? <==> |tc| == MaxLength
    ensures i.Counter? ==>
      (&& |i.caption| > 3 && i.caption[|i.caption| - 3..] == "/11"
       && AllDigits(i.caption[..|i.caption| - 3]) && ParseDigits(i.caption[..|i.caption| - 3]) == |tc|)
  {
    if tc == "" then Hidden
    else if |tc| == MaxLength then CheckMark
    else
      var count := NatToString(|tc|);
      ParseNatToString(|tc|);
      assert (count + "/11")[..|count|] == count;
      Counter(count + "/11")
  }
}
