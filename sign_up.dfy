/** The sign-up form (src/screens/SignUpScreen.js): the phone mask
    `(ddd) ddd - dddd`, the national-ID rule shared with the login screen,
    and `handleInputChange`, which rewrites one entry of the `formData`
    record at a time. */
module SignUp {
  import opened Common
  import opened Text
  import TcKimlik

  const PhoneMaxDigits := 10

  /** The mask the phone field is typed into; `d` marks a digit slot. */
  const PhoneMask := "(ddd) ddd - dddd"

  predicate DigitSlot(i: int) {
    1 <= i <= 3 || 6 <= i <= 8 || 12 <= i <= 15
  }

  /** s is a prefix of the mask with a digit in every digit slot. */
  predicate FitsMask(s: string) {
    && |s| <= |PhoneMask|
    && forall i :: 0 <= i < |s| ==> if DigitSlot(i) then IsDigit(s[i]) else s[i] == PhoneMask[i]
  }

  /** `formatPhoneNumber(text)` */
  function FormatPhoneNumber(text: string): (r: string)
    ensures var d := KeepDigits(text);
      && (|d| <= PhoneMaxDigits ==> FitsMask(r) && |r| > 0 && r[0] == '(')
      && (|d| > PhoneMaxDigits ==> r == d)
      && (d != "" ==> IsDigit(r[|r| - 1]))
  {
    var d := KeepDigits(text);
    var r :=
      if |d| <= 3 then "(" + d
      else if |d| <= 6 then "(" + d[..3] + ") " + d[3..]
      else if |d| <= 10 then "(" + d[..3] + ") " + d[3..6] + " - " + d[6..]
      else d;
    MaskedFitsMask(d, r);
    r
  }

  /** The three masked forms are prefixes of the mask. */
  lemma MaskedFitsMask(d: string, r: string)
    requires AllDigits(d)
    requires || (|d| <= 3 && r == "(" + d)
             || (3 < |d| <= 6 && r == "(" + d[..3] + ") " + d[3..])
             || (6 < |d| <= 10 && r == "(" + d[..3] + ") " + d[3..6] + " - " + d[6..])
             || (|d| > 10 && r == d)
    ensures |d| <= 10 ==> FitsMask(r) && r[0] == '('
  {
    if |d| <= 10 {
      forall i | 0 <= i < |r|
        ensures if DigitSlot(i) then IsDigit(r[i]) else r[i] == PhoneMask[i]
      {
        if i == 0 {
        } else if i <= 3 {
          assert r[i] == d[i - 1];
        } else if i == 4 || i == 5 {
        } else if i <= 8 {
          assert r[i] == d[i - 3];
        } else if i <= 11 {
        } else {
          assert r[i] == d[i - 6];
        }
      }
    }
  }

  /** The mask adds no digit and loses none: stripping the non-digits of the
      result gives back the digits of the input. */
  lemma PhoneDigitsPreserved(text: string)
    ensures KeepDigits(FormatPhoneNumber(text)) == KeepDigits(text)
  {
    var d := KeepDigits(text);
    var r := FormatPhoneNumber(text);
    if |d| <= 3 {
      assert r == "(" + d;
      LiteralAddsNoDigits("(", d);
    } else if |d| <= 6 {
      var a, b := d[..3], d[3..];
      assert r == "(" + a + ") " + b;
      assert AllDigits(a) && AllDigits(b);
      ShortMaskDigits(a, b);
      assert a + b == d;
    } else if |d| <= 10 {
      var a, b, c := d[..3], d[3..6], d[6..];
      assert r == "(" + a + ") " + b + " - " + c;
      assert AllDigits(a) && AllDigits(b) && AllDigits(c);
      LongMaskDigits(a, b, c);
      assert a + b + c == d;
    }
  }

  lemma ShortMaskDigits(a: string, b: string)
    requires AllDigits(a)
    ensures KeepDigits("(" + a + ") " + b) == a + KeepDigits(b)
  {
    assert "(" + a + ") " + b == "(" + (a + (") " + b));
    MaskPiecesDigitFree();
    LiteralAddsNoDigits(") ", b);
    KeepWhereAll(a, IsDigit);
    KeepWhereConcat(a, ") " + b, IsDigit);
    LiteralAddsNoDigits("(", a + (") " + b));
  }

  lemma LongMaskDigits(a: string, b: string, c: string)
    requires AllDigits(a) && AllDigits(b) && AllDigits(c)
    ensures KeepDigits("(" + a + ") " + b + " - " + c) == a + b + c
  {
    var middle := b + (" - " + c);
    assert "(" + a + ") " + b + " - " + c == "(" + a + ") " + middle by {
      assert "(" + a + ") " + b + " - " + c == ("(" + a + ") ") + (b + (" - " + c));
    }
    MaskTailDigits(b, c);
    ShortMaskDigits(a, middle);
    assert KeepDigits(middle) == b + c;
    assert a + (b + c) == a + b + c;
  }

  lemma MaskTailDigits(b: string, c: string)
    requires AllDigits(b) && AllDigits(c)
    ensures KeepDigits(b + (" - " + c)) == b + c
  {
    MaskPiecesDigitFree();
    LiteralAddsNoDigits(" - ", c);
    KeepWhereAll(b, IsDigit);
    KeepWhereAll(c, IsDigit);
    KeepWhereConcat(b, " - " + c, IsDigit);
  }

  /** Stripping ignores a prefix without digits. */
  lemma LiteralAddsNoDigits(literal: string, s: string)
    requires KeepDigits(literal) == ""
    ensures KeepDigits(literal + s) == KeepDigits(s)
  {
    KeepWhereConcat(literal, s, IsDigit);
  }

  /** The mask's literal pieces hold no digits. */
  lemma MaskPiecesDigitFree()
    ensures KeepDigits("(") == "" && KeepDigits(") ") == "" && KeepDigits(" - ") == ""
  {
    var open, close, dash := "(", ") ", " - ";
    assert forall i :: 0 <= i < |open| ==> !IsDigit(open[i]);
    assert forall i :: 0 <= i < |close| ==> !IsDigit(close[i]);
    assert forall i :: 0 <= i < |dash| ==> !IsDigit(dash[i]);
    KeepWhereNone(open, IsDigit);
    KeepWhereNone(close, IsDigit);
    KeepWhereNone(dash, IsDigit);
  }

  /** The mask looks only at the digits of its input. */
  lemma FormatOnlyReadsDigits(a: string, b: string)
    requires KeepDigits(a) == KeepDigits(b)
    ensures FormatPhoneNumber(a) == FormatPhoneNumber(b)
  {
  }

  /** An empty or digit-free input formats to the bare opening parenthesis. */
  lemma FormatPhoneEmpty(text: string)
    requires KeepDigits(text) == ""
    ensures FormatPhoneNumber(text) == "("
  {
  }

  /** Formatting an already formatted number changes nothing. */
  lemma FormatPhoneIdempotent(text: string)
    ensures FormatPhoneNumber(FormatPhoneNumber(text)) == FormatPhoneNumber(text)
  {
    PhoneDigitsPreserved(text);
    FormatOnlyReadsDigits(FormatPhoneNumber(text), text);
  }

  /** A complete phone entry: a mask prefix that stops right after its last
      digit, or the bare opening parenthesis when it holds none. */
  predicate MaskedEntry(s: string) {
    && FitsMask(s) && |s| > 0
    && (KeepDigits(s) == "" ==> s == "(")
    && (KeepDigits(s) != "" ==> IsDigit(s[|s| - 1]))
  }

  /** Up to ten digits always format to a complete entry. */
  lemma FormatPhoneMasked(text: string)
    requires |KeepDigits(text)| <= PhoneMaxDigits
    ensures MaskedEntry(FormatPhoneNumber(text))
  {
    PhoneDigitsPreserved(text);
  }

  /** The mask is the only layout of a digit string: every complete entry is
      `formatPhoneNumber` of the digits it holds, and it holds at most ten. */
  lemma MaskedFormUnique(s: string)
    requires MaskedEntry(s)
    ensures |KeepDigits(s)| <= PhoneMaxDigits && s == FormatPhoneNumber(KeepDigits(s))
  {
    var d := KeepDigits(s);
    MaskDigitCount(s);
    DigitsBeforeMonotone(|s|, |PhoneMask|);
    DigitsInMask();
    var r := FormatPhoneNumber(d);
    PhoneDigitsPreserved(d);
    MaskDigitsDetermine(s, r);
  }

  /** The mask has ten digit slots. */
  lemma DigitsInMask()
    ensures DigitsBefore(|PhoneMask|) == PhoneMaxDigits
  {
    assert DigitsBefore(4) == 3;
    assert DigitsBefore(8) == 5;
    assert DigitsBefore(12) == 6;
    assert DigitsBefore(16) == 10;
  }

  /** The digits a mask prefix holds, counted up to position k. */
  function DigitsBefore(k: nat): nat {
    if k == 0 then 0 else DigitsBefore(k - 1) + (if DigitSlot(k - 1) then 1 else 0)
  }

  /** Two mask prefixes that end on a digit (or are the bare parenthesis)
      and hold the same digits are equal. */
  lemma MaskDigitsDetermine(s: string, t: string)
    requires FitsMask(s) && FitsMask(t)
    requires KeepDigits(s) == KeepDigits(t)
    requires |s| > 0 && |t| > 0 && s[0] == '(' && t[0] == '('
    requires KeepDigits(s) != "" ==> IsDigit(s[|s| - 1]) && IsDigit(t[|t| - 1])
    requires KeepDigits(s) == "" ==> s == "(" && t == "("
    ensures s == t
  {
    if KeepDigits(s) != "" {
      MaskDigitCount(s);
      MaskDigitCount(t);
      MaskLiterals();
      assert DigitSlot(|s| - 1) && DigitSlot(|t| - 1);
      EndingOnDigitLength(|s|, |t|);
      assert |s| == |t|;
      forall i | 0 <= i < |s|
        ensures s[i] == t[i]
      {
        if DigitSlot(i) {
          MaskDigitAt(s, i);
          MaskDigitAt(t, i);
        }
      }
    }
  }

  /** In a mask prefix, the digits are exactly the characters in digit slots. */
  lemma {:induction false} MaskDigitCount(s: string)
    requires FitsMask(s)
    ensures |KeepDigits(s)| == DigitsBefore(|s|)
    decreases |s|
  {
    if s != [] {
      var p, c := s[..|s| - 1], s[|s| - 1];
      assert s == p + [c];
      assert FitsMask(p);
      MaskDigitCount(p);
      KeepWhereConcat(p, [c], IsDigit);
      SlotHoldsDigit(s, |s| - 1);
      assert KeepWhere([c], IsDigit) == if IsDigit(c) then [c] else [];
    }
  }

  /** In a mask prefix, a slot holds a digit exactly when it is a digit slot. */
  lemma SlotHoldsDigit(s: string, k: nat)
    requires FitsMask(s) && k < |s|
    ensures IsDigit(s[k]) <==> DigitSlot(k)
  {
    MaskLiterals();
  }

  /** The characters in the mask's literal slots are not digits. */
  lemma MaskLiterals()
    ensures forall i :: 0 <= i < |PhoneMask| && !DigitSlot(i) ==> !IsDigit(PhoneMask[i])
  {
    forall i | 0 <= i < |PhoneMask| && !DigitSlot(i)
      ensures !IsDigit(PhoneMask[i])
    {
      assert i == 0 || i == 4 || i == 5 || 9 <= i <= 11;
    }
  }

  /** The digit at slot i of a mask prefix is digit number DigitsBefore(i). */
  lemma MaskDigitAt(s: string, i: nat)
    requires FitsMask(s) && i < |s| && DigitSlot(i)
    ensures DigitsBefore(i) < |KeepDigits(s)| && KeepDigits(s)[DigitsBefore(i)] == s[i]
  {
    var p, c, q := s[..i], [s[i]], s[i + 1..];
    assert s == p + (c + q);
    assert FitsMask(p);
    MaskDigitCount(p);
    assert KeepDigits(c) == c;
    KeepWhereConcat(c, q, IsDigit);
    KeepWhereConcat(p, c + q, IsDigit);
    assert KeepDigits(s) == KeepDigits(p) + (c + KeepDigits(q));
  }

  /** Below the mask's length, the number of digits fixes where the last one sits. */
  lemma EndingOnDigitLength(m: nat, n: nat)
    requires 0 < m <= |PhoneMask| && 0 < n <= |PhoneMask|
    requires DigitSlot(m - 1) && DigitSlot(n - 1)
    requires DigitsBefore(m) == DigitsBefore(n)
    ensures m == n
  {
    if m < n {
      DigitsBeforeStrict(m, n);
    } else if n < m {
      DigitsBeforeStrict(n, m);
    }
  }

  lemma {:induction false} DigitsBeforeStrict(m: nat, n: nat)
    requires m < n && DigitSlot(n - 1)
    ensures DigitsBefore(m) < DigitsBefore(n)
    decreases n - m
  {
    DigitsBeforeMonotone(m, n - 1);
  }

  lemma {:induction false} DigitsBeforeMonotone(m: nat, n: nat)
    requires m <= n
    ensures DigitsBefore(m) <= DigitsBefore(n)
    decreases n - m
  {
    if m < n {
      DigitsBeforeMonotone(m, n - 1);
    }
  }

  /** The phone entry the form can hold: empty (as initialised), or complete. */
  predicate PhoneShaped(s: string) {
    s == "" || MaskedEntry(s)
  }

  /** What every reachable `formData` satisfies: the national ID is at most
      11 digits and the phone entry fits the mask. */
  predicate FormInvariant(form: map<string, Json>) {
    && "tcKimlik" in form && form["tcKimlik"].JStr? && TcKimlik.WellFormed(form["tcKimlik"].s)
    && "phone" in form && form["phone"].JStr? && PhoneShaped(form["phone"].s)
  }

  /** `formData.agreeToTerms`, read as the checkbox and the button read it. */
  predicate AgreedToTerms(form: map<string, Json>) {
    "agreeToTerms" in form && Truthy(form["agreeToTerms"])
  }

  /** `disabled={!formData.agreeToTerms}`, negated. The button has no press handler. */
  predicate SignUpEnabled(form: map<string, Json>) {
    AgreedToTerms(form)
  }

  const FormFields := {"name", "tcKimlik", "email", "phone", "password", "agreeToTerms"}

  /** The initial `formData`: empty texts and the terms not yet accepted. */
  function InitialForm(): (form: map<string, Json>)
    ensures form.Keys == FormFields
    ensures FormInvariant(form) && !SignUpEnabled(form)
    ensures forall k :: k in form && k != "agreeToTerms" ==> form[k] == JStr("")
  {
    map["name" := JStr(""), "tcKimlik" := JStr(""), "email" := JStr(""),
        "phone" := JStr(""), "password" := JStr(""), "agreeToTerms" := JBool(false)]
  }

  /** `handleInputChange(field, value)` as a function of the previous `formData`.
      The two filtered fields are only ever given text (`value.replace` would
      throw on anything else). */
  function InputChanged(form: map<string, Json>, field: string, value: Json): (r: map<string, Json>)
    requires (field == "tcKimlik" || field == "phone") ==> value.JStr?
    ensures r - {field} == form - {field}
    ensures field == "tcKimlik" ==>
      (var digits := KeepDigits(value.s);
       && (|digits| <= TcKimlik.MaxLength ==> field in r && r[field] == JStr(digits))
       && (|digits| > TcKimlik.MaxLength ==> r == form))
    ensures field == "phone" ==>
      (var digits := KeepDigits(value.s);
       && (|digits| <= PhoneMaxDigits ==>
             && field in r && r[field] == JStr(FormatPhoneNumber(value.s))
             && PhoneShaped(r[field].s) && KeepDigits(r[field].s) == digits)
       && (|digits| > PhoneMaxDigits ==> r == form))
    ensures field != "tcKimlik" && field != "phone" ==> field in r && r[field] == value
    ensures FormInvariant(form) ==> FormInvariant(r)
  {
    if field == "tcKimlik" then
      match TcKimlik.Accepted(value.s)
      case Some(digits) => form[field := JStr(digits)]
      case None => form
    else if field == "phone" then PhoneChanged(form, value.s)
    else form[field := value]
  }

  /** The phone branch of `handleInputChange`: up to ten digits are stored
      masked, more leave the form as it is. */
  function PhoneChanged(form: map<string, Json>, text: string): (r: map<string, Json>)
    ensures r - {"phone"} == form - {"phone"}
    ensures var digits := KeepDigits(text);
      && (|digits| <= PhoneMaxDigits ==>
            && "phone" in r && r["phone"] == JStr(FormatPhoneNumber(text))
            && PhoneShaped(r["phone"].s) && KeepDigits(r["phone"].s) == digits)
      && (|digits| > PhoneMaxDigits ==> r == form)
  {
    if |KeepDigits(text)| <= PhoneMaxDigits then
      var shown := FormatPhoneNumber(KeepDigits(text));
      PhoneEntryShown(text, shown);
      form["phone" := JStr(shown)]
    else form
  }

  /** The entry stored for text with up to ten digits: the mask of those digits. */
  lemma PhoneEntryShown(text: string, shown: string)
    requires |KeepDigits(text)| <= PhoneMaxDigits
    requires shown == FormatPhoneNumber(KeepDigits(text))
    ensures shown == FormatPhoneNumber(text)
    ensures PhoneShaped(shown) && KeepDigits(shown) == KeepDigits(text)
  {
    var digits := KeepDigits(text);
    FormatPhoneMasked(digits);
    PhoneDigitsPreserved(digits);
    FormatOnlyReadsDigits(text, digits);
  }

  /** Retyping the phone entry that is shown leaves the form as it is,
      once the entry is no longer the initial empty text. */
  lemma PhoneRetypeStable(form: map<string, Json>)
    requires FormInvariant(form) && form["phone"] != JStr("")
    ensures InputChanged(form, "phone", form["phone"]) == form
  {
    var shown := form["phone"].s;
    MaskedFormUnique(shown);
    PhoneDigitsPreserved(shown);
    assert FormatPhoneNumber(KeepDigits(shown)) == shown;
  }

  /** The checkbox's press: `handleInputChange('agreeToTerms', !formData.agreeToTerms)`. */
  function TermsPressed(form: map<string, Json>): (r: map<string, Json>)
    ensures SignUpEnabled(r) <==> !SignUpEnabled(form)
    ensures FormInvariant(form) ==> FormInvariant(r)
    ensures r - {"agreeToTerms"} == form - {"agreeToTerms"}
  {
    InputChanged(form, "agreeToTerms", JBool(!AgreedToTerms(form)))
  }

  /** Pressing the checkbox twice restores a boolean `agreeToTerms`. */
  lemma TermsPressedTwice(form: map<string, Json>)
    requires "agreeToTerms" in form && form["agreeToTerms"].JBool?
    ensures TermsPressed(TermsPressed(form)) == form
  {
    var once := TermsPressed(form);
    assert once == form["agreeToTerms" := JBool(!form["agreeToTerms"].b)];
    assert TermsPressed(once) == once["agreeToTerms" := JBool(form["agreeToTerms"].b)];
  }

  /** The screen's state: `formData`, the password's visibility and the terms modal. */
  class SignUpScreen {
    var formData: map<string, Json>
    var showPassword: bool
    var showTerms: bool

    predicate Valid()
      reads this
    {
      FormInvariant(formData)
    }

    constructor ()
      ensures Valid()
      ensures formData == InitialForm() && !showPassword && !showTerms
    {
      formData := InitialForm();
      showPassword, showTerms := false, false;
    }

    /** `handleInputChange(field, value)` */
    method HandleInputChange(field: string, value: Json)
      requires Valid()
      requires (field == "tcKimlik" || field == "phone") ==> value.JStr?
      modifies this
      ensures Valid()
      ensures formData == InputChanged(old(formData), field, value)
      ensures showPassword == old(showPassword) && showTerms == old(showTerms)
    {
      ghost var expected := InputChanged(formData, field, value);
      if field == "tcKimlik" {
        var numericValue := KeepDigits(value.s);
        if |numericValue| <= TcKimlik.MaxLength {
          formData := formData[field := JStr(numericValue)];
        }
      } else if field == "phone" {
        var numericValue := KeepDigits(value.s);
        if |numericValue| <= PhoneMaxDigits {
          formData := formData[field := JStr(FormatPhoneNumber(numericValue))];
        }
      } else {
        formData := formData[field := value];
      }
      assert formData == expected;
    }

    /** The terms checkbox. */
    method PressTermsCheckbox()
      requires Valid()
      modifies this
      ensures Valid()
      ensures formData == TermsPressed(old(formData))
      ensures showPassword == old(showPassword) && showTerms == old(showTerms)
    {
      HandleInputChange("agreeToTerms", JBool(!AgreedToTerms(formData)));
    }

    /** The eye icon: `setShowPassword(!showPassword)`. */
    method TogglePasswordVisibility()
      modifies this
      ensures showPassword == !old(showPassword)
      ensures formData == old(formData) && showTerms == old(showTerms)
    {
      showPassword := !showPassword;
    }

    /** The terms link opens the modal; its close button and the back gesture close it. */
    method SetTermsVisible(visible: bool)
      modifies this
      ensures showTerms == visible
      ensures formData == old(formData) && showPassword == old(showPassword)
    {
      showTerms := visible;
    }
  }
}
