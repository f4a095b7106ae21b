/** The profile editor (src/screens/EditProfileScreen.js): the form seeded
    from the loaded user, its field updates, the date picker, the height and
    weight character filter, and the payload `handleSave` sends. */
module EditProfile {
  import opened Wrappers
  import opened Common
  import opened Text
  import opened Dates

  const SaveFailureMessage := "Profil güncellenemedi."
  const SavedTitle := "Başarılı"
  const SavedText := "Profiliniz güncellendi."
  const FailedTitle := "Hata"

  /** `formatDate(date)`: the empty text for a missing date, `YYYY-MM-DD` otherwise. */
  function FormatDate(date: Option<CivilDate>): (s: string)
    requires date.Some? ==> ValidDate(date.value)
    ensures s == "" <==> date.None?
    ensures date.Some? ==> ParseYmd(s) == date
  {
    match date
    case None => ""
    case Some(d) => ParseFormatYmd(d); FormatYmd(d)
  }

  /** `userData.patientProfile` as the API returns it; every part may be missing.
      Weight and height are whole numbers here. */
  datatype PatientProfile = PatientProfile(
    dateOfBirth: Option<CivilDate>,
    weight: Option<int>,
    height: Option<int>,
    address: Option<string>,
    hasChronicIllness: Option<bool>,
    isMedicationDependent: Option<bool>,
    birthPlaceCity: Option<string>,
    birthPlaceDistrict: Option<string>,
    country: Option<string>)

  /** The `userData` route parameter. */
  datatype UserData = UserData(
    firstName: Option<string>,
    lastName: Option<string>,
    email: Option<string>,
    phoneNumber: Option<string>,
    patientProfile: Option<PatientProfile>)

  predicate ValidUser(u: UserData) {
    u.patientProfile.Some? && u.patientProfile.value.dateOfBirth.Some? ==>
      ValidDate(u.patientProfile.value.dateOfBirth.value)
  }

  /** `x || ''` on an optional text. */
  function OrEmpty(s: Option<string>): (r: string)
    ensures s.None? ==> r == ""
    ensures s.Some? ==> r == s.value
  {
    match s
    case None => ""
    case Some(t) => t
  }

  /** `n?.toString() || ''`: a present number always prints non-empty, `0` included. */
  function NumberText(n: Option<int>): (r: string)
    ensures r == "" <==> n.None?
    ensures n.Some? ==> ParseInt(r) == Some(n.value)
  {
    match n
    case None => ""
    case Some(v) => ParseIntToString(v); IntToString(v)
  }

  /** A value handed to `handleInputChange`: text from an input, a yes/no
      choice (unset when the profile had none), or the birth date. */
  datatype FormValue = Text(s: string) | Choice(c: Option<bool>) | Day(d: CivilDate)

  /** The `formData` keys the screen's inputs name. */
  datatype Field =
    | FirstName | LastName | Email | PhoneNumber | DateOfBirth | Weight | Height
    | Address | HasChronicIllness | IsMedicationDependent
    | BirthPlaceCity | BirthPlaceDistrict | Country

  /** `formData`. */
  datatype ProfileForm = ProfileForm(
    firstName: string,
    lastName: string,
    email: string,
    phoneNumber: string,
    dateOfBirth: CivilDate,
    weight: string,
    height: string,
    address: string,
    hasChronicIllness: Option<bool>,
    isMedicationDependent: Option<bool>,
    birthPlaceCity: string,
    birthPlaceDistrict: string,
    country: string)

  predicate ValidForm(form: ProfileForm) {
    ValidDate(form.dateOfBirth)
  }

  /** `formData[field]` */
  function Get(form: ProfileForm, field: Field): FormValue {
    match field
    case FirstName => Text(form.firstName)
    case LastName => Text(form.lastName)
    case Email => Text(form.email)
    case PhoneNumber => Text(form.phoneNumber)
    case DateOfBirth => Day(form.dateOfBirth)
    case Weight => Text(form.weight)
    case Height => Text(form.height)
    case Address => Text(form.address)
    case HasChronicIllness => Choice(form.hasChronicIllness)
    case IsMedicationDependent => Choice(form.isMedicationDependent)
    case BirthPlaceCity => Text(form.birthPlaceCity)
    case BirthPlaceDistrict => Text(form.birthPlaceDistrict)
    case Country => Text(form.country)
  }

  /** The kind of value the screen's inputs give a field: the two yes/no
      selectors give choices, the picker a date, every text input a text. */
  predicate KindFits(field: Field, value: FormValue) {
    match field
    case HasChronicIllness => value.Choice?
    case IsMedicationDependent => value.Choice?
    case DateOfBirth => value.Day? && ValidDate(value.d)
    case _ => value.Text?
  }

  /** The profile of u, or an empty one when it has none (`patientProfile?.x`). */
  function ProfileOf(u: UserData): PatientProfile {
    match u.patientProfile
    case Some(p) => p
    case None => PatientProfile(None, None, None, None, None, None, None, None, None)
  }

  /** The initial `formData`. A missing birth date starts at today; the two
      choices keep whatever the profile holds, unset included. */
  function InitialForm(u: UserData, today: CivilDate): (form: ProfileForm)
    requires ValidUser(u) && ValidDate(today)
    ensures ValidForm(form)
    ensures form.firstName == OrEmpty(u.firstName) && form.lastName == OrEmpty(u.lastName)
    ensures form.email == OrEmpty(u.email) && form.phoneNumber == OrEmpty(u.phoneNumber)
    ensures var p := ProfileOf(u);
      && form.dateOfBirth == (if p.dateOfBirth.Some? then p.dateOfBirth.value else today)
      && (form.weight == "" <==> p.weight.None?) && (p.weight.Some? ==> ParseInt(form.weight) == p.weight)
      && (form.height == "" <==> p.height.None?) && (p.height.Some? ==> ParseInt(form.height) == p.height)
      && form.address == OrEmpty(p.address) && form.country == OrEmpty(p.country)
      && form.birthPlaceCity == OrEmpty(p.birthPlaceCity)
      && form.birthPlaceDistrict == OrEmpty(p.birthPlaceDistrict)
      && form.hasChronicIllness == p.hasChronicIllness
      && form.isMedicationDependent == p.isMedicationDependent
  {
    var p := ProfileOf(u);
    ProfileForm(
      OrEmpty(u.firstName), OrEmpty(u.lastName), OrEmpty(u.email), OrEmpty(u.phoneNumber),
      if p.dateOfBirth.Some? then p.dateOfBirth.value else today,
      NumberText(p.weight), NumberText(p.height), OrEmpty(p.address),
      p.hasChronicIllness, p.isMedicationDependent,
      OrEmpty(p.birthPlaceCity), OrEmpty(p.birthPlaceDistrict), OrEmpty(p.country))
  }

  /** `handleInputChange(field, value)`: the named field takes the value and
      no other field changes. */
  function InputChanged(form: ProfileForm, field: Field, value: FormValue): (r: ProfileForm)
    requires KindFits(field, value)
    ensures Get(r, field) == value
    ensures forall g :: g != field ==> Get(r, g) == Get(form, g)
    ensures ValidForm(form) ==> ValidForm(r)
  {
    match field
    case FirstName => form.(firstName := value.s)
    case LastName => form.(lastName := value.s)
    case Email => form.(email := value.s)
    case PhoneNumber => form.(phoneNumber := value.s)
    case DateOfBirth => form.(dateOfBirth := value.d)
    case Weight => form.(weight := value.s)
    case Height => form.(height := value.s)
    case Address => form.(address := value.s)
    case HasChronicIllness => form.(hasChronicIllness := value.c)
    case IsMedicationDependent => form.(isMedicationDependent := value.c)
    case BirthPlaceCity => form.(birthPlaceCity := value.s)
    case BirthPlaceDistrict => form.(birthPlaceDistrict := value.s)
    case Country => form.(country := value.s)
  }

  /** The form is determined by what `Get` reads from it. */
  lemma GetDeterminesForm(a: ProfileForm, b: ProfileForm)
    requires forall f :: Get(a, f) == Get(b, f)
    ensures a == b
  {
    assert a.firstName == b.firstName by { assert Get(a, FirstName) == Get(b, FirstName); }
    assert a.lastName == b.lastName by { assert Get(a, LastName) == Get(b, LastName); }
    assert a.email == b.email by { assert Get(a, Email) == Get(b, Email); }
    assert a.phoneNumber == b.phoneNumber by { assert Get(a, PhoneNumber) == Get(b, PhoneNumber); }
    assert a.dateOfBirth == b.dateOfBirth by { assert Get(a, DateOfBirth) == Get(b, DateOfBirth); }
    assert a.weight == b.weight by { assert Get(a, Weight) == Get(b, Weight); }
    assert a.height == b.height by { assert Get(a, Height) == Get(b, Height); }
    assert a.address == b.address by { assert Get(a, Address) == Get(b, Address); }
    assert a.hasChronicIllness == b.hasChronicIllness by { assert Get(a, HasChronicIllness) == Get(b, HasChronicIllness); }
    assert a.isMedicationDependent == b.isMedicationDependent by { assert Get(a, IsMedicationDependent) == Get(b, IsMedicationDependent); }
    assert a.birthPlaceCity == b.birthPlaceCity by { assert Get(a, BirthPlaceCity) == Get(b, BirthPlaceCity); }
    assert a.birthPlaceDistrict == b.birthPlaceDistrict by { assert Get(a, BirthPlaceDistrict) == Get(b, BirthPlaceDistrict); }
    assert a.country == b.country by { assert Get(a, Country) == Get(b, Country); }
  }

  /** Writing back the value a field already holds changes nothing. */
  lemma InputChangedSameValue(form: ProfileForm, field: Field)
    requires KindFits(field, Get(form, field))
    ensures InputChanged(form, field, Get(form, field)) == form
  {
    GetDeterminesForm(InputChanged(form, field, Get(form, field)), form);
  }

  /** `text.replace(/[^0-9.]/g, '')`, applied to the height and weight inputs. */
  function MeasureFilter(text: string): (r: string)
    ensures forall i :: 0 <= i < |r| ==> IsDigitOrDot(r[i])
    ensures forall c :: c in r <==> c in text && IsDigitOrDot(c)
    ensures (forall i :: 0 <= i < |text| ==> IsDigitOrDot(text[i])) ==> r == text
  {
    KeepWhereMembers(text, IsDigitOrDot);
    KeepWhereAll(text, IsDigitOrDot);
    KeepWhere(text, IsDigitOrDot)
  }

  /** The filter removes exactly the characters other than digits and dots,
      keeping the order of the rest. */
  lemma MeasureFilterSplits(a: string, b: string)
    ensures MeasureFilter(a + b) == MeasureFilter(a) + MeasureFilter(b)
    ensures MeasureFilter(MeasureFilter(a)) == MeasureFilter(a)
  {
    KeepWhereConcat(a, b, IsDigitOrDot);
  }

  /** `handleDateChange`'s update of `formData`: a dismissed picker
      (no selected date) leaves the form as it is. */
  function DateChanged(form: ProfileForm, selected: Option<CivilDate>): (r: ProfileForm)
    requires selected.Some? ==> ValidDate(selected.value)
    ensures selected.None? ==> r == form
    ensures selected.Some? ==> r == InputChanged(form, DateOfBirth, Day(selected.value))
  {
    match selected
    case None => form
    case Some(d) => form.(dateOfBirth := d)
  }

  /** The object `handleSave` sends. Weight and height are the numbers
      `parseFloat` reads, or None for `null`. */
  datatype ProfilePayload = ProfilePayload(
    firstName: string,
    lastName: string,
    email: string,
    phoneNumber: string,
    dateOfBirth: string,
    weight: Option<JsNumber>,
    height: Option<JsNumber>,
    address: string,
    hasChronicIllness: Option<bool>,
    isMedicationDependent: Option<bool>,
    birthPlaceCity: string,
    birthPlaceDistrict: string,
    country: string)

  /** `formData.x ? parseFloat(formData.x) : null` */
  function MeasureValue(text: string): (r: Option<JsNumber>)
    ensures r.None? <==> text == ""
    ensures r.Some? ==> r.value == ParseFloat(text)
  {
    if text == "" then None else Some(ParseFloat(text))
  }

  /** Text that passes the measure filter yet holds no digit, such as `.`,
      is sent as NaN, which JSON carries as null. */
  lemma LoneDotSentAsNaN()
    ensures MeasureValue(MeasureFilter(".")) == Some(NaN)
  {
    assert IsDigitOrDot("."[0]);
    assert MeasureFilter(".") == ".";
    ParseFloatLoneDot();
  }

  /** The payload `handleSave` builds: the texts and choices as they are,
      the birth date formatted, and the measures read by `parseFloat`, an
      empty one as null. */
  function BuildPayload(form: ProfileForm): (p: ProfilePayload)
    requires ValidForm(form)
    ensures ParseYmd(p.dateOfBirth) == Some(form.dateOfBirth)
    ensures p.weight.None? <==> form.weight == ""
    ensures p.height.None? <==> form.height == ""
    ensures p.weight.Some? ==> p.weight.value == ParseFloat(form.weight)
    ensures p.height.Some? ==> p.height.value == ParseFloat(form.height)
    ensures FormOfPayload(p, form.weight, form.height) == Some(form)
  {
    ProfilePayload(
      form.firstName, form.lastName, form.email, form.phoneNumber,
      FormatDate(Some(form.dateOfBirth)),
      MeasureValue(form.weight), MeasureValue(form.height),
      form.address, form.hasChronicIllness, form.isMedicationDependent,
      form.birthPlaceCity, form.birthPlaceDistrict, form.country)
  }

  /** Reads a payload back into the form it describes, given the measure
      texts `parseFloat` read (the numbers do not fix their spelling); None
      when its date is not `YYYY-MM-DD` text. */
  function FormOfPayload(p: ProfilePayload, weight: string, height: string): Option<ProfileForm> {
    match ParseYmd(p.dateOfBirth)
    case None => None
    case Some(d) =>
      Some(ProfileForm(
        p.firstName, p.lastName, p.email, p.phoneNumber, d,
        weight, height,
        p.address, p.hasChronicIllness, p.isMedicationDependent,
        p.birthPlaceCity, p.birthPlaceDistrict, p.country))
  }

  /** Two forms that send the same payload agree on every field but the
      spelling of their measures, which are both empty or both read as the
      same number. */
  lemma BuildPayloadInjective(a: ProfileForm, b: ProfileForm)
    requires ValidForm(a) && ValidForm(b) && BuildPayload(a) == BuildPayload(b)
    ensures a.(weight := b.weight, height := b.height) == b
    ensures (a.weight == "" <==> b.weight == "") && (a.height == "" <==> b.height == "")
    ensures a.weight != "" ==> ParseFloat(a.weight) == ParseFloat(b.weight)
    ensures a.height != "" ==> ParseFloat(a.height) == ParseFloat(b.height)
  {
    var p := BuildPayload(a);
    assert FormOfPayload(p, a.weight, a.height) == Some(a);
    assert FormOfPayload(p, b.weight, b.height) == Some(b);
  }

  /** The measures' spelling is lost: a weight of `70` and one of `70.0` send
      the same payload from different forms. */
  lemma MeasureSpellingsCollide(form: ProfileForm)
    requires ValidForm(form)
    ensures var a, b := form.(weight := "70"), form.(weight := "70.0");
      a != b && BuildPayload(a) == BuildPayload(b)
  {
    ParseFloatZeroFraction();
    assert "70" != "70.0" by { assert |"70"| != |"70.0"|; }
  }

  /** Saving an untouched form sends back what was loaded: missing texts as
      '', missing measures as null, unset choices unset, and the birth date
      (today when there was none). */
  lemma UntouchedSaveEchoesProfile(u: UserData, today: CivilDate)
    requires ValidUser(u) && ValidDate(today)
    ensures var p := BuildPayload(InitialForm(u, today)); var prof := ProfileOf(u);
      && p.firstName == OrEmpty(u.firstName) && p.lastName == OrEmpty(u.lastName)
      && p.email == OrEmpty(u.email) && p.phoneNumber == OrEmpty(u.phoneNumber)
      && p.address == OrEmpty(prof.address) && p.country == OrEmpty(prof.country)
      && (p.weight.None? <==> prof.weight.None?)
      && (p.weight.Some? ==> p.weight.value == Finite(prof.weight.value as real))
      && (p.height.None? <==> prof.height.None?)
      && (p.height.Some? ==> p.height.value == Finite(prof.height.value as real))
      && p.hasChronicIllness == prof.hasChronicIllness
      && p.isMedicationDependent == prof.isMedicationDependent
      && ParseYmd(p.dateOfBirth) == Some(if prof.dateOfBirth.Some? then prof.dateOfBirth.value else today)
  {
    var prof := ProfileOf(u);
    if prof.weight.Some? { ParseFloatInt(prof.weight.value); }
    if prof.height.Some? { ParseFloatInt(prof.height.value); }
  }

  /** The save button's contract with `updateMyProfile`: the body it resolves
      with, or the value it throws. */
  type Updater = ProfilePayload -> Result<Json, Json>

  /** What `updateMyProfile` answers to the payload of a form. */
  function SaveOutcome(form: ProfileForm, update: Updater): Result<Json, Json>
    requires ValidForm(form)
  {
    update(BuildPayload(form))
  }

  /** The toast after a save: success, or the thrown message with a fallback. */
  function SaveNotice(outcome: Result<Json, Json>): (n: Notice)
    ensures n.kind == Success <==> outcome.Ok?
    ensures outcome.Ok? ==> n == Notice(Success, SavedTitle, SavedText)
    ensures outcome.Err? ==> n.title == FailedTitle && n.text != ""
    ensures outcome.Err? && n.text != SaveFailureMessage ==>
      outcome.error.JObj? && "message" in outcome.error.fields && outcome.error.fields["message"] == JStr(n.text)
    ensures outcome.Err? && outcome.error.JObj? && "message" in outcome.error.fields
            && outcome.error.fields["message"].JStr? && outcome.error.fields["message"].s != "" ==>
      n.text == outcome.error.fields["message"].s
  {
    match outcome
    case Ok(_) => Notice(Success, SavedTitle, SavedText)
    case Err(e) => Notice(Failure, FailedTitle, MessageOr(e, SaveFailureMessage))
  }

  /** The screen's state: `formData`, `loading` and `showDatePicker`. */
  class EditProfileScreen {
    var formData: ProfileForm
    var loading: bool
    var showDatePicker: bool
    /** Every value given to `setLoading`, in order. */
    ghost var loadingWrites: seq<bool>

    predicate Valid()
      reads this
    {
      ValidForm(formData)
    }

    constructor (userData: UserData, today: CivilDate)
      requires ValidUser(userData) && ValidDate(today)
      ensures Valid()
      ensures formData == InitialForm(userData, today)
      ensures !loading && !showDatePicker && loadingWrites == []
    {
      formData := InitialForm(userData, today);
      loading, showDatePicker := false, false;
      loadingWrites := [];
    }

    /** `handleInputChange(field, value)`, as the inputs and yes/no selectors call it. */
    method HandleInputChange(field: Field, value: FormValue)
      requires Valid() && KindFits(field, value)
      modifies this
      ensures Valid()
      ensures formData == InputChanged(old(formData), field, value)
      ensures loading == old(loading) && showDatePicker == old(showDatePicker)
      ensures loadingWrites == old(loadingWrites)
    {
      formData := InputChanged(formData, field, value);
    }

    /** The height or weight input: the filtered text is stored. */
    method HandleMeasureInput(field: Field, text: string)
      requires Valid() && (field == Height || field == Weight)
      modifies this
      ensures Valid()
      ensures formData == InputChanged(old(formData), field, Text(MeasureFilter(text)))
      ensures loading == old(loading) && showDatePicker == old(showDatePicker)
      ensures loadingWrites == old(loadingWrites)
    {
      HandleInputChange(field, Text(MeasureFilter(text)));
    }

    /** A press on the birth-date row. */
    method OpenDatePicker()
      modifies this
      ensures showDatePicker
      ensures formData == old(formData) && loading == old(loading) && loadingWrites == old(loadingWrites)
    {
      showDatePicker := true;
    }

    /** `handleDateChange(event, selectedDate)`: the picker stays up only on iOS. */
    method HandleDateChange(selected: Option<CivilDate>, isIos: bool)
      requires Valid()
      requires selected.Some? ==> ValidDate(selected.value)
      modifies this
      ensures Valid()
      ensures showDatePicker == isIos
      ensures formData == DateChanged(old(formData), selected)
      ensures loading == old(loading) && loadingWrites == old(loadingWrites)
    {
      showDatePicker := isIos;
      if selected.Some? {
        formData := formData.(dateOfBirth := selected.value);
      }
    }

    /** `setLoading(v)` */
    method SetLoading(v: bool)
      modifies this
      ensures loading == v && loadingWrites == old(loadingWrites) + [v]
      ensures formData == old(formData) && showDatePicker == old(showDatePicker)
    {
      loading, loadingWrites := v, loadingWrites + [v];
    }

    /** `handleSave()`: sends the payload built from the form, shows the
        toast and ends with `loading` false; the form itself is not touched. */
    method HandleSave(update: Updater) returns (sent: ProfilePayload, notice: Notice, wentBack: bool)
      requires Valid()
      modifies this
      ensures Valid()
      ensures sent == BuildPayload(old(formData))
      ensures notice == SaveNotice(SaveOutcome(old(formData), update))
      ensures wentBack <==> SaveOutcome(old(formData), update).Ok?
      ensures formData == old(formData) && showDatePicker == old(showDatePicker)
      ensures !loading && loadingWrites == old(loadingWrites) + [true] + [false]
    {
      SetLoading(true);
      sent := BuildPayload(formData);
      var outcome := SaveOutcome(formData, update);
      notice := SaveNotice(outcome);
      wentBack := outcome.Ok?;
      SetLoading(false);
    }
  }
}
