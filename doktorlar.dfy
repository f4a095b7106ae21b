/** The doctors-of-a-clinic screen (src/screens/DoktorlarScreen.js) and the
    service call it makes (`getDoctorsByClinic`, src/services/clinicService.js):
    fetching the list once for the route's clinic, the `loading` flag, the error
    toast, the card each record becomes, the list keys and the press target.

    Records are JSON values as the server sends them; a property read on
    anything that is not an object gives `undefined`. */
module Doktorlar {
  import opened Wrappers
  import opened Common
  import opened Text
  import opened Api

  const MissingClinicMessage := "Klinik ID'si belirtilmelidir."
  const LoadFailedMessage := "Doktorlar yüklenemedi. Lütfen daha sonra tekrar deneyin."
  const ScreenFallbackMessage := "Doktorlar getirilirken bir sorun oluştu."
  const ErrorTitle := "Hata"
  const DetailScreen := "DoktorDetay"
  const ClinicsPrefix := "/patient/clinics/"
  const DoctorsSuffix := "/doctors"

  /** `j[key]`: the property, or `undefined` when j is not an object or lacks it. */
  function Prop(j: Json, key: string): (v: Json)
    ensures !j.JObj? || key !in j.fields ==> v == JUndefined
    ensures j.JObj? && key in j.fields ==> v == j.fields[key]
  {
    if j.JObj? && key in j.fields then j.fields[key] else JUndefined
  }

  /** `String(j)`, as a template literal or `toString()` prints a value: an
      array joins its elements with commas, printing null and undefined ones
      as nothing. */
  function Display(j: Json): (s: string)
    ensures j.JStr? ==> s == j.s
    ensures j.JNum? ==> ParseInt(s) == Some(j.n)
    ensures j.JUndefined? ==> s == "undefined"
    ensures j.JNull? ==> s == "null"
    decreases j, 1
  {
    match j
    case JUndefined => "undefined"
    case JNull => "null"
    case JBool(b) => if b then "true" else "false"
    case JNum(n) => ParseIntToString(n); IntToString(n)
    case JStr(s) => s
    case JArr(items) => Joined(items)
    case JObj(_) => "[object Object]"
  }

  /** `items.join(",")` */
  function Joined(items: seq<Json>): (s: string)
    ensures items == [] ==> s == ""
    decreases items, 0
  {
    if items == [] then ""
    else
      (if items[0].JNull? || items[0].JUndefined? then "" else Display(items[0]))
        + (if |items| == 1 then "" else "," + Joined(items[1..]))
  }

  /** Null and undefined elements print as nothing, so a list of them joins
      to its commas alone: `[null, undefined].join(",")` is `,`. */
  lemma {:induction false} JoinedAbsent(items: seq<Json>)
    requires items != []
    requires forall i :: 0 <= i < |items| ==> items[i].JNull? || items[i].JUndefined?
    ensures |Joined(items)| == |items| - 1
    ensures forall k :: 0 <= k < |Joined(items)| ==> Joined(items)[k] == ','
  {
    if |items| > 1 {
      JoinedAbsent(items[1..]);
    }
  }

  // ---------------------------------------------------------------------------
  // The service call
  // ---------------------------------------------------------------------------

  /** `/patient/clinics/${clinicId}/doctors` */
  function DoctorsPath(clinicId: Id): (path: string)
    ensures |path| == |ClinicsPrefix| + |IdText(clinicId)| + |DoctorsSuffix|
    ensures path[..|ClinicsPrefix|] == ClinicsPrefix
    ensures path[|ClinicsPrefix|..|path| - |DoctorsSuffix|] == IdText(clinicId)
    ensures path[|path| - |DoctorsSuffix|..] == DoctorsSuffix
  {
    var t := IdText(clinicId);
    var path := ClinicsPrefix + t + DoctorsSuffix;
    assert path == ClinicsPrefix + (t + DoctorsSuffix);
    path
  }

  /** Distinct numeric clinic ids ask for distinct paths. */
  lemma DoctorsPathInjective(a: int, b: int)
    requires DoctorsPath(NumId(a)) == DoctorsPath(NumId(b))
    ensures a == b
  {
    var pa, pb := DoctorsPath(NumId(a)), DoctorsPath(NumId(b));
    assert IdText(NumId(a)) == pa[|ClinicsPrefix|..|pa| - |DoctorsSuffix|];
    assert IdText(NumId(b)) == pb[|ClinicsPrefix|..|pb| - |DoctorsSuffix|];
    IntToStringInjective(a, b);
  }

  /** The request `api.get(...)` sends for a clinic. */
  function DoctorsRequest(clinicId: Id): (r: Request)
    ensures r.verb == Get && r.params == None && r.body == None
    ensures r.url == DoctorsPath(clinicId)
  {
    Request(Get, DoctorsPath(clinicId), None, None)
  }

  /** `getDoctorsByClinic(clinicId)`: a falsy id throws before any request;
      otherwise the response body, or the error body with the service's fallback. */
  function GetDoctorsByClinic(clinicId: Id, send: Network): (r: Result<Json, Json>)
    ensures !IdTruthy(clinicId) ==> r == Err(MessageObject(MissingClinicMessage))
    ensures IdTruthy(clinicId) && send(DoctorsRequest(clinicId)).Ok? ==>
      r == Ok(send(DoctorsRequest(clinicId)).value.data)
    ensures IdTruthy(clinicId) && send(DoctorsRequest(clinicId)).Err? ==>
      r == Err(ThrownBody(send(DoctorsRequest(clinicId)).error, LoadFailedMessage))
    ensures r.Err? ==> Truthy(r.error)
  {
    if !IdTruthy(clinicId) then Err(MessageObject(MissingClinicMessage))
    else Settle(send(DoctorsRequest(clinicId)), LoadFailedMessage)
  }

  // ---------------------------------------------------------------------------
  // What a fetch leaves behind
  // ---------------------------------------------------------------------------

  /** The list a fetch stores: the body when it is an array, otherwise `[]`. */
  function FetchedDoctors(outcome: Result<Json, Json>): (doctors: seq<Json>)
    ensures outcome.Ok? && outcome.value.JArr? ==> doctors == outcome.value.items
    ensures !(outcome.Ok? && outcome.value.JArr?) ==> doctors == []
  {
    if outcome.Ok? && outcome.value.JArr? then outcome.value.items else []
  }

  /** The toast the `catch` block shows: only a thrown outcome raises one. */
  function FetchToast(outcome: Result<Json, Json>): (toast: Option<Notice>)
    ensures toast.None? <==> outcome.Ok?
    ensures outcome.Err? ==>
      toast == Some(Notice(Failure, ErrorTitle, MessageOr(outcome.error, ScreenFallbackMessage)))
  {
    if outcome.Ok? then None
    else Some(Notice(Failure, ErrorTitle, MessageOr(outcome.error, ScreenFallbackMessage)))
  }

  /** When no usable error body arrives, the toast carries the service's own
      message, never the screen's fallback. */
  lemma NoResponseShowsServiceMessage(clinicId: Id, send: Network)
    requires IdTruthy(clinicId)
    requires send(DoctorsRequest(clinicId)).Err?
    requires var data := send(DoctorsRequest(clinicId)).error.responseData;
             data.None? || !Truthy(data.value)
    ensures FetchToast(GetDoctorsByClinic(clinicId, send))
         == Some(Notice(Failure, ErrorTitle, LoadFailedMessage))
  {
    MessageOfMessageObject(LoadFailedMessage, ScreenFallbackMessage);
  }

  /** An error body whose `message` is a non-empty string shows that message,
      whatever else the body holds. */
  lemma ServerMessageShown(clinicId: Id, send: Network, body: Json)
    requires IdTruthy(clinicId)
    requires send(DoctorsRequest(clinicId)).Err?
    requires send(DoctorsRequest(clinicId)).error.responseData == Some(body)
    requires body.JObj? && "message" in body.fields && body.fields["message"].JStr?
    requires body.fields["message"].s != ""
    ensures FetchToast(GetDoctorsByClinic(clinicId, send))
         == Some(Notice(Failure, ErrorTitle, body.fields["message"].s))
  {
  }

  /** A failed or non-array fetch leaves an empty list. */
  lemma FailedFetchEmptiesList(outcome: Result<Json, Json>)
    requires outcome.Err? || !outcome.value.JArr?
    ensures FetchedDoctors(outcome) == []
    ensures outcome.Err? ==> FetchToast(outcome).Some?
  {
  }

  // ---------------------------------------------------------------------------
  // Cards, keys and presses
  // ---------------------------------------------------------------------------

  /** The image source: `{ uri: imageUrl }` when the URL is truthy, else the default avatar. */
  datatype Avatar = Remote(uri: Json) | DefaultAvatar

  /** What `DoctorCard` shows: the image, the name line and the clinic line. */
  datatype CardView = CardView(image: Avatar, name: string, subtitle: Json)

  /** `DoctorCard`: nothing without a doctor, its user or its clinic. */
  function Card(doctor: Json): (c: Option<CardView>)
    ensures c.None? <==> !Truthy(doctor) || !Truthy(Prop(doctor, "user")) || !Truthy(Prop(doctor, "clinic"))
    ensures c.Some? ==> c.value.subtitle == Prop(Prop(doctor, "clinic"), "name")
    ensures c.Some? ==> (c.value.image.Remote? <==> Truthy(Prop(Prop(doctor, "user"), "imageUrl")))
    ensures c.Some? && c.value.image.Remote? ==> c.value.image.uri == Prop(Prop(doctor, "user"), "imageUrl")
  {
    var user, clinic := Prop(doctor, "user"), Prop(doctor, "clinic");
    if !Truthy(doctor) || !Truthy(user) || !Truthy(clinic) then None
    else
      var url := Prop(user, "imageUrl");
      Some(CardView(
        if Truthy(url) then Remote(url) else DefaultAvatar,
        Display(Prop(doctor, "title")) + " " + Display(Prop(user, "firstName")) + " " + Display(Prop(user, "lastName")),
        Prop(clinic, "name")))
  }

  /** A doctor record as the server sends one. */
  function DoctorRecord(doctorId: int, title: string, firstName: string, lastName: string,
                        clinicName: string, imageUrl: string): (j: Json)
    ensures j.JObj? && Prop(j, "doctorId") == JNum(doctorId)
  {
    JObj(map[
      "doctorId" := JNum(doctorId),
      "title" := JStr(title),
      "user" := JObj(map["firstName" := JStr(firstName), "lastName" := JStr(lastName), "imageUrl" := JStr(imageUrl)]),
      "clinic" := JObj(map["name" := JStr(clinicName)])])
  }

  /** A complete record renders its title and names joined by single spaces,
      its clinic's name, and its photo exactly when it has a URL. */
  lemma CardOfRecord(doctorId: int, title: string, firstName: string, lastName: string,
                     clinicName: string, imageUrl: string)
    ensures Card(DoctorRecord(doctorId, title, firstName, lastName, clinicName, imageUrl))
         == Some(CardView(if imageUrl != "" then Remote(JStr(imageUrl)) else DefaultAvatar,
                          title + " " + firstName + " " + lastName,
                          JStr(clinicName)))
  {
    var j := DoctorRecord(doctorId, title, firstName, lastName, clinicName, imageUrl);
    var user := Prop(j, "user");
    assert Prop(j, "title") == JStr(title);
    assert Prop(user, "firstName") == JStr(firstName);
    assert Prop(user, "lastName") == JStr(lastName);
    assert Prop(user, "imageUrl") == JStr(imageUrl);
    assert Prop(Prop(j, "clinic"), "name") == JStr(clinicName);
  }

  /** Whatever else a record holds, a card's name line is its title, first
      name and last name joined by single spaces. */
  lemma CardName(doctor: Json, title: string, firstName: string, lastName: string)
    requires Card(doctor).Some?
    requires Prop(doctor, "title") == JStr(title)
    requires Prop(Prop(doctor, "user"), "firstName") == JStr(firstName)
    requires Prop(Prop(doctor, "user"), "lastName") == JStr(lastName)
    ensures Card(doctor).value.name == title + " " + firstName + " " + lastName
  {
  }

  /** A title that is missing prints as `undefined`, one that is null as `null`. */
  lemma CardNameWithoutTitle(doctor: Json, firstName: string, lastName: string)
    requires Card(doctor).Some?
    requires Prop(doctor, "title").JUndefined? || Prop(doctor, "title").JNull?
    requires Prop(Prop(doctor, "user"), "firstName") == JStr(firstName)
    requires Prop(Prop(doctor, "user"), "lastName") == JStr(lastName)
    ensures Prop(doctor, "title").JUndefined? ==>
      Card(doctor).value.name == "undefined " + firstName + " " + lastName
    ensures Prop(doctor, "title").JNull? ==>
      Card(doctor).value.name == "null " + firstName + " " + lastName
  {
  }

  /** A record without its clinic renders nothing. */
  lemma CardNeedsClinic(doctor: Json)
    requires doctor.JObj? && "clinic" !in doctor.fields
    ensures Card(doctor) == None
  {
  }

  /** `keyExtractor(item, index)`: the doctor id as text when the item and its id
      are truthy, otherwise the position. */
  function ListKey(item: Json, index: nat): (key: string)
    ensures Truthy(item) && Truthy(Prop(item, "doctorId")) ==> key == Display(Prop(item, "doctorId"))
    ensures !(Truthy(item) && Truthy(Prop(item, "doctorId"))) ==> ParseInt(key) == Some(index)
  {
    var id := Prop(item, "doctorId");
    if Truthy(item) && Truthy(id) then Display(id)
    else ParseNatToString(index); NatToString(index)
  }

  /** Every item carries a number as its id. */
  predicate NumberedIds(items: seq<Json>) {
    forall i :: 0 <= i < |items| ==> items[i].JObj? && Prop(items[i], "doctorId").JNum?
                                     && Prop(items[i], "doctorId").n != 0
  }

  /** Records with distinct numeric ids get distinct keys. */
  lemma NumberedKeysDistinct(items: seq<Json>)
    requires NumberedIds(items)
    requires forall i, j :: 0 <= i < j < |items| ==> Prop(items[i], "doctorId") != Prop(items[j], "doctorId")
    ensures forall i, j :: 0 <= i < j < |items| ==> ListKey(items[i], i) != ListKey(items[j], j)
  {
    forall i, j | 0 <= i < j < |items|
      ensures ListKey(items[i], i) != ListKey(items[j], j)
    {
      var a, b := Prop(items[i], "doctorId"), Prop(items[j], "doctorId");
      assert ParseInt(ListKey(items[i], i)) == Some(a.n);
      assert ParseInt(ListKey(items[j], j)) == Some(b.n);
    }
  }

  /** Items without ids are keyed by position, so their keys never repeat. */
  lemma UnnumberedKeysDistinct(items: seq<Json>)
    requires forall i :: 0 <= i < |items| ==> !Truthy(Prop(items[i], "doctorId"))
    ensures forall i, j :: 0 <= i < j < |items| ==> ListKey(items[i], i) != ListKey(items[j], j)
  {
    forall i, j | 0 <= i < j < |items|
      ensures ListKey(items[i], i) != ListKey(items[j], j)
    {
      assert ParseInt(ListKey(items[i], i)) == Some(i);
      assert ParseInt(ListKey(items[j], j)) == Some(j);
    }
  }

  /** A list that mixes the two kinds of item can repeat a key: a record with
      the id n, wherever it sits, and an item without an id at position n are
      both keyed `n`. */
  lemma MixedKeysCollide(n: nat, record: Json, i: nat, other: Json)
    requires n > 0 && record.JObj? && Prop(record, "doctorId") == JNum(n)
    requires !Truthy(Prop(other, "doctorId"))
    ensures ListKey(record, i) == ListKey(other, n)
  {
  }

  /** `navigation.navigate(screen, { doctorId })` */
  datatype Navigation = Navigate(screen: string, doctorId: Json)

  /** `handleDoctorPress(doctor)`: open the detail screen with that doctor's own id. */
  function HandleDoctorPress(doctor: Json): (n: Navigation)
    ensures n.screen == DetailScreen
    ensures n.doctorId == Prop(doctor, "doctorId")
  {
    Navigate(DetailScreen, Prop(doctor, "doctorId"))
  }

  /** Pressing a server record's card opens the detail of exactly that id. */
  lemma PressCarriesRecordId(doctorId: int, title: string, firstName: string, lastName: string,
                             clinicName: string, imageUrl: string)
    ensures HandleDoctorPress(DoctorRecord(doctorId, title, firstName, lastName, clinicName, imageUrl))
         == Navigate(DetailScreen, JNum(doctorId))
  {
  }

  /** What `renderContent` shows. */
  datatype Content = Spinner | EmptyNotice | Rows(rows: seq<Row>)
  datatype Row = Row(key: string, card: Option<CardView>, press: Navigation)

  /** The rows of the list, one per item, in order. */
  function RowsOf(doctors: seq<Json>): (rows: seq<Row>)
    ensures |rows| == |doctors|
    ensures forall i :: 0 <= i < |doctors| ==>
      rows[i] == Row(ListKey(doctors[i], i), Card(doctors[i]), HandleDoctorPress(doctors[i]))
  {
    seq(|doctors|, i requires 0 <= i < |doctors| =>
      Row(ListKey(doctors[i], i), Card(doctors[i]), HandleDoctorPress(doctors[i])))
  }

  /** The spinner while loading; otherwise the list, or its empty message. */
  function ContentOf(loading: bool, doctors: seq<Json>): (c: Content)
    ensures c.Spinner? <==> loading
    ensures c.EmptyNotice? <==> !loading && doctors == []
    ensures c.Rows? ==> c.rows == RowsOf(doctors)
  {
    if loading then Spinner
    else if doctors == [] then EmptyNotice
    else Rows(RowsOf(doctors))
  }

  // ---------------------------------------------------------------------------
  // The screen
  // ---------------------------------------------------------------------------

  class DoktorlarScreen {
    /** `route.params.clinicId` */
    const clinicId: Id
    var doctors: seq<Json>
    var loading: bool
    /** Every value given to `setLoading`, in order. */
    ghost var loadingWrites: seq<bool>

    /** The first render: no doctors, spinner on. */
    constructor (clinicId: Id)
      ensures this.clinicId == clinicId
      ensures doctors == [] && loading && loadingWrites == []
    {
      this.clinicId := clinicId;
      doctors, loading := [], true;
      loadingWrites := [];
    }

    /** `setLoading(v)` */
    method SetLoading(v: bool)
      modifies this
      ensures loading == v && loadingWrites == old(loadingWrites) + [v]
      ensures doctors == old(doctors)
    {
      loading, loadingWrites := v, loadingWrites + [v];
    }

    /** `fetchDoctors()`, the effect run for the route's clinic. With a falsy id
        it returns at once and the spinner stays; otherwise it sends one request,
        stores the array (or `[]`), shows a toast on failure and ends loading. */
    method FetchDoctors(send: Network) returns (sent: Option<Request>, toast: Option<Notice>)
      modifies this
      ensures !IdTruthy(clinicId) ==>
        sent == None && toast == None && doctors == old(doctors) && loading == old(loading)
        && loadingWrites == old(loadingWrites)
      ensures IdTruthy(clinicId) ==>
        sent == Some(DoctorsRequest(clinicId))
        && doctors == FetchedDoctors(GetDoctorsByClinic(clinicId, send))
        && toast == FetchToast(GetDoctorsByClinic(clinicId, send))
        && !loading && loadingWrites == old(loadingWrites) + [true] + [false]
    {
      sent, toast := None, None;
      if !IdTruthy(clinicId) {
        return;
      }
      SetLoading(true);
      sent := Some(DoctorsRequest(clinicId));
      var outcome := GetDoctorsByClinic(clinicId, send);
      if outcome.Ok? && outcome.value.JArr? {
        doctors := outcome.value.items;
      } else {
        doctors := [];
      }
      if outcome.Err? {
        toast := Some(Notice(Failure, ErrorTitle, MessageOr(outcome.error, ScreenFallbackMessage)));
      }
      SetLoading(false);
    }
  }

  /** Opening the screen for a clinic and letting the effect run: the spinner
      gives way to the list of the array the server sent, or to the empty message. */
  method OpenScreen(clinicId: Id, send: Network) returns (content: Content)
    requires IdTruthy(clinicId)
    ensures !content.Spinner?
    ensures content.EmptyNotice? <==> FetchedDoctors(GetDoctorsByClinic(clinicId, send)) == []
    ensures content.Rows? ==> content.rows == RowsOf(FetchedDoctors(GetDoctorsByClinic(clinicId, send)))
  {
    var screen := new DoktorlarScreen(clinicId);
    var _, _ := screen.FetchDoctors(send);
    content := ContentOf(screen.loading, screen.doctors);
  }

  /** Without a clinic id the effect does nothing and the spinner never goes away. */
  method OpenScreenWithoutClinic(clinicId: Id, send: Network) returns (content: Content)
    requires !IdTruthy(clinicId)
    ensures content == Spinner
  {
    var screen := new DoktorlarScreen(clinicId);
    var _, _ := screen.FetchDoctors(send);
    content := ContentOf(screen.loading, screen.doctors);
  }
}
