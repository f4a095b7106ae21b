/** Doctor detail, slot range and booking (src/services/doctorService.js):
    the SWR keys the two hooks build, the 30-day request window, and the
    booking call. The window is taken from the date the hook first renders
    on (`useMemo` with no dependencies), which is an input here. */
module DoctorService {
  import opened Wrappers
  import opened Common
  import opened Text
  import opened Dates
  import opened Api

  const SlotWindowDays := 30
  const BookingFailureMessage := "Randevu oluşturulamadı."

  /** `formatDateForApi(date)` */
  function FormatDateForApi(d: CivilDate): (s: string)
    requires ValidDate(d)
    ensures ParseYmd(s) == Some(d)
  {
    ParseFormatYmd(d);
    FormatYmd(d)
  }

  datatype DateRange = DateRange(startDate: string, endDate: string)

  /** The memoised `{ startDate, endDate }`: today, and 30 days later after `setDate` overflow. */
  function SlotWindow(today: CivilDate): (w: DateRange)
    requires ValidDate(today)
    ensures ParseYmd(w.startDate) == Some(today)
    ensures ParseYmd(w.endDate) == Some(AddDays(today, SlotWindowDays))
  {
    DateRange(FormatDateForApi(today), FormatDateForApi(AddDays(today, SlotWindowDays)))
  }

  /** The window ends exactly 30 calendar days after it starts, and later. */
  lemma SlotWindowSpan(today: CivilDate)
    requires ValidDate(today)
    ensures var w := SlotWindow(today);
      && ParseYmd(w.startDate).Some? && ParseYmd(w.endDate).Some?
      && ParseYmd(w.endDate).value == AddDays(ParseYmd(w.startDate).value, 30)
      && Before(ParseYmd(w.startDate).value, ParseYmd(w.endDate).value)
  {
  }

  /** `useDoctor`'s key: no request for a falsy id. */
  function DoctorKey(doctorId: Id): (k: Option<SwrKey>)
    ensures k.Some? <==> IdTruthy(doctorId)
    ensures k.Some? ==> k.value == PathKey("/patient/doctors/" + IdText(doctorId))
  {
    if IdTruthy(doctorId) then Some(PathKey("/patient/doctors/" + IdText(doctorId))) else None
  }

  /** `useDoctorSlots`'s key: no request for a falsy id; otherwise the range key over the window. */
  function SlotsKey(doctorId: Id, window: DateRange): (k: Option<SwrKey>)
    ensures k.Some? <==> IdTruthy(doctorId)
    ensures k.Some? ==> k.value == RangeKey("/patient/doctors/" + IdText(doctorId) + "/slots-in-range",
                                            window.startDate, window.endDate)
  {
    if IdTruthy(doctorId)
    then Some(RangeKey("/patient/doctors/" + IdText(doctorId) + "/slots-in-range", window.startDate, window.endDate))
    else None
  }

  /** The slot request `fetcher` issues carries the window as query parameters. */
  lemma SlotsRequestCarriesWindow(doctorId: Id, today: CivilDate)
    requires ValidDate(today) && IdTruthy(doctorId)
    ensures var r := FetcherRequest(SlotsKey(doctorId, SlotWindow(today)).value);
      && r.verb == Get && r.params.Some?
      && "startDate" in r.params.value && "endDate" in r.params.value
      && ParseYmd(r.params.value["startDate"]) == Some(today)
      && ParseYmd(r.params.value["endDate"]) == Some(AddDays(today, SlotWindowDays))
  {
    var w := SlotWindow(today);
    var key := SlotsKey(doctorId, w).value;
    assert key.RangeKey? && key.startDate == w.startDate && key.endDate == w.endDate;
    RangeRequestParams(key);
  }

  /** One mounted `useDoctorSlots`: the window is computed once, when it
      mounts, and every later render builds its key from that same window. */
  class SlotsHook {
    const window: DateRange

    constructor (mountDay: CivilDate)
      requires ValidDate(mountDay)
      ensures window == SlotWindow(mountDay)
    {
      window := SlotWindow(mountDay);
    }

    function Key(doctorId: Id): Option<SwrKey> {
      SlotsKey(doctorId, window)
    }
  }

  /** `bookAppointment(scheduleId)`'s request: a POST without a body. */
  function BookingRequest(scheduleId: Id): (r: Request)
    ensures r.verb == Post && r.url == "/patient/appointments/" + IdText(scheduleId)
    ensures r.params == None && r.body == None
  {
    Request(Post, "/patient/appointments/" + IdText(scheduleId), None, None)
  }

  /** `bookAppointment(scheduleId)`: the response body, or the server's error
      body, or `{ message: BookingFailureMessage }`. */
  function BookAppointment(scheduleId: Id, send: Network): (r: Result<Json, Json>)
    ensures var answer := send(BookingRequest(scheduleId));
      && (r.Ok? <==> answer.Ok?)
      && (r.Ok? ==> r.value == answer.value.data)
      && (r.Err? ==> Truthy(r.error))
      && (r.Err? && answer.error.responseData.Some? && Truthy(answer.error.responseData.value) ==>
            r.error == answer.error.responseData.value)
      && (r.Err? && !(answer.error.responseData.Some? && Truthy(answer.error.responseData.value)) ==>
            r.error == MessageObject(BookingFailureMessage))
  {
    Settle(send(BookingRequest(scheduleId)), BookingFailureMessage)
  }
}
