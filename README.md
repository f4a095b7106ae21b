# eklinik_v2 client core in Dafny

eklinik_v2 is a React Native patient app for booking doctors' appointments.
This project models the sequential logic under its screens and proves
properties of that model:

- **The bearer-token session.** One persisted AsyncStorage slot, `userToken`,
  holds the JWT. `getUserFromToken` answers the decoded payload, or clears the
  slot when the token is expired or cannot be decoded. The `AuthProvider`
  context holds `userToken` and `isLoading` and offers restore, `login` and
  `logout`. The axios interceptor attaches `Bearer <token>` only when a token
  is stored. The SWR `fetcher` turns keys into GET requests.
- **The services.** `loginUser` and `registerUser` build request bodies and
  normalise errors; so does `bookAppointment`. `formatDateForApi` prints
  dates, and the doctor and slot hooks build SWR keys over a 30-day window.
  `getDoctorsByClinic` feeds the clinic's doctor list.
- **The screens' state and handlers.** Each React state hook is a class field
  and each handler a method, proved against a pure function of the old state:
  - the login screen (national-ID field, enablement, demo login);
  - the sign-up form (national-ID rule, phone mask, terms checkbox);
  - the profile editor (initial form, field edits, date picker, save payload);
  - the all-doctors list with its polyclinic filter;
  - the doctors-of-a-clinic list with its fetch, cards, keys and navigation.

Modules follow the source files: `AuthStorage`, `AuthContext`, `Api`,
`AuthService`, `DoctorService`, `Login`, `SignUp`, `EditProfile`,
`TumDoktorlar` and `Doktorlar`. They share:

- `Wrappers` (Option, Result);
- `Common` (a JSON value, truthiness, ids, toast notices);
- `Text` (character filters and decimal printing and parsing);
- `Dates` (civil dates, day arithmetic, `YYYY-MM-DD`);
- `TcKimlik` (the national-ID rule both auth screens apply).

Outside code is a parameter of the model. AsyncStorage is a
`map<string, string>`, and the failure of each storage call is a boolean
input. `jwtDecode` is a partial function. The network is a function from
request to response-or-axios-error. The clock is an integer of milliseconds,
and "today" is a civil date. `updateMyProfile` is a function from payload to
result.

Three behaviours of the session code shape its model:

- Restore sets `userToken` to the decoded payload's optional `token` field,
  not to the stored string (src/context/AuthContext.js:15).
- `login` persists the token before it sets `userToken`, and raises
  `isLoading` in between.
- `api` has a request interceptor only: nothing logs the user out when a
  response rejects the credential.

## Model

| member | source | states |
|---|---|---|
| AuthStorage.Saved | src/services/authStorage.js:10-16 | a save writes the token under `userToken` and touches no other key; a failed write leaves the store as it was |
| AuthStorage.Read | src/services/authStorage.js:22-29 | a read answers the stored string exactly when the key is present and the read succeeds; a failed read answers null |
| AuthStorage.Removed | src/services/authStorage.js:34-40 | a removal empties the `userToken` slot only, and a failed removal changes nothing |
| AuthStorage.UserFromToken | src/services/authStorage.js:47-67 | a user comes back iff a non-empty token is read, decodes and is not expired, and then it is the decoded payload and the store is unchanged; any change to the store is the removal of the token; no other key is touched |
| AuthStorage.Expired | src/services/authStorage.js:56 | a payload is expired iff it has an `exp` and `exp * 1000` is before now; a payload without `exp` never expires |
| AuthStorage.SaveThenRead | src/services/authStorage.js:10-29 | reading after a successful save answers the saved token |
| AuthStorage.RemoveThenRead | src/services/authStorage.js:22-40 | reading after a successful removal answers null |
| AuthStorage.NoTokenNoUser | src/services/authStorage.js:49-52 | with no stored token the lookup answers null and leaves the store unchanged |
| AuthStorage.ExpiredTokenRemoved | src/services/authStorage.js:54-60 | `exp * 1000 < now` answers null and removes the token; `exp * 1000 == now` is still valid and returns the payload with the store unchanged |
| AuthStorage.UndecodableTokenRemoved | src/services/authStorage.js:62-66 | a token that cannot be decoded answers null and is removed, unless the removal fails |
| AuthStorage.Storage.constructor | src/services/authStorage.js:1-4 | the store starts with the given entries |
| AuthStorage.Storage.SaveToken | src/services/authStorage.js:10-16 | the new store is `Saved` of the old one |
| AuthStorage.Storage.GetToken | src/services/authStorage.js:22-29 | answers `Read` of the store and does not change it |
| AuthStorage.Storage.RemoveToken | src/services/authStorage.js:34-40 | the new store is `Removed` of the old one |
| AuthStorage.Storage.GetUserFromToken | src/services/authStorage.js:47-67 | the answer and the new store are those of `UserFromToken` on the old store |
| AuthContext.AuthProvider.constructor | src/context/AuthContext.js:7-8 | `userToken` is null and `isLoading` is true, with no loading writes yet |
| AuthContext.AuthProvider.RestoreSession | src/context/AuthContext.js:10-23 | the store becomes the lookup's store; `userToken` becomes the payload's `token` field only when a payload came back; `isLoading` ends false in every case |
| AuthContext.AuthProvider.Login | src/context/AuthContext.js:25-30 | the token is persisted (unless the write fails), `userToken` is that token, the persisted and in-memory tokens then agree, and `isLoading` is written true then false |
| AuthContext.AuthProvider.Logout | src/context/AuthContext.js:32-37 | the persisted token is removed (unless the removal fails), `userToken` is null, and `isLoading` is written true then false |
| AuthContext.SessionScenario | src/context/AuthContext.js:7-37 | mount, restore, login then logout ends signed out, not loading, with no persisted token |
| Api.ThrownBody | src/services/authService.js:16-18 | the thrown value is the response body when it is truthy, otherwise `{ message: fallback }`; it is always truthy |
| Api.Settle | src/services/authService.js:10-19 | a service call succeeds iff the network answered, with the response body; otherwise it fails with `ThrownBody` |
| Api.FetcherRequest | src/services/api.js:6-14 | a path key is a GET of that path with no parameters; a range key is a GET of its url with `startDate` and `endDate` as parameters; no request has a body |
| Api.RangeRequestParams | src/services/api.js:7-11 | a range key's parameters are exactly `startDate` and `endDate`, holding the key's dates |
| Api.Fetcher | src/services/api.js:6-14 | the fetcher resolves to the response body of its request, or passes the axios error on unchanged |
| Api.BearerValue | src/services/api.js:35 | the header value is `Bearer ` followed by the token |
| Api.BearerToken | src/services/api.js:35 | a token is recovered exactly from values starting with `Bearer ` |
| Api.BearerRoundTrip | src/services/api.js:35 | the token is recovered from its header value |
| Api.DefaultHeaders | src/services/api.js:16-28 | both clients start with only `Content-Type: application/json` |
| Api.OutgoingHeaders | src/services/api.js:31-42 | the authenticated client sets Authorization to the bearer value exactly when a non-empty token is stored; all other headers are untouched; otherwise the headers are unchanged |
| Api.PublicClientSendsNoToken | src/services/api.js:23-28 | `apiPublic` never sends an Authorization header, whatever is stored |
| Api.RequestConfig.constructor | src/services/api.js:32 | the config holds the given headers |
| Api.InterceptRequest | src/services/api.js:31-38 | the interceptor returns the same config object, whose headers become `OutgoingHeaders` of the old headers and the stored token |
| AuthService.LoginBody | src/services/authService.js:11-14 | the body has exactly the keys `nationalId` and `password`, and reads back as the given pair |
| AuthService.LoginRequest | src/services/authService.js:11-14 | a POST to `/auth/login` with no parameters, whose body reads back as the credentials |
| AuthService.LoginUser | src/services/authService.js:9-19 | success iff the network answered, with its body; on failure the truthy server body, otherwise `{ message }` with the login fallback |
| AuthService.RegisterPayload | src/services/authService.js:22-31 | the payload has only `userRequest`, whose keys are exactly the six copied fields, and it reads back as the form |
| AuthService.RegisterRequest | src/services/authService.js:34 | a POST to the register path whose body reads back as the form |
| AuthService.RegisterUser | src/services/authService.js:21-39 | success iff the network answered; on failure the truthy server body, otherwise `{ message }` with the registration fallback |
| AuthService.RegisterFieldMapping | src/services/authService.js:23-30 | `tcKimlik` goes to `nationalId`, `phone` to `phoneNumber`, and the names, password and e-mail are copied unchanged |
| DoctorService.FormatDateForApi | src/services/doctorService.js:9-15 | the printed date parses back as `YYYY-MM-DD` to exactly that date |
| DoctorService.SlotWindow | src/services/doctorService.js:35-43 | the start date parses to today, and the end date to the date 30 days later |
| DoctorService.SlotWindowSpan | src/services/doctorService.js:35-43 | the window's end is exactly 30 calendar days after its start, and later than it |
| DoctorService.DoctorKey | src/services/doctorService.js:19-22 | there is a key iff the id is truthy, and then it is `/patient/doctors/{id}` |
| DoctorService.SlotsKey | src/services/doctorService.js:46 | there is a key iff the id is truthy, and then it is the range key of `/patient/doctors/{id}/slots-in-range` over the window |
| DoctorService.SlotsRequestCarriesWindow | src/services/doctorService.js:35-46 | the slot request is a GET whose `startDate` and `endDate` parameters parse to today and to 30 days later |
| DoctorService.SlotsHook.constructor | src/services/doctorService.js:35-43 | the window is computed once, from the mount day |
| DoctorService.SlotsHook.Key | src/services/doctorService.js:46 | the hook's key is `SlotsKey` of the id over the window fixed at mount |
| DoctorService.BookingRequest | src/services/doctorService.js:61 | a bodiless POST to `/patient/appointments/{scheduleId}` |
| DoctorService.BookAppointment | src/services/doctorService.js:59-66 | success iff the network answered, with its body; on failure the truthy server body, otherwise `{ message: 'Randevu oluşturulamadı.' }` |
| Dates.DaysInMonth | src/services/doctorService.js:38 | months have 28 to 31 days, and 29 exactly for February of a leap year |
| Dates.NextDay | src/services/doctorService.js:38 | the next day is a valid date after the given one |
| Dates.NextDayIsSuccessor | src/services/doctorService.js:38 | no valid date lies strictly between a date and its next day |
| Dates.AddDays | src/services/doctorService.js:38 | adding days keeps a valid date; adding zero is the identity and adding more moves later |
| Dates.AddDaysAdditive | src/services/doctorService.js:38 | adding m and then n days is adding m + n days |
| Dates.FormatYmd | src/services/doctorService.js:9-15 | the text has dashes at its fixed places, and its year, month and day parts read back as the year, month index + 1 and day |
| Dates.ParseYmd | src/services/doctorService.js:9-15 | what parses is a valid date |
| Dates.ParseFormatYmd | src/services/doctorService.js:9-15 | parsing a formatted date gives back the date |
| Dates.FormatYmdInjective | src/services/doctorService.js:9-15 | distinct dates print differently |
| Text.KeepDigits | src/screens/LoginScreen.js:19 | the result is all digits and no longer than the input, and text that is already digits comes through whole |
| Text.KeepWhere | src/screens/EditProfileScreen.js:148-149 | a filter keeps only accepted characters and never lengthens the text |
| Text.KeepWhereMembers | src/screens/EditProfileScreen.js:148-149 | a character survives a filter iff it occurs and is accepted |
| Text.KeepWhereConcat | src/screens/SignUpScreen.js:24 | filtering distributes over concatenation |
| Text.KeepWhereIdempotent | src/screens/SignUpScreen.js:43 | filtering twice is filtering once |
| Text.NatToString | src/screens/LoginScreen.js:75 | a non-negative number prints as at least one digit, with no leading zero, and one digit exactly below 10 |
| Text.IntToString | src/screens/DoktorlarScreen.js:94 | `toString()` of an integer: at least one character, all digits when not negative |
| Text.ParseInt | src/screens/DoktorlarScreen.js:94 | the decimal reading printed ids are checked against: digit text reads as its value, and only `-`-led text reads negative |
| Text.ParseIntToString | src/screens/DoktorlarScreen.js:94 | parsing a printed integer gives it back |
| Text.IntToStringInjective | src/screens/DoktorlarScreen.js:94 | distinct integers print differently |
| Text.SliceLast | src/services/doctorService.js:12 | `slice(-k)` keeps the last k characters, or all of a shorter string; `slice(-0)` keeps the whole string |
| Text.Pad2 | src/services/doctorService.js:12-13 | `("0" + n).slice(-2)`, the month and day padding |
| Text.Pad2Exact | src/services/doctorService.js:12-13 | padding a number below 100 gives two digits that read back as it |
| Text.DigitRun | src/screens/EditProfileScreen.js:98-99 | the longest run of digits that starts the text |
| Text.DigitRunAll | src/screens/EditProfileScreen.js:98-99 | text of digits alone is its own leading run |
| Text.ParseFloat | src/screens/EditProfileScreen.js:98-99 | `parseFloat`: an optional sign, then digits with at most one fraction; NaN when no digit leads, `''` included |
| Text.ParseFloatDigits | src/screens/EditProfileScreen.js:98-99 | digit text reads as its decimal value |
| Text.ParseFloatInt | src/screens/EditProfileScreen.js:98-99 | a printed integer reads back as that integer |
| Text.ParseFloatLoneDot | src/screens/EditProfileScreen.js:98-99 | `.` reads as NaN |
| Text.ParseFloatZeroFraction | src/screens/EditProfileScreen.js:98-99 | `70` and `70.0` read as the same number |
| Common.Truthy | src/screens/DoktorlarScreen.js:26 | JavaScript truthiness: undefined, null, false, `0` and `''` are falsy and every array and object is truthy |
| Common.MessageObject | src/services/clinicService.js:26 | `{ message }`: an object whose only key is `message`, holding the text |
| Common.IdTruthy | src/services/clinicService.js:18 | an id is falsy iff it is missing, `0` or `''` |
| Common.MessageOr | src/screens/DoktorlarScreen.js:71 | the error's `message` whenever it is a non-empty string, and otherwise the fallback |
| Common.IdText | src/services/doctorService.js:20 | a numeric id prints as text that parses back to it; a string id prints as itself |
| TcKimlik.Accepted | src/screens/LoginScreen.js:18-23 | an edit is accepted iff its digits number at most 11, and then the digits are stored |
| TcKimlik.AfterInput | src/screens/SignUpScreen.js:37-41 | the field keeps its value or takes the typed digits, and stays digits-only with at most 11 characters |
| TcKimlik.AfterInputStable | src/screens/LoginScreen.js:18-23 | typing a well-formed value stores it, and repeating an edit changes nothing |
| TcKimlik.IndicatorFor | src/screens/LoginScreen.js:71-77 | nothing for an empty field, a check mark iff the length is 11, otherwise a counter `n/11` whose number is the length |
| Login.LoginEnabled | src/screens/LoginScreen.js:113 | the button is enabled iff not loading, the ID has 11 characters and a password is typed |
| Login.DemoPairPassesGuard | src/screens/LoginScreen.js:26 | the hard-coded pair fits the field and enables the button |
| Login.LoginScreen.constructor | src/screens/LoginScreen.js:12-16 | empty fields, not loading, no modal |
| Login.LoginScreen.HandleTcKimlikChange | src/screens/LoginScreen.js:18-23 | the field becomes `AfterInput` of its old value; nothing else changes |
| Login.LoginScreen.SetPassword | src/screens/LoginScreen.js:14 | the password is the typed text; nothing else changes |
| Login.LoginScreen.HandleLogin | src/screens/LoginScreen.js:25-42 | for the demo pair, loading and the modal are set and no alert is shown; any other pair shows the alert and changes nothing |
| Login.LoginScreen.PressLogin | src/screens/LoginScreen.js:112-113 | a press is handled iff the button is enabled (not loading, 11 characters, a password); once loading, the button stays disabled |
| Login.LoginScreen.DismissSuccessModal | src/screens/LoginScreen.js:44-46 | the modal closes and nothing else changes |
| Login.LoadingIsSticky | src/screens/LoginScreen.js:27 | after any handler, a loading screen's button is still disabled |
| Login.DemoLoginScenario | src/screens/LoginScreen.js:18-41 | typing the demo pair and pressing the button opens the success modal |
| SignUp.FormatPhoneNumber | src/screens/SignUpScreen.js:23-34 | up to 10 digits give a prefix of `(ddd) ddd - dddd` starting with `(`; more give the bare digits; an input with digits gives a result ending on a digit |
| SignUp.MaskedFitsMask | src/screens/SignUpScreen.js:26-33 | each of the three masked branches is a prefix of the mask |
| SignUp.PhoneDigitsPreserved | src/screens/SignUpScreen.js:23-34 | the mask adds no digit and loses none |
| SignUp.LongMaskDigits | src/screens/SignUpScreen.js:31 | stripping the 7-to-10 digit layout gives its three digit groups |
| SignUp.FormatOnlyReadsDigits | src/screens/SignUpScreen.js:24 | inputs with the same digits format alike |
| SignUp.FormatPhoneEmpty | src/screens/SignUpScreen.js:26-27 | an input without digits formats to `(` |
| SignUp.FormatPhoneIdempotent | src/screens/SignUpScreen.js:23-34 | formatting a formatted number changes nothing |
| SignUp.FormatPhoneMasked | src/screens/SignUpScreen.js:23-32 | up to ten digits always give a complete mask entry |
| SignUp.MaskedFormUnique | src/screens/SignUpScreen.js:23-32 | every complete mask entry is the format of its own digits |
| SignUp.MaskDigitsDetermine | src/screens/SignUpScreen.js:23-32 | two complete mask entries with the same digits are equal |
| SignUp.DigitsInMask | src/screens/SignUpScreen.js:44 | the mask has exactly ten digit slots |
| SignUp.InitialForm | src/screens/SignUpScreen.js:14-21 | every field is the empty text except `agreeToTerms`; the form keeps its invariant and the button is disabled |
| SignUp.SignUpEnabled | src/screens/SignUpScreen.js:185 | the button is enabled iff the terms are accepted |
| SignUp.InputChanged | src/screens/SignUpScreen.js:36-51 | only the named field changes; the national ID takes its digits when at most 11 are left; the phone takes the mask of its digits when at most 10 are left; over-long input leaves the form as it was; any other field takes the value verbatim; the form invariant is kept |
| SignUp.PhoneChanged | src/screens/SignUpScreen.js:42-47 | the phone branch stores the mask of up to ten digits, keeping those digits, or leaves the form unchanged |
| SignUp.PhoneRetypeStable | src/screens/SignUpScreen.js:42-47 | retyping the phone entry that is shown leaves the form as it is |
| SignUp.TermsPressed | src/screens/SignUpScreen.js:163 | the checkbox flips whether the button is enabled, and changes nothing else |
| SignUp.TermsPressedTwice | src/screens/SignUpScreen.js:163 | pressing the checkbox twice restores the form |
| SignUp.SignUpScreen.constructor | src/screens/SignUpScreen.js:12-21 | the initial form, password hidden, terms modal closed |
| SignUp.SignUpScreen.HandleInputChange | src/screens/SignUpScreen.js:36-51 | the form becomes `InputChanged` of the old form; the other state is unchanged |
| SignUp.SignUpScreen.PressTermsCheckbox | src/screens/SignUpScreen.js:163 | the form becomes `TermsPressed` of the old form |
| SignUp.SignUpScreen.TogglePasswordVisibility | src/screens/SignUpScreen.js:150 | the password's visibility flips; nothing else changes |
| SignUp.SignUpScreen.SetTermsVisible | src/screens/SignUpScreen.js:172 | the terms modal takes the given visibility; nothing else changes |
| EditProfile.FormatDate | src/screens/EditProfileScreen.js:15-22 | the empty text iff no date; otherwise text that parses back to the date |
| EditProfile.OrEmpty | src/screens/EditProfileScreen.js:59-62 | a missing text becomes `''`; a present one is kept |
| EditProfile.NumberText | src/screens/EditProfileScreen.js:64-65 | `''` iff the number is missing; otherwise text that parses back to it, `0` included |
| EditProfile.InitialForm | src/screens/EditProfileScreen.js:58-73 | each text field is the user's value or `''`; weight and height are printed numbers or `''`; a missing birth date is today; the two yes/no answers keep the profile's value, missing included |
| EditProfile.InputChanged | src/screens/EditProfileScreen.js:78-80 | the named field holds the value and every other field is unchanged |
| EditProfile.Get | src/screens/EditProfileScreen.js:58-73 | the value the form holds for a named field |
| EditProfile.GetDeterminesForm | src/screens/EditProfileScreen.js:58-73 | two forms that agree on every field are equal |
| EditProfile.InputChangedSameValue | src/screens/EditProfileScreen.js:78-80 | writing back a field's own value changes nothing |
| EditProfile.MeasureFilter | src/screens/EditProfileScreen.js:148-149 | only digits and dots remain, each character survives iff it occurs and is one of those, and text of those alone is kept whole |
| EditProfile.MeasureFilterSplits | src/screens/EditProfileScreen.js:148-149 | the filter distributes over concatenation and is idempotent |
| EditProfile.DateChanged | src/screens/EditProfileScreen.js:84-86 | a dismissed picker leaves the form; a selected date becomes the birth date |
| EditProfile.MeasureValue | src/screens/EditProfileScreen.js:98-99 | an empty measure is sent as null, any other as `parseFloat` of its text |
| EditProfile.LoneDotSentAsNaN | src/screens/EditProfileScreen.js:98-99 | a weight of `.` passes the input filter and is sent as NaN |
| EditProfile.BuildPayload | src/screens/EditProfileScreen.js:92-106 | the date is sent as text that parses back to the birth date; empty measures are null and others `parseFloat` of their text; given the measure texts, the payload reads back as the form |
| EditProfile.BuildPayloadInjective | src/screens/EditProfileScreen.js:92-106 | forms that send the same payload agree on every field but the spelling of their measures, which are both empty or read as the same number |
| EditProfile.MeasureSpellingsCollide | src/screens/EditProfileScreen.js:98-99 | weights `70` and `70.0` are different forms that send the same payload |
| EditProfile.UntouchedSaveEchoesProfile | src/screens/EditProfileScreen.js:58-106 | saving an untouched form sends the loaded values back, with missing texts as `''`, missing measures as null, loaded measures as the same numbers, and the yes/no answers as loaded |
| EditProfile.SaveOutcome | src/screens/EditProfileScreen.js:92-108 | the updater's answer to the form's payload |
| EditProfile.SaveNotice | src/screens/EditProfileScreen.js:109-112 | success shows the fixed success toast; a failure shows `Hata` with the thrown `message` whenever it is a non-empty string, and the fallback otherwise |
| EditProfile.EditProfileScreen.constructor | src/screens/EditProfileScreen.js:58-76 | the initial form, not loading, picker closed |
| EditProfile.EditProfileScreen.HandleInputChange | src/screens/EditProfileScreen.js:78-80 | the form becomes `InputChanged` of the old form; nothing else changes |
| EditProfile.EditProfileScreen.HandleMeasureInput | src/screens/EditProfileScreen.js:148-149 | the filtered text is stored in the height or weight field |
| EditProfile.EditProfileScreen.OpenDatePicker | src/screens/EditProfileScreen.js:141 | the picker opens and nothing else changes |
| EditProfile.EditProfileScreen.HandleDateChange | src/screens/EditProfileScreen.js:82-87 | the picker stays open only on iOS, and the form becomes `DateChanged` of the old form |
| EditProfile.EditProfileScreen.SetLoading | src/screens/EditProfileScreen.js:75 | `loading` takes the value and the write is recorded |
| EditProfile.EditProfileScreen.HandleSave | src/screens/EditProfileScreen.js:89-116 | the payload of the form is sent; the toast follows the outcome; the screen goes back iff the save succeeded; `loading` is written true then false; the form is unchanged |
| TumDoktorlar.FilterDoctors | src/screens/TumDoktorlarEkrani.js:92-95 | every listed doctor passes the filter's test, and the list is no longer than the input |
| TumDoktorlar.FilterStep | src/screens/TumDoktorlarEkrani.js:92-95 | the head is kept exactly when it passes the test |
| TumDoktorlar.FilterAllClinics | src/screens/TumDoktorlarEkrani.js:93-94 | `tumu` lists every doctor, in order |
| TumDoktorlar.FilterCounts | src/screens/TumDoktorlarEkrani.js:92-95 | each doctor is listed as often as it occurs if it passes the test, and never otherwise |
| TumDoktorlar.FilterKeepsOrder | src/screens/TumDoktorlarEkrani.js:92-95 | the filtered list is a subsequence of the input |
| TumDoktorlar.FilterMembership | src/screens/TumDoktorlarEkrani.js:92-95 | a doctor is listed iff it is in the input and passes the test |
| TumDoktorlar.FilterIdempotent | src/screens/TumDoktorlarEkrani.js:92-95 | filtering the filtered list again gives the same list |
| TumDoktorlar.FilterNoMatch | src/screens/TumDoktorlarEkrani.js:94 | a selection no doctor's polyclinic matches lists nobody |
| TumDoktorlar.FilterAppend | src/screens/TumDoktorlarEkrani.js:92-95 | filtering a concatenation filters each part |
| TumDoktorlar.CardiologyDoctors | src/screens/TumDoktorlarEkrani.js:30-73 | `kardiyoloji` selects exactly doctors 1, 5 and 6 of the fixed list |
| TumDoktorlar.FirstIndex | src/screens/TumDoktorlarEkrani.js:111 | `find` stops at the first entry with that id, and finds none iff no entry has it |
| TumDoktorlar.SelectedLabel | src/screens/TumDoktorlarEkrani.js:111 | no label iff no polyclinic has the selected id; otherwise the name of an entry with that id |
| TumDoktorlar.InitialScreen | src/screens/TumDoktorlarEkrani.js:24 | the initial `tumu` selection lists every doctor under the label `Tüm Poliklinikler` |
| TumDoktorlar.SubsequenceKeepsDistinct | src/screens/TumDoktorlarEkrani.js:139-140 | a subsequence of a list with distinct ids has distinct ids |
| TumDoktorlar.FilteredKeysDistinct | src/screens/TumDoktorlarEkrani.js:92-95 | the filtered list's `id` keys never repeat, for any selection |
| Doktorlar.Prop | src/screens/DoktorlarScreen.js:26 | a property of an object that has it, otherwise undefined |
| Doktorlar.Display | src/screens/DoktorlarScreen.js:38 | a string prints as itself, a number as text that parses back to it, undefined as `undefined` and null as `null` |
| Doktorlar.Joined | src/screens/DoktorlarScreen.js:38 | `join(",")` of an array: an empty array prints as `''` |
| Doktorlar.JoinedAbsent | src/screens/DoktorlarScreen.js:38 | null and undefined elements print as nothing, leaving only the commas |
| Doktorlar.DoctorsPath | src/services/clinicService.js:22 | the path is `/patient/clinics/`, the id's text and `/doctors` |
| Doktorlar.DoctorsPathInjective | src/services/clinicService.js:22 | different numeric clinic ids ask for different paths |
| Doktorlar.DoctorsRequest | src/services/clinicService.js:22 | a bodiless GET of the clinic's doctors path |
| Doktorlar.GetDoctorsByClinic | src/services/clinicService.js:17-28 | a falsy id throws `Klinik ID'si belirtilmelidir.` before any request; otherwise the response body, or the truthy server body, or `{ message }` with the service's fallback |
| Doktorlar.FetchedDoctors | src/screens/DoktorlarScreen.js:60-73 | an array body is the list; anything else, thrown or not, empties it |
| Doktorlar.FetchToast | src/screens/DoktorlarScreen.js:67-72 | a toast iff the fetch threw, titled `Hata`, with the thrown message or the screen's fallback |
| Doktorlar.NoResponseShowsServiceMessage | src/screens/DoktorlarScreen.js:67-72 | without a usable error body the toast shows the service's own fallback message |
| Doktorlar.ServerMessageShown | src/screens/DoktorlarScreen.js:67-72 | a server error body whose `message` is a non-empty string, whatever else it holds, shows that message |
| Doktorlar.FailedFetchEmptiesList | src/screens/DoktorlarScreen.js:61-73 | a failed or non-array fetch leaves the list empty, and a failure raises a toast |
| Doktorlar.Card | src/screens/DoktorlarScreen.js:25-46 | no card iff the doctor, its user or its clinic is falsy; the subtitle is the clinic's name; a remote image iff the user's image URL is truthy, and then that URL |
| Doktorlar.DoctorRecord | src/screens/DoktorlarScreen.js:83 | a record carries its `doctorId` |
| Doktorlar.CardOfRecord | src/screens/DoktorlarScreen.js:38-39 | a complete record's card is titled `title firstName lastName` with single spaces, under its clinic's name |
| Doktorlar.CardName | src/screens/DoktorlarScreen.js:38 | for any doctor that renders, with string title and names, the card reads `title firstName lastName` |
| Doktorlar.CardNameWithoutTitle | src/screens/DoktorlarScreen.js:38 | a missing title prints as `undefined` and a null one as `null` before the names |
| Doktorlar.CardNeedsClinic | src/screens/DoktorlarScreen.js:26-28 | a record without a clinic renders nothing |
| Doktorlar.ListKey | src/screens/DoktorlarScreen.js:94 | a truthy item with a truthy id is keyed by the id's text; otherwise the key parses back to the index |
| Doktorlar.NumberedKeysDistinct | src/screens/DoktorlarScreen.js:94 | records with distinct numeric ids get distinct keys |
| Doktorlar.UnnumberedKeysDistinct | src/screens/DoktorlarScreen.js:94 | items without ids get distinct keys by position |
| Doktorlar.MixedKeysCollide | src/screens/DoktorlarScreen.js:94 | in a mixed list, a record with id n and an id-less item at index n get the same key |
| Doktorlar.HandleDoctorPress | src/screens/DoktorlarScreen.js:82-84 | the press opens `DoktorDetay` with that doctor's own `doctorId` |
| Doktorlar.PressCarriesRecordId | src/screens/DoktorlarScreen.js:82-84 | pressing a record's card passes exactly that record's id |
| Doktorlar.RowsOf | src/screens/DoktorlarScreen.js:92-97 | one row per item, in order |
| Doktorlar.ContentOf | src/screens/DoktorlarScreen.js:86-105 | the spinner iff loading; the empty notice iff not loading and no doctors; otherwise the rows |
| Doktorlar.DoktorlarScreen.constructor | src/screens/DoktorlarScreen.js:49-52 | no doctors and the spinner on |
| Doktorlar.DoktorlarScreen.SetLoading | src/screens/DoktorlarScreen.js:52 | `loading` takes the value and the write is recorded |
| Doktorlar.DoktorlarScreen.FetchDoctors | src/screens/DoktorlarScreen.js:54-80 | a falsy id sends nothing and changes nothing; otherwise the clinic's request is sent, the list and toast follow the outcome, and `loading` is written true then false |
| Doktorlar.OpenScreen | src/screens/DoktorlarScreen.js:54-105 | after the effect the spinner is gone; the empty notice shows iff no doctors came back; otherwise the rows of what came back |
| Doktorlar.OpenScreenWithoutClinic | src/screens/DoktorlarScreen.js:51-56 | without a clinic id the spinner never goes away |

## Left out

- Rendering, styles and navigation wiring: JSX trees, StyleSheets, `App.js` and the presentational components are not part of this model.
- AmbulansCagirScreen: GPS subscriptions, timers, floating-point coordinates and reverse geocoding are outside what the model can state.
- ForgotPasswordScreen, WelcomeScreen and useCheckToken: they only drive navigation or one HTTP call, and repeat the storage rules `AuthStorage` already captures.
- The mock-data screens (appointments, appointment detail, doctor detail, top doctors, polyclinics, profile) hold literal arrays and no logic.
- appointmentService and getAllClinics/userService wrappers: they repeat the error rule `Api.Settle` states; `updateMyProfile` is the `Updater` parameter of the profile save.
- The e-mail validity style of the sign-up form: `isValidEmail` is not part of this model.
- SignUp.SignUpEnabled: the sign-up button has no press handler, so `registerUser` is never called from the screen; the model states only when the button is enabled.
- Text.ParseFloat: reads exact decimal values, not rounded doubles, and does not read leading whitespace, exponents or `Infinity`; the profile's measure texts hold only digits and dots, or printed integers.
- Floating point outside `parseFloat`: JSON numbers are integers, and `NaN` is not a JSON value (`JSON.stringify` would send it as null).
- Common.MessageOr: a truthy `message` that is not a string (a number, an object) gives the fallback here, where the code would show that value; the services only throw string messages.
- JavaScript `Date`, time zones and `new Date(text)` parsing: dates are civil (year, month index, day) values, and `setDate` overflow is `Dates.AddDays`.
- Timers: the three-second `setTimeout` after a demo login, and the navigation it performs, are not modelled.
- Async interleavings: each asynchronous handler is one sequential step, so no other handler runs between its writes.
- JavaScript `null` and `undefined`: JSON values keep them apart (`JNull`, `JUndefined`). An optional value (`Option`, an absent `Id`) merges them, so the profile's yes/no answers do not say whether `JSON.stringify` drops an undefined answer or sends a null one.
- AuthContext.AuthProvider.RestoreSession: the `catch` branch is not modelled because `getUserFromToken` never throws.
- Doktorlar.GetDoctorsByClinic: the early throw for a falsy id cannot be reached from the screen, which returns first on the same test.
- Doktorlar.Card: the image's `onError` fallback to the default avatar, and how React prints a non-string subtitle, are not modelled.
- Doktorlar.Display: floating-point numbers are not modelled, so a number prints as an integer; an object prints as `[object Object]`, whatever its own `toString`.
- Doktorlar.Prop: a property read on a string or an array gives undefined, so `length` and indices of those are not modelled.
- Console logging in the services and screens is not modelled.
- SignUp.InputChanged: requires text values for the national-ID and phone fields, because the source calls `replace` on them and the inputs only ever pass text.
- EditProfile.InputChanged: requires a value of the field's kind, because the screen's inputs only pass text to text fields, yes/no to the two choices and a date to the birth date.
