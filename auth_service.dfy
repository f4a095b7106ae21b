/** Login and registration calls (src/services/authService.js): the request
    bodies they post and the error they rethrow. */
module AuthService {
  import opened Wrappers
  import opened Common
  import opened Api

  const LoginPath := "/auth/login"
  const RegisterPath := "/auth/register"
  const LoginFailureMessage := "Bilinmeyen bir ağ hatası oluştu."
  const RegisterFailureMessage := "Bilinmeyen bir kayıt hatası oluştu."

  /** `{ nationalId, password }` */
  function LoginBody(nationalId: string, password: string): (j: Json)
    ensures j.JObj? && j.fields.Keys == {"nationalId", "password"}
    ensures LoginCredentials(j) == Some((nationalId, password))
  {
    JObj(map["nationalId" := JStr(nationalId), "password" := JStr(password)])
  }

  /** Reads a login body back: exactly the two string fields. */
  function LoginCredentials(body: Json): Option<(string, string)> {
    if body.JObj? && body.fields.Keys == {"nationalId", "password"}
       && body.fields["nationalId"].JStr? && body.fields["password"].JStr?
    then Some((body.fields["nationalId"].s, body.fields["password"].s))
    else None
  }

  function LoginRequest(nationalId: string, password: string): (r: Request)
    ensures r.verb == Post && r.url == LoginPath && r.params == None
    ensures r.body.Some? && LoginCredentials(r.body.value) == Some((nationalId, password))
  {
    Request(Post, LoginPath, None, Some(LoginBody(nationalId, password)))
  }

  /** `loginUser(nationalId, password)`: the response body, or the server's
      error body, or `{ message: LoginFailureMessage }`. */
  function LoginUser(nationalId: string, password: string, send: Network): (r: Result<Json, Json>)
    ensures var answer := send(LoginRequest(nationalId, password));
      && (r.Ok? <==> answer.Ok?)
      && (r.Ok? ==> r.value == answer.value.data)
      && (r.Err? ==> Truthy(r.error))
      && (r.Err? && answer.error.responseData.Some? && Truthy(answer.error.responseData.value) ==>
            r.error == answer.error.responseData.value)
      && (r.Err? && !(answer.error.responseData.Some? && Truthy(answer.error.responseData.value)) ==>
            r.error == MessageObject(LoginFailureMessage))
  {
    Settle(send(LoginRequest(nationalId, password)), LoginFailureMessage)
  }

  /** The fields of the sign-up form that `registerUser` reads. */
  datatype RegisterForm = RegisterForm(
    tcKimlik: string, firstName: string, lastName: string,
    password: string, email: string, phone: string)

  const UserRequestFields := {"nationalId", "firstName", "lastName", "password", "email", "phoneNumber"}

  /** `{ userRequest: { nationalId: tcKimlik, firstName, lastName, password, email, phoneNumber: phone } }` */
  function RegisterPayload(form: RegisterForm): (j: Json)
    ensures j.JObj? && j.fields.Keys == {"userRequest"}
    ensures j.fields["userRequest"].JObj? && j.fields["userRequest"].fields.Keys == UserRequestFields
    ensures RegisterFormOf(j) == Some(form)
  {
    var inner := map[
      "nationalId" := JStr(form.tcKimlik),
      "firstName" := JStr(form.firstName),
      "lastName" := JStr(form.lastName),
      "password" := JStr(form.password),
      "email" := JStr(form.email),
      "phoneNumber" := JStr(form.phone)];
    JObj(map["userRequest" := JObj(inner)])
  }

  /** Reads a registration payload back into the form it came from. */
  function RegisterFormOf(j: Json): Option<RegisterForm> {
    if j.JObj? && "userRequest" in j.fields && j.fields["userRequest"].JObj? then
      var u := j.fields["userRequest"].fields;
      if (forall k :: k in UserRequestFields ==> k in u && u[k].JStr?) then
        Some(RegisterForm(u["nationalId"].s, u["firstName"].s, u["lastName"].s,
                          u["password"].s, u["email"].s, u["phoneNumber"].s))
      else None
    else None
  }

  function RegisterRequest(form: RegisterForm): (r: Request)
    ensures r.verb == Post && r.url == RegisterPath && r.params == None
    ensures r.body.Some? && RegisterFormOf(r.body.value) == Some(form)
  {
    Request(Post, RegisterPath, None, Some(RegisterPayload(form)))
  }

  /** `registerUser(formData)`: like `loginUser`, with its own fallback message. */
  function RegisterUser(form: RegisterForm, send: Network): (r: Result<Json, Json>)
    ensures var answer := send(RegisterRequest(form));
      && (r.Ok? <==> answer.Ok?)
      && (r.Ok? ==> r.value == answer.value.data)
      && (r.Err? ==> Truthy(r.error))
      && (r.Err? && answer.error.responseData.Some? && Truthy(answer.error.responseData.value) ==>
            r.error == answer.error.responseData.value)
      && (r.Err? && !(answer.error.responseData.Some? && Truthy(answer.error.responseData.value)) ==>
            r.error == MessageObject(RegisterFailureMessage))
  {
    Settle(send(RegisterRequest(form)), RegisterFailureMessage)
  }

  /** The six copied fields are the form's own, under their API names. */
  lemma RegisterFieldMapping(form: RegisterForm)
    ensures var u := RegisterPayload(form).fields["userRequest"].fields;
      && u["nationalId"] == JStr(form.tcKimlik) && u["phoneNumber"] == JStr(form.phone)
      && u["firstName"] == JStr(form.firstName) && u["lastName"] == JStr(form.lastName)
      && u["password"] == JStr(form.password) && u["email"] == JStr(form.email)
  {
  }
}
