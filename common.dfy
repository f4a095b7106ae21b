/** Optional values, and results that either succeed or carry what was thrown. */
module Wrappers {
  datatype Option<+T> = None | Some(value: T)

  datatype Result<+T, +E> = Ok(value: T) | Err(error: E)
}

/** Values shared by every part of the client model: optional and fallible
    results, a JSON value as the JavaScript code sees it, route/record ids and
    the toast notices the screens raise.

    A JSON value keeps `null` and `undefined` apart (`JNull`, `JUndefined`):
    a template literal prints them differently. Optional parts that the code
    only tests for falsiness (`None`, `Absent`) merge the two. */
module Common {
  import Text
  import opened Wrappers

  /** A JSON value as the code reads it: `undefined` is what a missing
      property reads as. Numbers are integers; floating point is not modelled. */
  datatype Json =
    | JUndefined
    | JNull
    | JBool(b: bool)
    | JNum(n: int)
    | JStr(s: string)
    | JArr(items: seq<Json>)
    | JObj(fields: map<string, Json>)

  /** JavaScript truthiness of a JSON value (NaN is not modelled). */
  predicate Truthy(j: Json) {
    match j
    case JUndefined => false
    case JNull => false
    case JBool(b) => b
    case JNum(n) => n != 0
    case JStr(s) => s != ""
    case JArr(_) => true
    case JObj(_) => true
  }

  /** `{ message: text }` */
  function MessageObject(text: string): (j: Json)
    ensures j.JObj? && j.fields.Keys == {"message"} && j.fields["message"] == JStr(text)
  {
    JObj(map["message" := JStr(text)])
  }

  /** `error.message || fallback`, for the string messages the services throw. */
  function MessageOr(error: Json, fallback: string): (text: string)
    ensures text == fallback || (error.JObj? && "message" in error.fields && error.fields["message"] == JStr(text))
    ensures text != fallback ==> text != ""
    ensures error.JObj? && "message" in error.fields && error.fields["message"].JStr? && error.fields["message"].s != "" ==>
      text == error.fields["message"].s
  {
    if error.JObj? && "message" in error.fields && error.fields["message"].JStr? && error.fields["message"].s != ""
    then error.fields["message"].s
    else fallback
  }

  /** An id as it arrives in route parameters or API records: absent, a number or a string. */
  datatype Id = Absent | NumId(n: int) | StrId(s: string)

  /** JavaScript truthiness of an id: `0`, `''` and a missing id are falsy. */
  predicate IdTruthy(id: Id) {
    match id
    case Absent => false
    case NumId(n) => n != 0
    case StrId(s) => s != ""
  }

  /** `${id}` / `id.toString()`; an absent id prints as `undefined`. */
  function IdText(id: Id): (t: string)
    ensures id.NumId? ==> Text.ParseInt(t) == Some(id.n)
    ensures id.StrId? ==> t == id.s
  {
    match id
    case Absent => "undefined"
    case NumId(n) => Text.ParseIntToString(n); Text.IntToString(n)
    case StrId(s) => s
  }

  /** The message a thrown `{ message }` object carries is the one it was built with. */
  lemma MessageOfMessageObject(text: string, fallback: string)
    requires text != ""
    ensures MessageOr(MessageObject(text), fallback) == text
  {
  }

  /** A toast the screens show after an action. */
  datatype NoticeKind = Success | Failure
  datatype Notice = Notice(kind: NoticeKind, title: string, text: string)
}
