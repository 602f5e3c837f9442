/**
 * Request bodies as the route handlers see them: the values a parsed JSON
 * body can hold, JavaScript's truthiness, `String(…)` and `Number(…)` on
 * them, and `requireFields` of backend/src/routes/authRoutes.js.
 */
module Requests {
  import opened Wrappers
  import opened Strings
  import Http
  import Seqs
  import Crypto
  import Payments

  /** A body field: absent (undefined), null, a boolean, an integer, a string, or an object or array. */
  datatype Value = Undefined | Null | Bool(b: bool) | Num(n: int) | Str(s: string) | Composite

  type Body = map<string, Value>

  /** `body[name]`. */
  function Field(body: Body, name: string): Value {
    if name in body then body[name] else Undefined
  }

  predicate Truthy(v: Value) {
    match v
    case Bool(b) => b
    case Num(n) => n != 0
    case Str(s) => s != ""
    case Composite => true
    case _ => false
  }

  /** `String(v)` (an object renders as "[object Object]"). */
  function JsString(v: Value): (s: string)
    ensures Truthy(v) ==> s != ""
    ensures v.Str? ==> s == v.s
  {
    match v
    case Undefined => "undefined"
    case Null => "null"
    case Bool(b) => if b then "true" else "false"
    case Num(n) => IntToString(n)
    case Str(s) => s
    case Composite => "[object Object]"
  }

  /** `Number(v)`; None stands for NaN. */
  function JsNumberOf(v: Value): (r: Option<int>)
    ensures v.Num? ==> r == Some(v.n)
    ensures v.Null? ==> r == Some(0)
    ensures v.Undefined? || v.Composite? ==> r.None?
  {
    match v
    case Undefined => None
    case Null => Some(0)
    case Bool(b) => Some(if b then 1 else 0)
    case Num(n) => Some(n)
    case Str(s) => JsNumber(s)
    case Composite => None
  }

  /** `v ? String(v) : null`. */
  function TextIfTruthy(v: Value): (r: Option<string>)
    ensures r.Some? <==> Truthy(v)
    ensures r.Some? ==> r.value != "" && r.value == JsString(v)
  {
    if Truthy(v) then Some(JsString(v)) else None
  }

  /** The test `requireFields` applies: undefined, null or the empty string. */
  predicate Blank(v: Value) {
    v.Undefined? || v.Null? || v == Str("")
  }

  /** The required fields the body leaves blank, in the order they were listed. */
  function MissingFields(fields: seq<string>, body: Body): (missing: seq<string>)
    ensures forall f :: f in missing <==> f in fields && Blank(Field(body, f))
    ensures |missing| <= |fields|
  {
    Seqs.Filter(fields, (f: string) => Blank(Field(body, f)))
  }

  /**
   * `requireFields(fields, body)`: no error when every field is present and
   * non-blank, otherwise a 400 naming every blank field, comma-separated.
   */
  function RequireFields(fields: seq<string>, body: Body): (error: Option<Http.HttpError>)
    ensures error.None? <==> forall f :: f in fields ==> !Blank(Field(body, f))
    ensures error.Some? ==>
      error.value == Http.HttpError(400, "Missing required fields: " + Join(MissingFields(fields, body), ", "))
  {
    var missing := MissingFields(fields, body);
    if |missing| > 0 then
      Some(Http.HttpError(400, "Missing required fields: " + Join(missing, ", ")))
    else
      assert forall f :: f in fields ==> !Blank(Field(body, f));
      None
  }

  /** A body that fills every listed field passes. */
  lemma FilledBodyPasses(fields: seq<string>, body: Body)
    requires forall i :: 0 <= i < |fields| ==> fields[i] in body && !Blank(body[fields[i]])
    ensures RequireFields(fields, body).None?
  {
  }

  /**
   * What a request draws from outside the program: the clock, the random
   * tokens, salt, OTP bytes and slug candidates it would generate, whether
   * the OTP mail went out, and what the image host answered.
   */
  datatype Draws = Draws(
    now: int,
    accessToken: string,
    refreshToken: string,
    salt: string,
    otpBytes: seq<Crypto.Byte>,
    slugCandidates: seq<string>,
    mailDelivered: bool,
    upload: Option<Payments.UploadedImage>)
}
