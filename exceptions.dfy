/**
  * The exceptions the client raises for HTTP errors and for a missing
  * supporter field, as values: what message, code and detail fields each one
  * derives from the response it is built from, and when building one throws.
  */
module Exceptions {
  import opened Wrappers
  import opened JsonValues
  import opened Http
  import Php

  /** The state of an ErrorException / NotFoundException / RequestException. */
  datatype ErrorInfo = ErrorInfo(
    message: string,
    code: int,
    developerMessage: Option<string>,
    errorMessage: Option<string>,
    errorMessageId: Option<int>)

  /**
    * Assigning a decoded detail to a `?string` property in a file without
    * strict types: a string is kept, an integer becomes its decimal text and
    * a boolean `"1"` or `""`; an array or object throws `TypeError`. A float
    * is read as `null` (its text is not modelled).
    */
  function StringProperty(v: Json, k: string): (r: Result<Option<string>, DecodeError>)
    ensures v.JStr? ==> r == Success(Some(v.s))
    ensures v.JInt? ==> r == Success(Some(Php.IntText(v.i)))
    ensures v.JBool? ==> r == Success(Some(if v.b then "1" else ""))
    ensures v.JNull? || v.JFloat? ==> r == Success(None)
    ensures r.Failure? <==> v.JArray? || v.JObject?
    ensures r.Failure? ==> r.error == TypeMismatch(k)
  {
    match v
    case JStr(s) => Success(Some(s))
    case JInt(n) => Success(Some(Php.IntText(n)))
    case JBool(b) => Success(Some(if b then "1" else ""))
    case JNull => Success(None)
    case JFloat(_) => Success(None)
    case _ => Failure(TypeMismatch(k))
  }

  /** PHP's (deprecated, but still performed) float-to-`int` conversion: toward zero. */
  function Truncate(f: real): (n: int)
    ensures f >= 0.0 ==> n as real <= f < n as real + 1.0
    ensures f < 0.0 ==> n as real - 1.0 < f <= n as real
  {
    if f >= 0.0 then f.Floor else -((-f).Floor)
  }

  /**
    * Assigning a decoded detail to a `?int` property in a file without strict
    * types: an integer is kept, a boolean becomes 0 or 1, a float is
    * truncated and an integral numeric string becomes its integer; any other
    * string, an array or an object throws `TypeError`.
    */
  function IntProperty(v: Json, k: string): (r: Result<Option<int>, DecodeError>)
    ensures v.JInt? ==> r == Success(Some(v.i))
    ensures v.JBool? ==> r == Success(Some(if v.b then 1 else 0))
    ensures v.JFloat? ==> r == Success(Some(Truncate(v.f)))
    ensures v.JNull? ==> r == Success(None)
    ensures v.JStr? ==> r == (if Php.ParseInt(v.s).Some? then Success(Php.ParseInt(v.s)) else Failure(TypeMismatch(k)))
    ensures r.Failure? <==> v.JArray? || v.JObject? || (v.JStr? && Php.ParseInt(v.s).None?)
    ensures r.Failure? ==> r.error == TypeMismatch(k)
  {
    match v
    case JInt(n) => Success(Some(n))
    case JBool(b) => Success(Some(if b then 1 else 0))
    case JFloat(f) => Success(Some(Truncate(f)))
    case JNull => Success(None)
    case JStr(s) => if Php.ParseInt(s).Some? then Success(Php.ParseInt(s)) else Failure(TypeMismatch(k))
    case _ => Failure(TypeMismatch(k))
  }

  /** An integer detail kept in a string property reads back as that integer. */
  lemma IntegerTextDetailReadsBack(n: int, k: string)
    ensures StringProperty(JInt(n), k).Success? && StringProperty(JInt(n), k).value.Some?
    ensures Php.ParseInt(StringProperty(JInt(n), k).value.value) == Some(n)
    ensures IntProperty(JStr(StringProperty(JInt(n), k).value.value), k) == Success(Some(n))
  {
    Php.IntTextParsesBack(n);
  }

  /**
    * `$details?->k ?? null`: `null` unless the decoded body is an object; the
    * property of an object (null when absent), as the typed property takes it.
    */
  function DetailText(details: Option<Json>, k: string): (r: Result<Option<string>, DecodeError>)
    ensures !(details.Some? && details.value.JObject?) ==> r == Success(None)
    ensures details.Some? && details.value.JObject? ==> r == StringProperty(Prop(details.value.props, k), k)
  {
    if details.Some? && details.value.JObject? then StringProperty(Prop(details.value.props, k), k) else Success(None)
  }

  /** `$details?->messageId ?? null`, as the `?int` property takes it. */
  function DetailInt(details: Option<Json>, k: string): (r: Result<Option<int>, DecodeError>)
    ensures !(details.Some? && details.value.JObject?) ==> r == Success(None)
    ensures details.Some? && details.value.JObject? ==> r == IntProperty(Prop(details.value.props, k), k)
  {
    if details.Some? && details.value.JObject? then IntProperty(Prop(details.value.props, k), k) else Success(None)
  }

  /**
    * The three detail assignments, in the constructor's order, then the
    * parent constructor; the first assignment that throws is the error.
    */
  function WithDetails(message: string, code: int, details: Option<Json>): (r: Result<ErrorInfo, DecodeError>)
    ensures r.Success? <==>
      DetailText(details, "developerMessage").Success? && DetailText(details, "message").Success? &&
      DetailInt(details, "messageId").Success?
    ensures r.Success? ==> r.value == ErrorInfo(message, code,
      DetailText(details, "developerMessage").value, DetailText(details, "message").value,
      DetailInt(details, "messageId").value)
    ensures DetailText(details, "developerMessage").Failure? ==> r == Failure(DetailText(details, "developerMessage").error)
  {
    var developerMessage :- DetailText(details, "developerMessage");
    var errorMessage :- DetailText(details, "message");
    var errorMessageId :- DetailInt(details, "messageId");
    Success(ErrorInfo(message, code, developerMessage, errorMessage, errorMessageId))
  }

  /**
    * `new ErrorException($response)`: the message is always the reason phrase
    * and the code the status; a body that is not a JSON object leaves the
    * three details null; an array or object detail (or a non-numeric
    * `messageId`) makes the constructor throw `TypeError`.
    */
  function ErrorExceptionOf(resp: Response): (r: Result<ErrorInfo, DecodeError>)
    ensures r.Success? ==> r.value.message == resp.reason && r.value.code == resp.status
    ensures !(resp.body.json.Some? && resp.body.json.value.JObject?) ==>
      r == Success(ErrorInfo(resp.reason, resp.status, None, None, None))
    ensures resp.body.json.Some? && resp.body.json.value.JObject? ==>
      var props := resp.body.json.value.props;
      (r.Success? <==>
        StringProperty(Prop(props, "developerMessage"), "developerMessage").Success? &&
        StringProperty(Prop(props, "message"), "message").Success? &&
        IntProperty(Prop(props, "messageId"), "messageId").Success?) &&
      (r.Success? ==>
        r.value.developerMessage == StringProperty(Prop(props, "developerMessage"), "developerMessage").value &&
        r.value.errorMessage == StringProperty(Prop(props, "message"), "message").value &&
        r.value.errorMessageId == IntProperty(Prop(props, "messageId"), "messageId").value)
  {
    WithDetails(resp.reason, resp.status, resp.body.json)
  }

  /**
    * `new RequestException($response)`: the reason phrase when the body parses
    * as JSON, the raw body text when it does not (then `$details` is unset
    * and every detail null); details as for ErrorException.
    */
  function RequestExceptionOf(resp: Response): (r: Result<ErrorInfo, DecodeError>)
    ensures r.Success? && resp.body.json.Some? ==> r.value.message == resp.reason
    ensures resp.body.json.None? ==> r == Success(ErrorInfo(resp.body.text, resp.status, None, None, None))
    ensures r.Success? ==> r.value.code == resp.status
  {
    var message := if resp.body.json.Some? then resp.reason else resp.body.text;
    WithDetails(message, resp.status, resp.body.json)
  }

  /**
    * ErrorException and RequestException throw for the same bodies, and
    * otherwise read the same code and details and differ at most in the
    * message.
    */
  lemma RequestAndErrorExceptionAgree(resp: Response)
    ensures RequestExceptionOf(resp).Success? <==> ErrorExceptionOf(resp).Success?
    ensures RequestExceptionOf(resp).Failure? ==> RequestExceptionOf(resp).error == ErrorExceptionOf(resp).error
    ensures RequestExceptionOf(resp).Success? ==>
      var q := RequestExceptionOf(resp).value;
      var e := ErrorExceptionOf(resp).value;
      q.code == e.code && q.developerMessage == e.developerMessage &&
      q.errorMessage == e.errorMessage && q.errorMessageId == e.errorMessageId &&
      (q.message == e.message <==> resp.body.json.Some? || resp.body.text == resp.reason)
  {
  }

  /** An array or object under any of the three detail keys makes `new ErrorException` throw `TypeError`. */
  lemma CompoundDetailThrows(resp: Response, k: string)
    requires resp.body.json.Some? && resp.body.json.value.JObject?
    requires k == "developerMessage" || k == "message" || k == "messageId"
    requires Prop(resp.body.json.value.props, k).JArray? || Prop(resp.body.json.value.props, k).JObject?
    ensures ErrorExceptionOf(resp).Failure? && ErrorExceptionOf(resp).error.TypeMismatch?
  {
  }

  /** A `messageId` sent as the text of an integer is stored as that integer. */
  lemma NumericMessageIdConverts(resp: Response, n: int)
    requires resp.body.json.Some? && resp.body.json.value.JObject?
    requires Prop(resp.body.json.value.props, "messageId") == JStr(Php.IntText(n))
    requires ErrorExceptionOf(resp).Success?
    ensures ErrorExceptionOf(resp).value.errorMessageId == Some(n)
  {
    Php.IntTextParsesBack(n);
  }

  /** `new Response(404)`: status 404, Guzzle's standard reason phrase, an empty body. */
  const SyntheticNotFound := Response(404, "Not Found", Body("", None))

  /** The not-found exception built from the synthetic response has code 404 and no details. */
  lemma SyntheticNotFoundHasNoDetails()
    ensures ErrorExceptionOf(SyntheticNotFound) == Success(ErrorInfo("Not Found", 404, None, None, None))
  {
  }

  /** `SupporterFieldNotFoundException::__construct`: the message names the field. */
  function FieldNotFoundMessage(fieldName: string): (m: string)
    ensures |m| == |fieldName| + 39
    ensures m[..7] == "Field '"
    ensures m[7..7 + |fieldName|] == fieldName
    ensures m[7 + |fieldName|..] == "' not found in supporter fields."
  {
    "Field '" + fieldName + "' not found in supporter fields."
  }

  /** The field name can be read back from the message, so distinct names give distinct messages. */
  lemma FieldNotFoundMessageInjective(a: string, b: string)
    ensures FieldNotFoundMessage(a) == FieldNotFoundMessage(b) <==> a == b
  {
    if FieldNotFoundMessage(a) == FieldNotFoundMessage(b) {
      var m := FieldNotFoundMessage(a);
      assert |a| == |b|;
      assert a == m[7..7 + |a|];
    }
  }

  /** `SupporterFieldNotFoundException`: a RuntimeException that carries the field name. */
  datatype FieldNotFound = FieldNotFound(fieldName: string) {
    function Message(): (m: string)
      ensures m == FieldNotFoundMessage(fieldName)
    {
      FieldNotFoundMessage(fieldName)
    }

    /** `getFieldName()`. */
    function GetFieldName(): (n: string)
      ensures FieldNotFound(n) == this
    {
      fieldName
    }
  }
}
