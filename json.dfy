/**
  * Decoded JSON, as `json_decode` hands it to the resource factories, and the
  * rules by which a factory reads one property of a decoded object.
  *
  * A factory reads `$json->name`; an absent property reads as `null`. The value
  * is then either passed through a library call that can throw while the
  * arguments are evaluated (`strtolower`, `::from`, the `/1000` division), or
  * bound to a typed constructor parameter, which throws `TypeError` when the
  * JSON kind does not fit. Coercive conversion between scalar kinds is not
  * modelled: a parameter accepts exactly the JSON kind of its PHP type.
  */
module JsonValues {
  import opened Wrappers
  import Php

  datatype Json =
    | JNull
    | JBool(b: bool)
    | JInt(i: int)
    | JFloat(f: real)
    | JStr(s: string)
    | JArray(items: seq<Json>)
    | JObject(props: map<string, Json>)

  /** Why a factory throws: a `TypeError` on a property, or a `ValueError` from `::from`. */
  datatype DecodeError =
    | TypeMismatch(field: string)
    | UnknownCase(field: string)

  /** `$json->k`: the property, or `null` when it is absent. */
  function Prop(props: map<string, Json>, k: string): (v: Json)
    ensures k !in props ==> v == JNull
    ensures k in props ==> v == props[k]
  {
    if k in props then props[k] else JNull
  }

  /** An `int` parameter. */
  function IntField(props: map<string, Json>, k: string): (r: Result<int, DecodeError>)
    ensures r.Success? <==> Prop(props, k).JInt?
    ensures r.Success? ==> Prop(props, k) == JInt(r.value)
    ensures r.Failure? ==> r.error == TypeMismatch(k)
  {
    match Prop(props, k)
    case JInt(n) => Success(n)
    case _ => Failure(TypeMismatch(k))
  }

  /** A `string` parameter. */
  function StringField(props: map<string, Json>, k: string): (r: Result<string, DecodeError>)
    ensures r.Success? <==> Prop(props, k).JStr?
    ensures r.Success? ==> Prop(props, k) == JStr(r.value)
    ensures r.Failure? ==> r.error == TypeMismatch(k)
  {
    match Prop(props, k)
    case JStr(s) => Success(s)
    case _ => Failure(TypeMismatch(k))
  }

  /** A `bool` parameter. */
  function BoolField(props: map<string, Json>, k: string): (r: Result<bool, DecodeError>)
    ensures r.Success? <==> Prop(props, k).JBool?
    ensures r.Success? ==> Prop(props, k) == JBool(r.value)
    ensures r.Failure? ==> r.error == TypeMismatch(k)
  {
    match Prop(props, k)
    case JBool(b) => Success(b)
    case _ => Failure(TypeMismatch(k))
  }

  /** A `?string` parameter fed `$json->k ?? null`, or `$json->k` directly. */
  function OptStringField(props: map<string, Json>, k: string): (r: Result<Option<string>, DecodeError>)
    ensures r == Success(None) <==> Prop(props, k) == JNull
    ensures forall s :: r == Success(Some(s)) <==> Prop(props, k) == JStr(s)
    ensures r.Failure? ==> r.error == TypeMismatch(k)
  {
    match Prop(props, k)
    case JNull => Success(None)
    case JStr(s) => Success(Some(s))
    case _ => Failure(TypeMismatch(k))
  }

  /** A `?int` parameter fed `$json->k ?? null`. */
  function OptIntField(props: map<string, Json>, k: string): (r: Result<Option<int>, DecodeError>)
    ensures r == Success(None) <==> Prop(props, k) == JNull
    ensures forall n :: r == Success(Some(n)) <==> Prop(props, k) == JInt(n)
    ensures r.Failure? ==> r.error == TypeMismatch(k)
  {
    match Prop(props, k)
    case JNull => Success(None)
    case JInt(n) => Success(Some(n))
    case _ => Failure(TypeMismatch(k))
  }

  /** A `?bool` parameter fed `$json->k ?? null`. */
  function OptBoolField(props: map<string, Json>, k: string): (r: Result<Option<bool>, DecodeError>)
    ensures r == Success(None) <==> Prop(props, k) == JNull
    ensures forall b :: r == Success(Some(b)) <==> Prop(props, k) == JBool(b)
    ensures r.Failure? ==> r.error == TypeMismatch(k)
  {
    match Prop(props, k)
    case JNull => Success(None)
    case JBool(b) => Success(Some(b))
    case _ => Failure(TypeMismatch(k))
  }

  /** A `?float` parameter fed `$json->k ?? null`; an integer widens to a float. */
  function OptNumberField(props: map<string, Json>, k: string): (r: Result<Option<real>, DecodeError>)
    ensures r == Success(None) <==> Prop(props, k) == JNull
    ensures r.Success? && r.value.Some? ==>
      Prop(props, k) == JFloat(r.value.value) ||
      (Prop(props, k).JInt? && Prop(props, k).i as real == r.value.value)
    ensures Prop(props, k).JInt? ==> r == Success(Some(Prop(props, k).i as real))
    ensures Prop(props, k).JFloat? ==> r == Success(Some(Prop(props, k).f))
    ensures r.Failure? ==> r.error == TypeMismatch(k)
  {
    match Prop(props, k)
    case JNull => Success(None)
    case JInt(n) => Success(Some(n as real))
    case JFloat(f) => Success(Some(f))
    case _ => Failure(TypeMismatch(k))
  }

  /** A `?array` parameter: a JSON list or `null` (a JSON object decodes to an object, not an array). */
  function OptArrayField(props: map<string, Json>, k: string): (r: Result<Option<seq<Json>>, DecodeError>)
    ensures r == Success(None) <==> Prop(props, k) == JNull
    ensures forall xs :: r == Success(Some(xs)) <==> Prop(props, k) == JArray(xs)
    ensures r.Failure? ==> r.error == TypeMismatch(k)
  {
    match Prop(props, k)
    case JNull => Success(None)
    case JArray(xs) => Success(Some(xs))
    case _ => Failure(TypeMismatch(k))
  }

  /** A `?object` parameter: a JSON object or `null`. */
  function OptObjectField(props: map<string, Json>, k: string): (r: Result<Option<Json>, DecodeError>)
    ensures r == Success(None) <==> Prop(props, k) == JNull
    ensures r.Success? && r.value.Some? ==> r.value.value == Prop(props, k) && Prop(props, k).JObject?
    ensures r.Failure? ==> r.error == TypeMismatch(k)
  {
    match Prop(props, k)
    case JNull => Success(None)
    case JObject(_) => Success(Some(Prop(props, k)))
    case _ => Failure(TypeMismatch(k))
  }

  /**
    * The string a scalar becomes when passed to a library function taking a
    * string (`strtolower`, `::from`): `Some(text)` for a string, `null` (`""`)
    * or a boolean (`"1"`/`""`); `None` stands for the decimal text of a number,
    * which contains a digit and so equals no enum backing string. An array or
    * object throws `TypeError`.
    */
  function TextArg(j: Json, field: string): (r: Result<Option<string>, DecodeError>)
    ensures r.Failure? <==> j.JArray? || j.JObject?
    ensures r.Failure? ==> r.error == TypeMismatch(field)
    ensures j.JStr? ==> r == Success(Some(j.s))
  {
    match j
    case JStr(s) => Success(Some(s))
    case JNull => Success(Some(""))
    case JBool(b) => Success(Some(if b then "1" else ""))
    case JInt(_) => Success(None)
    case JFloat(_) => Success(None)
    case _ => Failure(TypeMismatch(field))
  }

  /** `strtolower($json->k)`: the lower-cased text of the argument. */
  function LowerArg(j: Json, field: string): (r: Result<Option<string>, DecodeError>)
    ensures r.Failure? <==> j.JArray? || j.JObject?
    ensures r.Failure? ==> r.error == TypeMismatch(field)
    ensures j.JStr? ==> r == Success(Some(Php.Lower(j.s)))
    ensures r.Success? && r.value.Some? ==> Php.IsLower(r.value.value)
  {
    var t :- TextArg(j, field);
    Php.LowerIsLowercase(if t.Some? then t.value else "");
    Success(if t.Some? then Some(Php.Lower(t.value)) else None)
  }

  /** The enum case a text argument selects through `tryFrom`; numeric text selects none. */
  function Lookup<E>(text: Option<string>, tryFrom: string -> Option<E>): Option<E> {
    if text.Some? then tryFrom(text.value) else None
  }

  /** `E::from(...)`: the selected case, or a `ValueError` when there is none. */
  function Required<E>(field: string, c: Option<E>): (r: Result<E, DecodeError>)
    ensures r.Success? <==> c.Some?
    ensures r.Success? ==> r.value == c.value
    ensures r.Failure? ==> r.error == UnknownCase(field)
  {
    if c.Some? then Success(c.value) else Failure(UnknownCase(field))
  }

  /**
    * The dividend of `$json->k/1000`, in milliseconds: a number, `null` or an
    * absent property (`0`), a boolean (`0`/`1`), or an integral numeric
    * string (its integer); any other string, array or object throws
    * `TypeError`.
    */
  function MillisArg(j: Json, field: string): (r: Result<real, DecodeError>)
    ensures j.JInt? ==> r == Success(j.i as real)
    ensures j.JFloat? ==> r == Success(j.f)
    ensures j.JNull? ==> r == Success(0.0)
    ensures j.JStr? && Php.ParseInt(j.s).Some? ==> r == Success(Php.ParseInt(j.s).value as real)
    ensures r.Failure? <==> (j.JStr? && Php.ParseInt(j.s).None?) || j.JArray? || j.JObject?
    ensures r.Failure? ==> r.error == TypeMismatch(field)
  {
    match j
    case JInt(n) => Success(n as real)
    case JFloat(f) => Success(f)
    case JNull => Success(0.0)
    case JBool(b) => Success(if b then 1.0 else 0.0)
    case JStr(s) =>
      if Php.ParseInt(s).Some? then Success(Php.ParseInt(s).value as real) else Failure(TypeMismatch(field))
    case _ => Failure(TypeMismatch(field))
  }

  /**
    * `new DateTime('@' . $ms/1000)`: the instant `ms` milliseconds after the
    * Unix epoch (sub-second precision and float rounding are not modelled).
    */
  datatype Instant = Instant(ms: real) {
    /** The Unix timestamp in seconds, `ms/1000`. */
    function EpochSeconds(): (seconds: real)
      ensures seconds * 1000.0 == ms
    {
      ms / 1000.0
    }
  }
}
