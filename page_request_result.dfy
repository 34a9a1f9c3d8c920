/**
  * The result of processing a page request and its factory
  * `PageRequestResult::fromJson`.
  *
  * `status` is required; `type`, `paymentType`, `recurringFrequency` and
  * `createdOn` are read only when the property exists (`property_exists`), the
  * remaining optional scalars through `?? null`. Enum inputs are lower-cased
  * before `::from`/`::tryFrom`.
  */
module PageRequestResultResource {
  import opened Wrappers
  import opened JsonValues
  import Php
  import St = PageRequestResultStatusEnum
  import Ty = PageRequestResultTypeEnum
  import Pay = PaymentTypeEnum
  import Freq = RecurringFrequencyEnum

  datatype PageRequestResult = PageRequestResult(
    id: int,
    status: St.PageRequestResultStatus,
    supporterId: int,
    supporterEmailAddress: string,
    resultType: Option<Ty.PageRequestResultType>,
    transactionId: Option<string>,
    error: Option<string>,
    amount: Option<real>,
    currency: Option<string>,
    recurringPayment: Option<bool>,
    paymentType: Option<Pay.PaymentType>,
    recurringFrequency: Option<Freq.RecurringFrequency>,
    recurringDay: Option<int>,
    createdOn: Option<Instant>)

  /**
    * `property_exists($json, k) ? E::tryFrom(strtolower($json->k)) : null`:
    * null when the property is absent or selects no case.
    */
  function OptionalCase<E>(props: map<string, Json>, k: string, tryFrom: string -> Option<E>): (r: Result<Option<E>, DecodeError>)
    ensures k !in props ==> r == Success(None)
    ensures r.Failure? <==> k in props && (props[k].JArray? || props[k].JObject?)
    ensures r.Failure? ==> r.error == TypeMismatch(k)
    ensures k in props && props[k].JStr? ==> r == Success(tryFrom(Php.Lower(props[k].s)))
  {
    if k in props then
      var text :- LowerArg(props[k], k);
      Success(Lookup(text, tryFrom))
    else Success(None)
  }

  /** `property_exists($json, 'createdOn') ? new DateTime('@' . $json->createdOn/1000) : null`. */
  function OptionalTimestamp(props: map<string, Json>, k: string): (r: Result<Option<Instant>, DecodeError>)
    ensures k !in props ==> r == Success(None)
    ensures k in props && r.Success? ==> r.value.Some? && MillisArg(props[k], k) == Success(r.value.value.ms)
    ensures r.Failure? <==> k in props && MillisArg(props[k], k).Failure?
  {
    if k in props then
      var ms :- MillisArg(props[k], k);
      Success(Some(Instant(ms)))
    else Success(None)
  }

  /** `PageRequestResultStatus::from(strtolower($json->status))`. */
  function RequiredStatus(j: Json): (r: Result<St.PageRequestResultStatus, DecodeError>)
    ensures r.Success? ==> LowerArg(j, "status") == Success(Some(St.Value(r.value)))
    ensures j.JStr? ==> (r.Success? <==> exists e :: Php.Lower(j.s) == St.Value(e))
  {
    var text :- LowerArg(j, "status");
    Required("status", Lookup(text, St.TryFrom))
  }

  /** The constructor arguments computed by a library call, each of which can throw while evaluated. */
  datatype ConvertedArgs = ConvertedArgs(
    status: St.PageRequestResultStatus,
    resultType: Option<Ty.PageRequestResultType>,
    paymentType: Option<Pay.PaymentType>,
    recurringFrequency: Option<Freq.RecurringFrequency>,
    createdOn: Option<Instant>)

  /** The arguments read through `?? null`, checked against their nullable parameter types. */
  datatype OptionalArgs = OptionalArgs(
    transactionId: Option<string>,
    error: Option<string>,
    amount: Option<real>,
    currency: Option<string>,
    recurringPayment: Option<bool>,
    recurringDay: Option<int>)

  /** The converted arguments, in argument order. */
  function Convert(props: map<string, Json>): (r: Result<ConvertedArgs, DecodeError>)
    ensures r.Success? ==>
      RequiredStatus(Prop(props, "status")) == Success(r.value.status) &&
      OptionalCase(props, "type", Ty.TryFrom) == Success(r.value.resultType) &&
      OptionalCase(props, "paymentType", Pay.TryFrom) == Success(r.value.paymentType) &&
      OptionalCase(props, "recurringFrequency", Freq.TryFrom) == Success(r.value.recurringFrequency) &&
      OptionalTimestamp(props, "createdOn") == Success(r.value.createdOn)
    ensures RequiredStatus(Prop(props, "status")).Failure? ==> r == Failure(RequiredStatus(Prop(props, "status")).error)
  {
    var status :- RequiredStatus(Prop(props, "status"));
    var resultType :- OptionalCase(props, "type", Ty.TryFrom);
    var paymentType :- OptionalCase(props, "paymentType", Pay.TryFrom);
    var recurringFrequency :- OptionalCase(props, "recurringFrequency", Freq.TryFrom);
    var createdOn :- OptionalTimestamp(props, "createdOn");
    Success(ConvertedArgs(status, resultType, paymentType, recurringFrequency, createdOn))
  }

  /** The `?? null` arguments, in parameter order: each `null` exactly when absent or `null`, otherwise copied. */
  function ReadOptionals(props: map<string, Json>): (r: Result<OptionalArgs, DecodeError>)
    ensures r.Success? ==>
      var o := r.value;
      (o.transactionId.None? <==> Prop(props, "transactionId") == JNull) &&
      (o.transactionId.Some? ==> Prop(props, "transactionId") == JStr(o.transactionId.value)) &&
      (o.error.None? <==> Prop(props, "error") == JNull) &&
      (o.error.Some? ==> Prop(props, "error") == JStr(o.error.value)) &&
      (o.currency.None? <==> Prop(props, "currency") == JNull) &&
      (o.currency.Some? ==> Prop(props, "currency") == JStr(o.currency.value)) &&
      (o.recurringPayment.None? <==> Prop(props, "recurringPayment") == JNull) &&
      (o.recurringPayment.Some? ==> Prop(props, "recurringPayment") == JBool(o.recurringPayment.value)) &&
      (o.recurringDay.None? <==> Prop(props, "recurringDay") == JNull) &&
      (o.recurringDay.Some? ==> Prop(props, "recurringDay") == JInt(o.recurringDay.value)) &&
      (o.amount.None? <==> Prop(props, "amount") == JNull) &&
      (o.amount.Some? ==> OptNumberField(props, "amount") == Success(o.amount))
    ensures r.Success? <==> OptionalsWellTyped(props)
  {
    var transactionId :- OptStringField(props, "transactionId");
    var error :- OptStringField(props, "error");
    var amount :- OptNumberField(props, "amount");
    var currency :- OptStringField(props, "currency");
    var recurringPayment :- OptBoolField(props, "recurringPayment");
    var recurringDay :- OptIntField(props, "recurringDay");
    Success(OptionalArgs(transactionId, error, amount, currency, recurringPayment, recurringDay))
  }

  /**
    * `PageRequestResult::fromJson($json)`: conversions first, in argument
    * order, then the required and the `?? null` parameters.
    */
  function FromJson(props: map<string, Json>): (r: Result<PageRequestResult, DecodeError>)
    ensures r.Success? ==>
      var p := r.value;
      Prop(props, "id") == JInt(p.id) &&
      Prop(props, "supporterId") == JInt(p.supporterId) &&
      Prop(props, "supporterEmailAddress") == JStr(p.supporterEmailAddress) &&
      LowerArg(Prop(props, "status"), "status") == Success(Some(St.Value(p.status)))
    ensures r.Success? ==>
      var p := r.value;
      ReadOptionals(props) == Success(OptionalArgs(p.transactionId, p.error, p.amount, p.currency, p.recurringPayment, p.recurringDay))
    ensures r.Success? ==>
      var p := r.value;
      OptionalCase(props, "type", Ty.TryFrom) == Success(p.resultType) &&
      OptionalCase(props, "paymentType", Pay.TryFrom) == Success(p.paymentType) &&
      OptionalCase(props, "recurringFrequency", Freq.TryFrom) == Success(p.recurringFrequency) &&
      OptionalTimestamp(props, "createdOn") == Success(p.createdOn)
    ensures RequiredStatus(Prop(props, "status")).Failure? ==> r == Failure(RequiredStatus(Prop(props, "status")).error)
  {
    var a :- Convert(props);
    var id :- IntField(props, "id");
    var supporterId :- IntField(props, "supporterId");
    var supporterEmailAddress :- StringField(props, "supporterEmailAddress");
    var o :- ReadOptionals(props);
    Success(PageRequestResult(id, a.status, supporterId, supporterEmailAddress, a.resultType,
      o.transactionId, o.error, o.amount, o.currency, o.recurringPayment, a.paymentType,
      a.recurringFrequency, o.recurringDay, a.createdOn))
  }

  /** The required properties of a result, of their PHP kinds. */
  predicate RequiredPresent(props: map<string, Json>) {
    Prop(props, "id").JInt? && Prop(props, "supporterId").JInt? &&
    Prop(props, "supporterEmailAddress").JStr?
  }

  /** The `?? null` properties: each absent, `null` or of its PHP kind. */
  predicate OptionalsWellTyped(props: map<string, Json>) {
    OptStringField(props, "transactionId").Success? &&
    OptStringField(props, "error").Success? &&
    OptNumberField(props, "amount").Success? &&
    OptStringField(props, "currency").Success? &&
    OptBoolField(props, "recurringPayment").Success? &&
    OptIntField(props, "recurringDay").Success?
  }

  /**
    * With well-typed properties and a `createdOn` that divides, the status
    * decides success: a status matching a case in any letter case decodes,
    * the three optional enums are matched case-insensitively (null when their
    * text selects no case), and `createdOn` is the instant it denotes.
    */
  lemma CaseInsensitiveDecoding(props: map<string, Json>, st: string, ty: string, pay: string, freq: string)
    requires RequiredPresent(props) && OptionalsWellTyped(props)
    requires Prop(props, "status") == JStr(st)
    requires "type" in props && props["type"] == JStr(ty)
    requires "paymentType" in props && props["paymentType"] == JStr(pay)
    requires "recurringFrequency" in props && props["recurringFrequency"] == JStr(freq)
    requires OptionalTimestamp(props, "createdOn").Success?
    ensures FromJson(props).Success? <==> St.TryFrom(Php.Lower(st)).Some?
    ensures FromJson(props).Success? ==>
      var p := FromJson(props).value;
      Some(p.status) == St.TryFrom(Php.Lower(st)) &&
      p.resultType == Ty.TryFrom(Php.Lower(ty)) &&
      p.paymentType == Pay.TryFrom(Php.Lower(pay)) &&
      p.recurringFrequency == Freq.TryFrom(Php.Lower(freq)) &&
      p.createdOn == OptionalTimestamp(props, "createdOn").value
  {
    if St.TryFrom(Php.Lower(st)).Some? {
      St.RoundTrip(St.TryFrom(Php.Lower(st)).value);
    }
  }

  /** A status outside `success` / `error` fails with `ValueError`, whatever else the JSON holds. */
  lemma UnknownStatusFails(props: map<string, Json>, st: string)
    requires Prop(props, "status") == JStr(st)
    requires Php.Lower(st) != "success" && Php.Lower(st) != "error"
    ensures FromJson(props) == Failure(UnknownCase("status"))
  {
    St.OnlyTwoValues(Php.Lower(st));
  }

  /** Each mixed-case spelling below, lower-cased, is a backing string. */
  lemma SuccessSpelling()
    ensures St.TryFrom(Php.Lower("SUCCESS")) == Some(St.success)
  {
    Php.LowerSuccess();
    St.RoundTrip(St.success);
  }

  lemma CreditSingleSpelling()
    ensures Ty.TryFrom(Php.Lower("CREDIT_SINGLE")) == Some(Ty.creditSingle)
  {
    Php.LowerCreditSingle();
    Ty.RoundTrip(Ty.creditSingle);
  }

  lemma VisaSpelling()
    ensures Pay.TryFrom(Php.Lower("Visa")) == Some(Pay.visa)
  {
    Php.LowerVisa();
    Pay.RoundTrip(Pay.visa);
  }

  lemma MonthlySpelling()
    ensures Freq.TryFrom(Php.Lower("Monthly")) == Some(Freq.monthly)
  {
    Php.LowerMonthly();
    Freq.RoundTrip(Freq.monthly);
  }

  /** A processed donation reported in mixed letter case decodes to `success`, `creditSingle`, `visa` and `monthly`. */
  lemma MixedCaseDonationDecodes(props: map<string, Json>)
    requires RequiredPresent(props) && OptionalsWellTyped(props) && "createdOn" !in props
    requires Prop(props, "status") == JStr("SUCCESS")
    requires "type" in props && props["type"] == JStr("CREDIT_SINGLE")
    requires "paymentType" in props && props["paymentType"] == JStr("Visa")
    requires "recurringFrequency" in props && props["recurringFrequency"] == JStr("Monthly")
    ensures FromJson(props).Success?
    ensures FromJson(props).value.status == St.success
    ensures FromJson(props).value.resultType == Some(Ty.creditSingle)
    ensures FromJson(props).value.paymentType == Some(Pay.visa)
    ensures FromJson(props).value.recurringFrequency == Some(Freq.monthly)
  {
    CaseInsensitiveDecoding(props, "SUCCESS", "CREDIT_SINGLE", "Visa", "Monthly");
    SuccessSpelling();
    CreditSingleSpelling();
    VisaSpelling();
    MonthlySpelling();
  }

  /** A present `createdOn` of `null` is the epoch, not an absent timestamp. */
  lemma NullCreatedOnIsEpoch(props: map<string, Json>)
    requires "createdOn" in props && props["createdOn"] == JNull
    requires FromJson(props).Success?
    ensures FromJson(props).value.createdOn == Some(Instant(0.0))
  {
  }
}
