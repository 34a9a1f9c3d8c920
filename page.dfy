/**
  * The "Page" resource and its factory `Page::fromJson`.
  *
  * The factory evaluates its constructor arguments in order; `strtolower`,
  * `::from`/`::tryFrom` and the `/1000` divisions can throw while they are
  * evaluated, and the typed constructor parameters are checked afterwards,
  * in declaration order. Timestamps are kept as seconds since the epoch.
  */
module PageResource {
  import opened Wrappers
  import opened JsonValues
  import Php
  import PT = PageTypeEnum
  import PS = PageStatusEnum

  datatype Page = Page(
    id: int,
    campaignId: int,
    name: string,
    title: string,
    pageType: PT.PageType,
    subType: Option<PT.PageType>,
    clientId: int,
    createdOn: Instant,
    modifiedOn: Instant,
    campaignBaseUrl: string,
    campaignStatus: PS.PageStatus,
    defaultLocale: string)
  {
    /**
      * `getSubType()` is declared to return a non-nullable PageType, so it
      * throws `TypeError` when the page has no subtype.
      */
    function GetSubType(): (r: Result<PT.PageType, DecodeError>)
      ensures r.Success? <==> subType.Some?
      ensures r.Success? ==> r.value == subType.value
      ensures r.Failure? ==> r.error == TypeMismatch("subType")
    {
      if subType.Some? then Success(subType.value) else Failure(TypeMismatch("subType"))
    }
  }

  /** `PageType::from(strtolower($json->type))`. */
  function RequiredType(j: Json): (r: Result<PT.PageType, DecodeError>)
    ensures r.Success? ==> LowerArg(j, "type") == Success(Some(PT.Value(r.value)))
    ensures j.JStr? ==> (r.Success? <==> exists e :: Php.Lower(j.s) == PT.Value(e))
  {
    var text :- LowerArg(j, "type");
    Required("type", Lookup(text, PT.TryFrom))
  }

  /** `PageType::tryFrom(strtolower($json->subType))`: `None` for an unknown value. */
  function OptionalSubType(j: Json): (r: Result<Option<PT.PageType>, DecodeError>)
    ensures r.Failure? <==> j.JArray? || j.JObject?
    ensures r.Success? && r.value.Some? ==> LowerArg(j, "subType") == Success(Some(PT.Value(r.value.value)))
    ensures j.JStr? ==> (r == Success(None) <==> forall e :: Php.Lower(j.s) != PT.Value(e))
  {
    var text :- LowerArg(j, "subType");
    Success(Lookup(text, PT.TryFrom))
  }

  /** `PageStatus::from($json->campaignStatus)`, without lower-casing. */
  function RequiredStatus(j: Json): (r: Result<PS.PageStatus, DecodeError>)
    ensures r.Success? ==> TextArg(j, "campaignStatus") == Success(Some(PS.Value(r.value)))
    ensures j.JStr? ==> (r.Success? <==> exists e :: j.s == PS.Value(e))
  {
    var text :- TextArg(j, "campaignStatus");
    Required("campaignStatus", Lookup(text, PS.TryFrom))
  }

  /** The constructor arguments computed by a library call, each of which can throw while evaluated. */
  datatype ConvertedArgs = ConvertedArgs(
    pageType: PT.PageType, subType: Option<PT.PageType>,
    createdOn: Instant, modifiedOn: Instant, campaignStatus: PS.PageStatus)

  /** The arguments copied from the JSON, checked against their parameter types. */
  datatype CopiedArgs = CopiedArgs(
    id: int, campaignId: int, name: string, title: string,
    clientId: int, campaignBaseUrl: string, defaultLocale: string)

  /** The converted arguments, in argument order. */
  function Convert(props: map<string, Json>): (r: Result<ConvertedArgs, DecodeError>)
    ensures r.Success? ==>
      RequiredType(Prop(props, "type")) == Success(r.value.pageType) &&
      OptionalSubType(Prop(props, "subType")) == Success(r.value.subType) &&
      MillisArg(Prop(props, "createdOn"), "createdOn") == Success(r.value.createdOn.ms) &&
      MillisArg(Prop(props, "modifiedOn"), "modifiedOn") == Success(r.value.modifiedOn.ms) &&
      RequiredStatus(Prop(props, "campaignStatus")) == Success(r.value.campaignStatus)
  {
    var pageType :- RequiredType(Prop(props, "type"));
    var subType :- OptionalSubType(Prop(props, "subType"));
    var createdMs :- MillisArg(Prop(props, "createdOn"), "createdOn");
    var modifiedMs :- MillisArg(Prop(props, "modifiedOn"), "modifiedOn");
    var status :- RequiredStatus(Prop(props, "campaignStatus"));
    Success(ConvertedArgs(pageType, subType, Instant(createdMs), Instant(modifiedMs), status))
  }

  /** The copied arguments, in parameter order. */
  function Copy(props: map<string, Json>): (r: Result<CopiedArgs, DecodeError>)
    ensures r.Success? ==>
      var c := r.value;
      Prop(props, "id") == JInt(c.id) &&
      Prop(props, "campaignId") == JInt(c.campaignId) &&
      Prop(props, "name") == JStr(c.name) &&
      Prop(props, "title") == JStr(c.title) &&
      Prop(props, "clientId") == JInt(c.clientId) &&
      Prop(props, "campaignBaseUrl") == JStr(c.campaignBaseUrl) &&
      Prop(props, "defaultLocale") == JStr(c.defaultLocale)
    ensures r.Success? <==>
      Prop(props, "id").JInt? && Prop(props, "campaignId").JInt? &&
      Prop(props, "name").JStr? && Prop(props, "title").JStr? &&
      Prop(props, "clientId").JInt? && Prop(props, "campaignBaseUrl").JStr? &&
      Prop(props, "defaultLocale").JStr?
  {
    var id :- IntField(props, "id");
    var campaignId :- IntField(props, "campaignId");
    var name :- StringField(props, "name");
    var title :- StringField(props, "title");
    var clientId :- IntField(props, "clientId");
    var campaignBaseUrl :- StringField(props, "campaignBaseUrl");
    var defaultLocale :- StringField(props, "defaultLocale");
    Success(CopiedArgs(id, campaignId, name, title, clientId, campaignBaseUrl, defaultLocale))
  }

  /**
    * `Page::fromJson($json)`: every conversion error comes before every
    * parameter type error, since arguments are evaluated before the call.
    */
  function FromJson(props: map<string, Json>): (r: Result<Page, DecodeError>)
    ensures r.Success? ==>
      var p := r.value;
      Prop(props, "id") == JInt(p.id) &&
      Prop(props, "campaignId") == JInt(p.campaignId) &&
      Prop(props, "name") == JStr(p.name) &&
      Prop(props, "title") == JStr(p.title) &&
      Prop(props, "clientId") == JInt(p.clientId) &&
      Prop(props, "campaignBaseUrl") == JStr(p.campaignBaseUrl) &&
      Prop(props, "defaultLocale") == JStr(p.defaultLocale)
    ensures r.Success? ==>
      LowerArg(Prop(props, "type"), "type") == Success(Some(PT.Value(r.value.pageType))) &&
      TextArg(Prop(props, "campaignStatus"), "campaignStatus") == Success(Some(PS.Value(r.value.campaignStatus))) &&
      OptionalSubType(Prop(props, "subType")) == Success(r.value.subType)
    ensures r.Success? ==>
      MillisArg(Prop(props, "createdOn"), "createdOn") == Success(r.value.createdOn.ms) &&
      MillisArg(Prop(props, "modifiedOn"), "modifiedOn") == Success(r.value.modifiedOn.ms)
    ensures Convert(props).Failure? ==> r == Failure(Convert(props).error)
  {
    var a :- Convert(props);
    var c :- Copy(props);
    Success(Page(c.id, c.campaignId, c.name, c.title, a.pageType, a.subType, c.clientId,
      a.createdOn, a.modifiedOn, c.campaignBaseUrl, a.campaignStatus, c.defaultLocale))
  }

  /** The JSON a well-formed page carries: every typed property of its PHP kind. */
  predicate WellTyped(props: map<string, Json>) {
    Prop(props, "id").JInt? && Prop(props, "campaignId").JInt? &&
    Prop(props, "name").JStr? && Prop(props, "title").JStr? &&
    Prop(props, "clientId").JInt? && Prop(props, "campaignBaseUrl").JStr? &&
    Prop(props, "defaultLocale").JStr? &&
    Prop(props, "createdOn").JInt? && Prop(props, "modifiedOn").JInt?
  }

  /**
    * A well-typed page whose type matches a PageType in any letter case, whose
    * status is exactly a PageStatus backing string and whose subtype is a
    * string decodes, and the subtype is the case-insensitive match or null.
    */
  lemma WellFormedPageDecodes(props: map<string, Json>, t: PT.PageType, s: PS.PageStatus, sub: string)
    requires WellTyped(props)
    requires Prop(props, "type").JStr? && Php.Lower(Prop(props, "type").s) == PT.Value(t)
    requires Prop(props, "campaignStatus") == JStr(PS.Value(s))
    requires Prop(props, "subType") == JStr(sub)
    ensures FromJson(props).Success?
    ensures FromJson(props).value.pageType == t
    ensures FromJson(props).value.campaignStatus == s
    ensures FromJson(props).value.subType == PT.TryFrom(Php.Lower(sub))
    ensures FromJson(props).value.createdOn.EpochSeconds() == Prop(props, "createdOn").i as real / 1000.0
  {
    PT.RoundTrip(t);
    PS.RoundTrip(s);
  }

  /** A page type outside the table fails with `ValueError`, whatever else the JSON holds. */
  lemma UnknownTypeFails(props: map<string, Json>, s: string)
    requires Prop(props, "type") == JStr(s)
    requires forall e :: Php.Lower(s) != PT.Value(e)
    ensures FromJson(props) == Failure(UnknownCase("type"))
  {
  }

  /** A campaign status spelled in another letter case is rejected, since it is not lower-cased. */
  lemma RecasedStatusFails(props: map<string, Json>)
    requires Prop(props, "type") == JStr("dcf") && Prop(props, "subType") == JNull
    requires Prop(props, "createdOn").JInt? && Prop(props, "modifiedOn").JInt?
    requires Prop(props, "campaignStatus") == JStr("Live")
    ensures FromJson(props) == Failure(UnknownCase("campaignStatus"))
  {
    PS.DifferentlyCasedStatusIsUnknown();
    PT.RoundTrip(PT.dcf);
  }

  /** A missing timestamp reads as `null`, that is the epoch itself. */
  lemma MissingTimestampIsEpoch(props: map<string, Json>)
    requires FromJson(props).Success?
    requires "createdOn" !in props
    ensures FromJson(props).value.createdOn.EpochSeconds() == 0.0
  {
  }
}
