/**
  * A supporter question and its two factories. `fromJson` builds a summary
  * from the four-argument constructor; `fromDetailJson` passes all eight
  * arguments. The constructor sets `hasDetails` from the argument count, so a
  * question built with details keeps that flag even when every detail value
  * is null; here the details are an optional record.
  */
module SupporterQuestionResource {
  import opened Wrappers
  import opened JsonValues
  import Php
  import QT = SupporterQuestionTypeEnum
  import HT = SupporterQuestionHtmlFieldTypeEnum

  /** The values only `fromDetailJson` loads; `content` is an uninterpreted JSON object. */
  datatype Details = Details(
    locale: Option<string>,
    labelText: Option<string>,
    htmlFieldType: Option<HT.SupporterQuestionHtmlFieldType>,
    content: Option<Json>)

  datatype SupporterQuestion = SupporterQuestion(
    id: int,
    questionId: int,
    name: string,
    questionType: QT.SupporterQuestionType,
    details: Option<Details>)
  {
    /** `hasDetails()`: whether the constructor received more than four arguments. */
    predicate HasDetails() {
      details.Some?
    }

    /** `getLocale()`: null on a summary. */
    function GetLocale(): (r: Option<string>)
      ensures !HasDetails() ==> r.None?
      ensures HasDetails() ==> r == details.value.locale
    {
      if details.Some? then details.value.locale else None
    }

    /** `getLabel()`: null on a summary. */
    function GetLabel(): (r: Option<string>)
      ensures !HasDetails() ==> r.None?
      ensures HasDetails() ==> r == details.value.labelText
    {
      if details.Some? then details.value.labelText else None
    }

    /** `getHtmlFieldType()`: null on a summary. */
    function GetHtmlFieldType(): (r: Option<HT.SupporterQuestionHtmlFieldType>)
      ensures !HasDetails() ==> r.None?
      ensures HasDetails() ==> r == details.value.htmlFieldType
    {
      if details.Some? then details.value.htmlFieldType else None
    }

    /** `getContent()`: null on a summary. */
    function GetContent(): (r: Option<Json>)
      ensures !HasDetails() ==> r.None?
      ensures HasDetails() ==> r == details.value.content
    {
      if details.Some? then details.value.content else None
    }
  }

  /** `SupporterQuestionType::from(strtolower($json->type))`. */
  function RequiredType(j: Json): (r: Result<QT.SupporterQuestionType, DecodeError>)
    ensures r.Success? ==> LowerArg(j, "type") == Success(Some(QT.Value(r.value)))
    ensures j.JStr? ==> (r.Success? <==> exists e :: Php.Lower(j.s) == QT.Value(e))
  {
    var text :- LowerArg(j, "type");
    Required("type", Lookup(text, QT.TryFrom))
  }

  /** `SupporterQuestionHtmlFieldType::tryFrom(strtolower($json->htmlFieldType))`. */
  function OptionalHtmlFieldType(j: Json): (r: Result<Option<HT.SupporterQuestionHtmlFieldType>, DecodeError>)
    ensures r.Failure? <==> j.JArray? || j.JObject?
    ensures j.JStr? ==> r == Success(HT.TryFrom(Php.Lower(j.s)))
    ensures r.Success? && r.value.Some? ==> LowerArg(j, "htmlFieldType") == Success(Some(HT.Value(r.value.value)))
  {
    var text :- LowerArg(j, "htmlFieldType");
    Success(Lookup(text, HT.TryFrom))
  }

  /** `id`, `questionId` and `name`, the parameters both factories copy. */
  datatype Identity = Identity(id: int, questionId: int, name: string)

  function ReadIdentity(props: map<string, Json>): (r: Result<Identity, DecodeError>)
    ensures r.Success? <==> Prop(props, "id").JInt? && Prop(props, "questionId").JInt? && Prop(props, "name").JStr?
    ensures r.Success? ==>
      Prop(props, "id") == JInt(r.value.id) &&
      Prop(props, "questionId") == JInt(r.value.questionId) &&
      Prop(props, "name") == JStr(r.value.name)
  {
    var id :- IntField(props, "id");
    var questionId :- IntField(props, "questionId");
    var name :- StringField(props, "name");
    Success(Identity(id, questionId, name))
  }

  /** `SupporterQuestion::fromJson($json)`: a summary, with no details. */
  function FromJson(props: map<string, Json>): (r: Result<SupporterQuestion, DecodeError>)
    ensures r.Success? ==> !r.value.HasDetails()
    ensures r.Success? ==> RequiredType(Prop(props, "type")) == Success(r.value.questionType)
    ensures r.Success? ==> ReadIdentity(props) == Success(Identity(r.value.id, r.value.questionId, r.value.name))
    ensures r.Success? <==> RequiredType(Prop(props, "type")).Success? && ReadIdentity(props).Success?
  {
    var questionType :- RequiredType(Prop(props, "type"));
    var ident :- ReadIdentity(props);
    Success(SupporterQuestion(ident.id, ident.questionId, ident.name, questionType, None))
  }

  /** `SupporterQuestion::fromDetailJson($json)`: a question with details, whatever their values. */
  function FromDetailJson(props: map<string, Json>): (r: Result<SupporterQuestion, DecodeError>)
    ensures r.Success? ==> r.value.HasDetails()
    ensures r.Success? ==> RequiredType(Prop(props, "type")) == Success(r.value.questionType)
    ensures r.Success? ==> ReadIdentity(props) == Success(Identity(r.value.id, r.value.questionId, r.value.name))
    ensures r.Success? ==>
      var d := r.value.details.value;
      OptStringField(props, "locale") == Success(d.locale) &&
      OptStringField(props, "label") == Success(d.labelText) &&
      OptionalHtmlFieldType(Prop(props, "htmlFieldType")) == Success(d.htmlFieldType) &&
      OptObjectField(props, "content") == Success(d.content)
  {
    var questionType :- RequiredType(Prop(props, "type"));
    var htmlFieldType :- OptionalHtmlFieldType(Prop(props, "htmlFieldType"));
    var ident :- ReadIdentity(props);
    var locale :- OptStringField(props, "locale");
    var labelText :- OptStringField(props, "label");
    var content :- OptObjectField(props, "content");
    Success(SupporterQuestion(ident.id, ident.questionId, ident.name, questionType,
      Some(Details(locale, labelText, htmlFieldType, content))))
  }

  /**
    * The two factories agree on what they share: whenever the detail factory
    * succeeds, the summary factory succeeds too, with the same id, question
    * id, name and type, and differs only in carrying no details.
    */
  lemma DetailExtendsSummary(props: map<string, Json>)
    requires FromDetailJson(props).Success?
    ensures FromJson(props).Success?
    ensures FromJson(props).value == FromDetailJson(props).value.(details := None)
  {
  }

  /** A detail question whose detail properties are all missing still has details, all null. */
  lemma NullDetailsStillCount(props: map<string, Json>)
    requires FromDetailJson(props).Success?
    requires "locale" !in props && "label" !in props && "htmlFieldType" !in props && "content" !in props
    ensures FromDetailJson(props).value.HasDetails()
    ensures FromDetailJson(props).value.details == Some(Details(None, None, None, None))
  {
  }

  /** The question type is matched case-insensitively; `DetailExtendsSummary` carries this to the detail factory. */
  lemma TypeMatchedCaseInsensitively(props: map<string, Json>, s: string, e: QT.SupporterQuestionType)
    requires Prop(props, "type") == JStr(s)
    requires ReadIdentity(props).Success?
    ensures FromJson(props).Success? && FromJson(props).value.questionType == e <==> Php.Lower(s) == QT.Value(e)
  {
    QT.LowercasedMatch(s, e);
    QT.ValuesLowercase(e);
    Php.LowerKeepsLowercase(QT.Value(e));
    if Php.Lower(s) == QT.Value(e) {
      QT.RoundTrip(e);
    }
  }

  /** A question type outside `conf`, `gen` and `opt` fails both factories with `ValueError`. */
  lemma UnknownTypeFails(props: map<string, Json>, s: string)
    requires Prop(props, "type") == JStr(s)
    requires forall e :: Php.Lower(s) != QT.Value(e)
    ensures FromJson(props) == Failure(UnknownCase("type"))
    ensures FromDetailJson(props) == Failure(UnknownCase("type"))
  {
  }
}
