/**
  * The PHP backed enum `SupporterQuestionHtmlFieldType` (src/Rest/Enums/SupporterQuestionHtmlFieldType.php, cases at lines 12-21).
  * HTML field types of a supporter question.
  */
module SupporterQuestionHtmlFieldTypeEnum {
  import opened Wrappers
  import Php

  datatype SupporterQuestionHtmlFieldType =
      calendar
    | checkbox
    | hidden
    | imgselect
    | password
    | radio
    | select
    | telephone
    | text
    | textarea

  /** The backing string of each case (`->value`). */
  function Value(e: SupporterQuestionHtmlFieldType): string {
    match e
    case calendar => "calendar"
    case checkbox => "checkbox"
    case hidden => "hidden"
    case imgselect => "imgselect"
    case password => "password"
    case radio => "radio"
    case select => "select"
    case telephone => "telephone"
    case text => "text"
    case textarea => "textarea"
  }

  /** The same case table, read from the backing string towards the case. */
  function CaseOf(s: string): Option<SupporterQuestionHtmlFieldType> {
    match s
    case "calendar" => Some(calendar)
    case "checkbox" => Some(checkbox)
    case "hidden" => Some(hidden)
    case "imgselect" => Some(imgselect)
    case "password" => Some(password)
    case "radio" => Some(radio)
    case "select" => Some(select)
    case "telephone" => Some(telephone)
    case "text" => Some(text)
    case "textarea" => Some(textarea)
    case _ => None
  }

  lemma CaseOfInvertsValue()
    ensures forall e: SupporterQuestionHtmlFieldType :: CaseOf(Value(e)) == Some(e)
  {
    forall e: SupporterQuestionHtmlFieldType ensures CaseOf(Value(e)) == Some(e) { }
  }

  /** `SupporterQuestionHtmlFieldType::tryFrom($s)`: the case whose backing string is `s`, or null when there is none. */
  function TryFrom(s: string): (r: Option<SupporterQuestionHtmlFieldType>)
    ensures r.Some? ==> Value(r.value) == s
    ensures r.None? ==> forall e: SupporterQuestionHtmlFieldType :: Value(e) != s
  {
    CaseOfInvertsValue();
    var c := CaseOf(s);
    if c.Some? && Value(c.value) == s then c else None
  }

  /** Decoding the backing string of a case gives that case back. */
  lemma RoundTrip(e: SupporterQuestionHtmlFieldType)
    ensures TryFrom(Value(e)) == Some(e)
  {
    CaseOfInvertsValue();
  }

  /** No two cases share a backing string. */
  lemma ValuesDistinct(a: SupporterQuestionHtmlFieldType, b: SupporterQuestionHtmlFieldType)
    ensures Value(a) == Value(b) ==> a == b
  {
    RoundTrip(a);
    RoundTrip(b);
  }

  lemma BackingStringsPlain1()
    ensures Php.IsPlainWord("calendar")
    ensures Php.IsPlainWord("checkbox")
    ensures Php.IsPlainWord("hidden")
    ensures Php.IsPlainWord("imgselect")
    ensures Php.IsPlainWord("password")
    ensures Php.IsPlainWord("radio")
    ensures Php.IsPlainWord("select")
    ensures Php.IsPlainWord("telephone")
  {
  }

  lemma BackingStringsPlain2()
    ensures Php.IsPlainWord("text")
    ensures Php.IsPlainWord("textarea")
  {
  }

  /** Every backing string is lower-case and contains no digit. */
  lemma ValuesLowercase(e: SupporterQuestionHtmlFieldType)
    ensures Php.IsLower(Value(e)) && Php.HasNoDigit(Value(e))
  {
    BackingStringsPlain1();
    BackingStringsPlain2();
    Php.PlainWordIsLower(Value(e));
  }

  /** A string decodes to `none` exactly when it is no case's backing string. */
  lemma UnknownIsNone(s: string)
    ensures TryFrom(s).None? <==> forall e: SupporterQuestionHtmlFieldType :: Value(e) != s
  {
    if TryFrom(s).Some? {
      RoundTrip(TryFrom(s).value);
    }
  }

  /**
    * Lower-casing the input first, as the decoders do, makes the match
    * case-insensitive: any spelling of a backing string selects its case.
    */
  lemma LowercasedMatch(s: string, e: SupporterQuestionHtmlFieldType)
    ensures TryFrom(Php.Lower(s)) == Some(e) <==> Php.Lower(s) == Php.Lower(Value(e))
  {
    ValuesLowercase(e);
    Php.LowerKeepsLowercase(Value(e));
    RoundTrip(e);
  }
}
