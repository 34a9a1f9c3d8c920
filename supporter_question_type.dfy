/**
  * The PHP backed enum `SupporterQuestionType` (src/Rest/Enums/SupporterQuestionType.php, cases at lines 12-14).
  * Supporter question types.
  */
module SupporterQuestionTypeEnum {
  import opened Wrappers
  import Php

  datatype SupporterQuestionType =
      conf
    | gen
    | opt

  /** The backing string of each case (`->value`). */
  function Value(e: SupporterQuestionType): string {
    match e
    case conf => "conf"
    case gen => "gen"
    case opt => "opt"
  }

  /** The same case table, read from the backing string towards the case. */
  function CaseOf(s: string): Option<SupporterQuestionType> {
    match s
    case "conf" => Some(conf)
    case "gen" => Some(gen)
    case "opt" => Some(opt)
    case _ => None
  }

  lemma CaseOfInvertsValue()
    ensures forall e: SupporterQuestionType :: CaseOf(Value(e)) == Some(e)
  {
    forall e: SupporterQuestionType ensures CaseOf(Value(e)) == Some(e) { }
  }

  /** `SupporterQuestionType::tryFrom($s)`: the case whose backing string is `s`, or null when there is none. */
  function TryFrom(s: string): (r: Option<SupporterQuestionType>)
    ensures r.Some? ==> Value(r.value) == s
    ensures r.None? ==> forall e: SupporterQuestionType :: Value(e) != s
  {
    CaseOfInvertsValue();
    var c := CaseOf(s);
    if c.Some? && Value(c.value) == s then c else None
  }

  /** Decoding the backing string of a case gives that case back. */
  lemma RoundTrip(e: SupporterQuestionType)
    ensures TryFrom(Value(e)) == Some(e)
  {
    CaseOfInvertsValue();
  }

  /** No two cases share a backing string. */
  lemma ValuesDistinct(a: SupporterQuestionType, b: SupporterQuestionType)
    ensures Value(a) == Value(b) ==> a == b
  {
    RoundTrip(a);
    RoundTrip(b);
  }

  lemma BackingStringsPlain()
    ensures Php.IsPlainWord("conf")
    ensures Php.IsPlainWord("gen")
    ensures Php.IsPlainWord("opt")
  {
  }

  /** Every backing string is lower-case and contains no digit. */
  lemma ValuesLowercase(e: SupporterQuestionType)
    ensures Php.IsLower(Value(e)) && Php.HasNoDigit(Value(e))
  {
    BackingStringsPlain();
    Php.PlainWordIsLower(Value(e));
  }

  /** A string decodes to `none` exactly when it is no case's backing string. */
  lemma UnknownIsNone(s: string)
    ensures TryFrom(s).None? <==> forall e: SupporterQuestionType :: Value(e) != s
  {
    if TryFrom(s).Some? {
      RoundTrip(TryFrom(s).value);
    }
  }

  /**
    * Lower-casing the input first, as the decoders do, makes the match
    * case-insensitive: any spelling of a backing string selects its case.
    */
  lemma LowercasedMatch(s: string, e: SupporterQuestionType)
    ensures TryFrom(Php.Lower(s)) == Some(e) <==> Php.Lower(s) == Php.Lower(Value(e))
  {
    ValuesLowercase(e);
    Php.LowerKeepsLowercase(Value(e));
    RoundTrip(e);
  }

  /** Exactly three strings decode: `conf`, `gen` and `opt`. */
  lemma OnlyThreeValues(s: string)
    ensures TryFrom(s).Some? <==> s == "conf" || s == "gen" || s == "opt"
  {
    RoundTrip(conf);
    RoundTrip(gen);
    RoundTrip(opt);
  }
}
