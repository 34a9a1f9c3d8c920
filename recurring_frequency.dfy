/**
  * The PHP backed enum `RecurringFrequency` (src/Rest/Enums/RecurringFrequency.php, cases at lines 12-16).
  * Recurring-gift frequencies reported by a processed page request.
  */
module RecurringFrequencyEnum {
  import opened Wrappers
  import Php

  datatype RecurringFrequency =
      annual
    | daily
    | monthly
    | quarterly
    | semiAnnual

  /** The backing string of each case (`->value`). */
  function Value(e: RecurringFrequency): string {
    match e
    case annual => "annual"
    case daily => "daily"
    case monthly => "monthly"
    case quarterly => "quarterly"
    case semiAnnual => "semi_annual"
  }

  /** The same case table, read from the backing string towards the case. */
  function CaseOf(s: string): Option<RecurringFrequency> {
    match s
    case "annual" => Some(annual)
    case "daily" => Some(daily)
    case "monthly" => Some(monthly)
    case "quarterly" => Some(quarterly)
    case "semi_annual" => Some(semiAnnual)
    case _ => None
  }

  lemma CaseOfInvertsValue()
    ensures forall e: RecurringFrequency :: CaseOf(Value(e)) == Some(e)
  {
    forall e: RecurringFrequency ensures CaseOf(Value(e)) == Some(e) { }
  }

  /** `RecurringFrequency::tryFrom($s)`: the case whose backing string is `s`, or null when there is none. */
  function TryFrom(s: string): (r: Option<RecurringFrequency>)
    ensures r.Some? ==> Value(r.value) == s
    ensures r.None? ==> forall e: RecurringFrequency :: Value(e) != s
  {
    CaseOfInvertsValue();
    var c := CaseOf(s);
    if c.Some? && Value(c.value) == s then c else None
  }

  /** Decoding the backing string of a case gives that case back. */
  lemma RoundTrip(e: RecurringFrequency)
    ensures TryFrom(Value(e)) == Some(e)
  {
    CaseOfInvertsValue();
  }

  /** No two cases share a backing string. */
  lemma ValuesDistinct(a: RecurringFrequency, b: RecurringFrequency)
    ensures Value(a) == Value(b) ==> a == b
  {
    RoundTrip(a);
    RoundTrip(b);
  }

  lemma BackingStringsPlain()
    ensures Php.IsPlainWord("annual")
    ensures Php.IsPlainWord("daily")
    ensures Php.IsPlainWord("monthly")
    ensures Php.IsPlainWord("quarterly")
    ensures Php.IsPlainWord("semi_annual")
  {
  }

  /** Every backing string is lower-case and contains no digit. */
  lemma ValuesLowercase(e: RecurringFrequency)
    ensures Php.IsLower(Value(e)) && Php.HasNoDigit(Value(e))
  {
    BackingStringsPlain();
    Php.PlainWordIsLower(Value(e));
  }

  /** A string decodes to `none` exactly when it is no case's backing string. */
  lemma UnknownIsNone(s: string)
    ensures TryFrom(s).None? <==> forall e: RecurringFrequency :: Value(e) != s
  {
    if TryFrom(s).Some? {
      RoundTrip(TryFrom(s).value);
    }
  }

  /**
    * Lower-casing the input first, as the decoders do, makes the match
    * case-insensitive: any spelling of a backing string selects its case.
    */
  lemma LowercasedMatch(s: string, e: RecurringFrequency)
    ensures TryFrom(Php.Lower(s)) == Some(e) <==> Php.Lower(s) == Php.Lower(Value(e))
  {
    ValuesLowercase(e);
    Php.LowerKeepsLowercase(Value(e));
    RoundTrip(e);
  }

  /** Decoding goes by backing string, not by case name. */
  lemma SemiAnnualByBackingValue()
    ensures TryFrom("semi_annual") == Some(semiAnnual)
    ensures TryFrom("semiAnnual") == None
  {
  }
}
