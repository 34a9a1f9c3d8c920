/**
  * The PHP backed enum `PageRequestResultType` (src/Rest/Enums/PageRequestResultType.php, cases at lines 12-14).
  * Transaction types reported by a processed page request.
  */
module PageRequestResultTypeEnum {
  import opened Wrappers
  import Php

  datatype PageRequestResultType =
      creditSingle
    | creditRecurring
    | unmanagedRecurring

  /** The backing string of each case (`->value`). */
  function Value(e: PageRequestResultType): string {
    match e
    case creditSingle => "credit_single"
    case creditRecurring => "credit_recurring"
    case unmanagedRecurring => "recur_unmanaged"
  }

  /** The same case table, read from the backing string towards the case. */
  function CaseOf(s: string): Option<PageRequestResultType> {
    match s
    case "credit_single" => Some(creditSingle)
    case "credit_recurring" => Some(creditRecurring)
    case "recur_unmanaged" => Some(unmanagedRecurring)
    case _ => None
  }

  lemma CaseOfInvertsValue()
    ensures forall e: PageRequestResultType :: CaseOf(Value(e)) == Some(e)
  {
    forall e: PageRequestResultType ensures CaseOf(Value(e)) == Some(e) { }
  }

  /** `PageRequestResultType::tryFrom($s)`: the case whose backing string is `s`, or null when there is none. */
  function TryFrom(s: string): (r: Option<PageRequestResultType>)
    ensures r.Some? ==> Value(r.value) == s
    ensures r.None? ==> forall e: PageRequestResultType :: Value(e) != s
  {
    CaseOfInvertsValue();
    var c := CaseOf(s);
    if c.Some? && Value(c.value) == s then c else None
  }

  /** Decoding the backing string of a case gives that case back. */
  lemma RoundTrip(e: PageRequestResultType)
    ensures TryFrom(Value(e)) == Some(e)
  {
    CaseOfInvertsValue();
  }

  /** No two cases share a backing string. */
  lemma ValuesDistinct(a: PageRequestResultType, b: PageRequestResultType)
    ensures Value(a) == Value(b) ==> a == b
  {
    RoundTrip(a);
    RoundTrip(b);
  }

  lemma BackingStringsPlain()
    ensures Php.IsPlainWord("credit_single")
    ensures Php.IsPlainWord("credit_recurring")
    ensures Php.IsPlainWord("recur_unmanaged")
  {
  }

  /** Every backing string is lower-case and contains no digit. */
  lemma ValuesLowercase(e: PageRequestResultType)
    ensures Php.IsLower(Value(e)) && Php.HasNoDigit(Value(e))
  {
    BackingStringsPlain();
    Php.PlainWordIsLower(Value(e));
  }

  /** A string decodes to `none` exactly when it is no case's backing string. */
  lemma UnknownIsNone(s: string)
    ensures TryFrom(s).None? <==> forall e: PageRequestResultType :: Value(e) != s
  {
    if TryFrom(s).Some? {
      RoundTrip(TryFrom(s).value);
    }
  }

  /**
    * Lower-casing the input first, as the decoders do, makes the match
    * case-insensitive: any spelling of a backing string selects its case.
    */
  lemma LowercasedMatch(s: string, e: PageRequestResultType)
    ensures TryFrom(Php.Lower(s)) == Some(e) <==> Php.Lower(s) == Php.Lower(Value(e))
  {
    ValuesLowercase(e);
    Php.LowerKeepsLowercase(Value(e));
    RoundTrip(e);
  }

  /** Decoding goes by backing string, not by case name. */
  lemma MatchesBackingValueNotCaseName()
    ensures TryFrom("recur_unmanaged") == Some(unmanagedRecurring)
    ensures TryFrom("unmanagedRecurring") == None
  {
  }
}
