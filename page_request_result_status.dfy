/**
  * The PHP backed enum `PageRequestResultStatus` (src/Rest/Enums/PageRequestResultStatus.php, cases at lines 12-13).
  * The two outcomes of a processed page request.
  */
module PageRequestResultStatusEnum {
  import opened Wrappers
  import Php

  datatype PageRequestResultStatus =
      success
    | error

  /** The backing string of each case (`->value`). */
  function Value(e: PageRequestResultStatus): string {
    match e
    case success => "success"
    case error => "error"
  }

  /** The same case table, read from the backing string towards the case. */
  function CaseOf(s: string): Option<PageRequestResultStatus> {
    match s
    case "success" => Some(success)
    case "error" => Some(error)
    case _ => None
  }

  lemma CaseOfInvertsValue()
    ensures forall e: PageRequestResultStatus :: CaseOf(Value(e)) == Some(e)
  {
    forall e: PageRequestResultStatus ensures CaseOf(Value(e)) == Some(e) { }
  }

  /** `PageRequestResultStatus::tryFrom($s)`: the case whose backing string is `s`, or null when there is none. */
  function TryFrom(s: string): (r: Option<PageRequestResultStatus>)
    ensures r.Some? ==> Value(r.value) == s
    ensures r.None? ==> forall e: PageRequestResultStatus :: Value(e) != s
  {
    CaseOfInvertsValue();
    var c := CaseOf(s);
    if c.Some? && Value(c.value) == s then c else None
  }

  /** Decoding the backing string of a case gives that case back. */
  lemma RoundTrip(e: PageRequestResultStatus)
    ensures TryFrom(Value(e)) == Some(e)
  {
    CaseOfInvertsValue();
  }

  /** No two cases share a backing string. */
  lemma ValuesDistinct(a: PageRequestResultStatus, b: PageRequestResultStatus)
    ensures Value(a) == Value(b) ==> a == b
  {
    RoundTrip(a);
    RoundTrip(b);
  }

  lemma BackingStringsPlain()
    ensures Php.IsPlainWord("success")
    ensures Php.IsPlainWord("error")
  {
  }

  /** Every backing string is lower-case and contains no digit. */
  lemma ValuesLowercase(e: PageRequestResultStatus)
    ensures Php.IsLower(Value(e)) && Php.HasNoDigit(Value(e))
  {
    BackingStringsPlain();
    Php.PlainWordIsLower(Value(e));
  }

  /** A string decodes to `none` exactly when it is no case's backing string. */
  lemma UnknownIsNone(s: string)
    ensures TryFrom(s).None? <==> forall e: PageRequestResultStatus :: Value(e) != s
  {
    if TryFrom(s).Some? {
      RoundTrip(TryFrom(s).value);
    }
  }

  /**
    * Lower-casing the input first, as the decoders do, makes the match
    * case-insensitive: any spelling of a backing string selects its case.
    */
  lemma LowercasedMatch(s: string, e: PageRequestResultStatus)
    ensures TryFrom(Php.Lower(s)) == Some(e) <==> Php.Lower(s) == Php.Lower(Value(e))
  {
    ValuesLowercase(e);
    Php.LowerKeepsLowercase(Value(e));
    RoundTrip(e);
  }

  /** Exactly two strings decode: `success` and `error`. */
  lemma OnlyTwoValues(s: string)
    ensures TryFrom(s).Some? <==> s == "success" || s == "error"
  {
    RoundTrip(success);
    RoundTrip(error);
  }
}
