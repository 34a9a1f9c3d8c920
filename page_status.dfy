/**
  * The PHP backed enum `PageStatus` (src/Enums/PageStatus.php, cases at lines 12-17).
  * Page (campaign) statuses; decoded by exact, case-sensitive match.
  */
module PageStatusEnum {
  import opened Wrappers
  import Php

  // The PHP case `new` is spelled `New` because `new` is a Dafny keyword.
  datatype PageStatus =
      block
    | close
    | delete
    | live
    | New
    | tested

  /** The backing string of each case (`->value`). */
  function Value(e: PageStatus): string {
    match e
    case block => "block"
    case close => "close"
    case delete => "delete"
    case live => "live"
    case New => "new"
    case tested => "tested"
  }

  /** The same case table, read from the backing string towards the case. */
  function CaseOf(s: string): Option<PageStatus> {
    match s
    case "block" => Some(block)
    case "close" => Some(close)
    case "delete" => Some(delete)
    case "live" => Some(live)
    case "new" => Some(New)
    case "tested" => Some(tested)
    case _ => None
  }

  lemma CaseOfInvertsValue()
    ensures forall e: PageStatus :: CaseOf(Value(e)) == Some(e)
  {
    forall e: PageStatus ensures CaseOf(Value(e)) == Some(e) { }
  }

  /** `PageStatus::tryFrom($s)`: the case whose backing string is `s`, or null when there is none. */
  function TryFrom(s: string): (r: Option<PageStatus>)
    ensures r.Some? ==> Value(r.value) == s
    ensures r.None? ==> forall e: PageStatus :: Value(e) != s
  {
    CaseOfInvertsValue();
    var c := CaseOf(s);
    if c.Some? && Value(c.value) == s then c else None
  }

  /** Decoding the backing string of a case gives that case back. */
  lemma RoundTrip(e: PageStatus)
    ensures TryFrom(Value(e)) == Some(e)
  {
    CaseOfInvertsValue();
  }

  /** No two cases share a backing string. */
  lemma ValuesDistinct(a: PageStatus, b: PageStatus)
    ensures Value(a) == Value(b) ==> a == b
  {
    RoundTrip(a);
    RoundTrip(b);
  }

  lemma BackingStringsPlain()
    ensures Php.IsPlainWord("block")
    ensures Php.IsPlainWord("close")
    ensures Php.IsPlainWord("delete")
    ensures Php.IsPlainWord("live")
    ensures Php.IsPlainWord("new")
    ensures Php.IsPlainWord("tested")
  {
  }

  /** Every backing string is lower-case and contains no digit. */
  lemma ValuesLowercase(e: PageStatus)
    ensures Php.IsLower(Value(e)) && Php.HasNoDigit(Value(e))
  {
    BackingStringsPlain();
    Php.PlainWordIsLower(Value(e));
  }

  /** A string decodes to `none` exactly when it is no case's backing string. */
  lemma UnknownIsNone(s: string)
    ensures TryFrom(s).None? <==> forall e: PageStatus :: Value(e) != s
  {
    if TryFrom(s).Some? {
      RoundTrip(TryFrom(s).value);
    }
  }

  /**
    * Page statuses are decoded without lower-casing, so only the exact
    * backing string selects a case.
    */
  lemma ExactMatchOnly(s: string, e: PageStatus)
    ensures TryFrom(s) == Some(e) <==> s == Value(e)
  {
    RoundTrip(e);
  }

  lemma DifferentlyCasedStatusIsUnknown()
    ensures TryFrom("live") == Some(live)
    ensures TryFrom("Live") == None
  {
  }
}
