/**
  * The PHP backed enum `PageType` (src/Enums/PageType.php, cases at lines 15-33).
  * Page types and subtypes (`dc` is undocumented upstream but appears as a parent type).
  */
module PageTypeEnum {
  import opened Wrappers
  import Php

  datatype PageType =
      cc
    | dc
    | dcf
    | ec
    | ecommerce
    | ems
    | et
    | ev
    | leadgen
    | mem
    | nd
    | pet
    | premium
    | sh
    | sp
    | ss
    | survey
    | tp
    | unsub

  /** The backing string of each case (`->value`). */
  function Value(e: PageType): string {
    match e
    case cc => "cc"
    case dc => "dc"
    case dcf => "dcf"
    case ec => "ec"
    case ecommerce => "ecommerce"
    case ems => "ems"
    case et => "et"
    case ev => "ev"
    case leadgen => "leadgen"
    case mem => "mem"
    case nd => "nd"
    case pet => "pet"
    case premium => "premium"
    case sh => "sh"
    case sp => "sp"
    case ss => "ss"
    case survey => "survey"
    case tp => "tp"
    case unsub => "unsub"
  }

  /** The same case table, read from the backing string towards the case. */
  function CaseOf(s: string): Option<PageType> {
    match s
    case "cc" => Some(cc)
    case "dc" => Some(dc)
    case "dcf" => Some(dcf)
    case "ec" => Some(ec)
    case "ecommerce" => Some(ecommerce)
    case "ems" => Some(ems)
    case "et" => Some(et)
    case "ev" => Some(ev)
    case "leadgen" => Some(leadgen)
    case "mem" => Some(mem)
    case "nd" => Some(nd)
    case "pet" => Some(pet)
    case "premium" => Some(premium)
    case "sh" => Some(sh)
    case "sp" => Some(sp)
    case "ss" => Some(ss)
    case "survey" => Some(survey)
    case "tp" => Some(tp)
    case "unsub" => Some(unsub)
    case _ => None
  }

  lemma CaseOfInvertsValue()
    ensures forall e: PageType :: CaseOf(Value(e)) == Some(e)
  {
    forall e: PageType ensures CaseOf(Value(e)) == Some(e) { }
  }

  /** `PageType::tryFrom($s)`: the case whose backing string is `s`, or null when there is none. */
  function TryFrom(s: string): (r: Option<PageType>)
    ensures r.Some? ==> Value(r.value) == s
    ensures r.None? ==> forall e: PageType :: Value(e) != s
  {
    CaseOfInvertsValue();
    var c := CaseOf(s);
    if c.Some? && Value(c.value) == s then c else None
  }

  /** Decoding the backing string of a case gives that case back. */
  lemma RoundTrip(e: PageType)
    ensures TryFrom(Value(e)) == Some(e)
  {
    CaseOfInvertsValue();
  }

  /** No two cases share a backing string. */
  lemma ValuesDistinct(a: PageType, b: PageType)
    ensures Value(a) == Value(b) ==> a == b
  {
    RoundTrip(a);
    RoundTrip(b);
  }

  lemma BackingStringsPlain1()
    ensures Php.IsPlainWord("cc")
    ensures Php.IsPlainWord("dc")
    ensures Php.IsPlainWord("dcf")
    ensures Php.IsPlainWord("ec")
    ensures Php.IsPlainWord("ecommerce")
    ensures Php.IsPlainWord("ems")
    ensures Php.IsPlainWord("et")
    ensures Php.IsPlainWord("ev")
  {
  }

  lemma BackingStringsPlain2()
    ensures Php.IsPlainWord("leadgen")
    ensures Php.IsPlainWord("mem")
    ensures Php.IsPlainWord("nd")
    ensures Php.IsPlainWord("pet")
    ensures Php.IsPlainWord("premium")
    ensures Php.IsPlainWord("sh")
    ensures Php.IsPlainWord("sp")
    ensures Php.IsPlainWord("ss")
  {
  }

  lemma BackingStringsPlain3()
    ensures Php.IsPlainWord("survey")
    ensures Php.IsPlainWord("tp")
    ensures Php.IsPlainWord("unsub")
  {
  }

  /** Every backing string is lower-case and contains no digit. */
  lemma ValuesLowercase(e: PageType)
    ensures Php.IsLower(Value(e)) && Php.HasNoDigit(Value(e))
  {
    BackingStringsPlain1();
    BackingStringsPlain2();
    BackingStringsPlain3();
    Php.PlainWordIsLower(Value(e));
  }

  /** A string decodes to `none` exactly when it is no case's backing string. */
  lemma UnknownIsNone(s: string)
    ensures TryFrom(s).None? <==> forall e: PageType :: Value(e) != s
  {
    if TryFrom(s).Some? {
      RoundTrip(TryFrom(s).value);
    }
  }

  /**
    * Lower-casing the input first, as the decoders do, makes the match
    * case-insensitive: any spelling of a backing string selects its case.
    */
  lemma LowercasedMatch(s: string, e: PageType)
    ensures TryFrom(Php.Lower(s)) == Some(e) <==> Php.Lower(s) == Php.Lower(Value(e))
  {
    ValuesLowercase(e);
    Php.LowerKeepsLowercase(Value(e));
    RoundTrip(e);
  }

  /** The undocumented parent type `dc` decodes like every other case. */
  lemma UndocumentedDcDecodes()
    ensures TryFrom("dc") == Some(dc)
    ensures TryFrom("DC") == None
  {
  }
}
