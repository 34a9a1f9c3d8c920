/**
  * The PHP backed enum `PaymentType` (src/Rest/Enums/PaymentType.php, cases at lines 12-48).
  * Payment types reported by a processed page request.
  */
module PaymentTypeEnum {
  import opened Wrappers
  import Php

  datatype PaymentType =
      ach
    | acheft
    | americanExpress
    | americanExpressSsl
    | amex
    | amx
    | ax
    | bacs
    | bacsDebit
    | bank
    | card
    | cartesBancaires
    | checking
    | ddt
    | delta
    | di
    | diners
    | directDebit
    | discover
    | eCheck
    | ec
    | ecmcSsl
    | eft
    | jcb
    | master
    | mastercard
    | mc
    | payPal
    | savings
    | sepa
    | sepaDebit
    | unionpay
    | venmo
    | vi
    | visa
    | visaElectron
    | visaSsl

  /** The backing string of each case (`->value`). */
  function Value(e: PaymentType): string {
    match e
    case ach => "ach"
    case acheft => "acheft"
    case americanExpress => "american express"
    case americanExpressSsl => "amex-ssl"
    case amex => "amex"
    case amx => "amx"
    case ax => "ax"
    case bacs => "bacs"
    case bacsDebit => "bacs_debit"
    case bank => "bank"
    case card => "card"
    case cartesBancaires => "cartes_bancaires"
    case checking => "checking"
    case ddt => "ddt"
    case delta => "delta"
    case di => "di"
    case diners => "diners"
    case directDebit => "direct debit"
    case discover => "discover"
    case eCheck => "echeck"
    case ec => "ec"
    case ecmcSsl => "ecmc-ssl"
    case eft => "eft"
    case jcb => "jcb"
    case master => "master"
    case mastercard => "mastercard"
    case mc => "mc"
    case payPal => "paypal"
    case savings => "savings"
    case sepa => "sepa"
    case sepaDebit => "sepa_debit"
    case unionpay => "unionpay"
    case venmo => "venmo"
    case vi => "vi"
    case visa => "visa"
    case visaElectron => "visa electron"
    case visaSsl => "visa-ssl"
  }

  /** The same case table, read from the backing string towards the case. */
  function CaseOf(s: string): Option<PaymentType> {
    match s
    case "ach" => Some(ach)
    case "acheft" => Some(acheft)
    case "american express" => Some(americanExpress)
    case "amex-ssl" => Some(americanExpressSsl)
    case "amex" => Some(amex)
    case "amx" => Some(amx)
    case "ax" => Some(ax)
    case "bacs" => Some(bacs)
    case "bacs_debit" => Some(bacsDebit)
    case "bank" => Some(bank)
    case "card" => Some(card)
    case "cartes_bancaires" => Some(cartesBancaires)
    case "checking" => Some(checking)
    case "ddt" => Some(ddt)
    case "delta" => Some(delta)
    case "di" => Some(di)
    case "diners" => Some(diners)
    case "direct debit" => Some(directDebit)
    case "discover" => Some(discover)
    case "echeck" => Some(eCheck)
    case "ec" => Some(ec)
    case "ecmc-ssl" => Some(ecmcSsl)
    case "eft" => Some(eft)
    case "jcb" => Some(jcb)
    case "master" => Some(master)
    case "mastercard" => Some(mastercard)
    case "mc" => Some(mc)
    case "paypal" => Some(payPal)
    case "savings" => Some(savings)
    case "sepa" => Some(sepa)
    case "sepa_debit" => Some(sepaDebit)
    case "unionpay" => Some(unionpay)
    case "venmo" => Some(venmo)
    case "vi" => Some(vi)
    case "visa" => Some(visa)
    case "visa electron" => Some(visaElectron)
    case "visa-ssl" => Some(visaSsl)
    case _ => None
  }

  lemma CaseOfInvertsValue()
    ensures forall e: PaymentType :: CaseOf(Value(e)) == Some(e)
  {
    forall e: PaymentType ensures CaseOf(Value(e)) == Some(e) { }
  }

  /** `PaymentType::tryFrom($s)`: the case whose backing string is `s`, or null when there is none. */
  function TryFrom(s: string): (r: Option<PaymentType>)
    ensures r.Some? ==> Value(r.value) == s
    ensures r.None? ==> forall e: PaymentType :: Value(e) != s
  {
    CaseOfInvertsValue();
    var c := CaseOf(s);
    if c.Some? && Value(c.value) == s then c else None
  }

  /** Decoding the backing string of a case gives that case back. */
  lemma RoundTrip(e: PaymentType)
    ensures TryFrom(Value(e)) == Some(e)
  {
    CaseOfInvertsValue();
  }

  /** No two cases share a backing string. */
  lemma ValuesDistinct(a: PaymentType, b: PaymentType)
    ensures Value(a) == Value(b) ==> a == b
  {
    RoundTrip(a);
    RoundTrip(b);
  }

  lemma BackingStringsPlain1()
    ensures Php.IsPlainWord("ach")
    ensures Php.IsPlainWord("acheft")
    ensures Php.IsPlainWord("american express")
    ensures Php.IsPlainWord("amex-ssl")
    ensures Php.IsPlainWord("amex")
    ensures Php.IsPlainWord("amx")
    ensures Php.IsPlainWord("ax")
    ensures Php.IsPlainWord("bacs")
  {
  }

  lemma BackingStringsPlain2()
    ensures Php.IsPlainWord("bacs_debit")
    ensures Php.IsPlainWord("bank")
    ensures Php.IsPlainWord("card")
    ensures Php.IsPlainWord("cartes_bancaires")
    ensures Php.IsPlainWord("checking")
    ensures Php.IsPlainWord("ddt")
    ensures Php.IsPlainWord("delta")
    ensures Php.IsPlainWord("di")
  {
  }

  lemma BackingStringsPlain3()
    ensures Php.IsPlainWord("diners")
    ensures Php.IsPlainWord("direct debit")
    ensures Php.IsPlainWord("discover")
    ensures Php.IsPlainWord("echeck")
    ensures Php.IsPlainWord("ec")
    ensures Php.IsPlainWord("ecmc-ssl")
    ensures Php.IsPlainWord("eft")
    ensures Php.IsPlainWord("jcb")
  {
  }

  lemma BackingStringsPlain4()
    ensures Php.IsPlainWord("master")
    ensures Php.IsPlainWord("mastercard")
    ensures Php.IsPlainWord("mc")
    ensures Php.IsPlainWord("paypal")
    ensures Php.IsPlainWord("savings")
    ensures Php.IsPlainWord("sepa")
    ensures Php.IsPlainWord("sepa_debit")
    ensures Php.IsPlainWord("unionpay")
  {
  }

  lemma BackingStringsPlain5()
    ensures Php.IsPlainWord("venmo")
    ensures Php.IsPlainWord("vi")
    ensures Php.IsPlainWord("visa")
    ensures Php.IsPlainWord("visa electron")
    ensures Php.IsPlainWord("visa-ssl")
  {
  }

  /** Every backing string is lower-case and contains no digit. */
  lemma ValuesLowercase(e: PaymentType)
    ensures Php.IsLower(Value(e)) && Php.HasNoDigit(Value(e))
  {
    BackingStringsPlain1();
    BackingStringsPlain2();
    BackingStringsPlain3();
    BackingStringsPlain4();
    BackingStringsPlain5();
    Php.PlainWordIsLower(Value(e));
  }

  /** A string decodes to `none` exactly when it is no case's backing string. */
  lemma UnknownIsNone(s: string)
    ensures TryFrom(s).None? <==> forall e: PaymentType :: Value(e) != s
  {
    if TryFrom(s).Some? {
      RoundTrip(TryFrom(s).value);
    }
  }

  /**
    * Lower-casing the input first, as the decoders do, makes the match
    * case-insensitive: any spelling of a backing string selects its case.
    */
  lemma LowercasedMatch(s: string, e: PaymentType)
    ensures TryFrom(Php.Lower(s)) == Some(e) <==> Php.Lower(s) == Php.Lower(Value(e))
  {
    ValuesLowercase(e);
    Php.LowerKeepsLowercase(Value(e));
    RoundTrip(e);
  }
}
