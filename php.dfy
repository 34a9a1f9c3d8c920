/** The few PHP language rules the client relies on. */
module Php {
  import opened Wrappers

  /** PHP truthiness of a `?string`: `null`, `""` and `"0"` are false. */
  predicate Truthy(s: Option<string>) {
    s.Some? && s.value != "" && s.value != "0"
  }

  /**
    * PHP loose equality `==` of two `?string` values: `null` equals only `""`;
    * two strings compare as strings (numeric-string comparison is not modelled).
    */
  predicate LooseEquals(a: Option<string>, b: Option<string>) {
    match (a, b)
    case (None, None) => true
    case (None, Some(t)) => t == ""
    case (Some(s), None) => s == ""
    case (Some(s), Some(t)) => s == t
  }

  /** `str_starts_with($s, $prefix)`. */
  predicate StartsWith(s: string, prefix: string) {
    |prefix| <= |s| && s[..|prefix|] == prefix
  }

  predicate IsUpper(c: char) {
    'A' <= c <= 'Z'
  }

  function LowerChar(c: char): (d: char)
    ensures !IsUpper(d)
    ensures !IsUpper(c) ==> d == c
  {
    if IsUpper(c) then (c as int + 32) as char else c
  }

  /** `strtolower`: ASCII letters only, every other character unchanged. */
  function Lower(s: string): (r: string)
    ensures |r| == |s|
    ensures forall i :: 0 <= i < |s| ==> r[i] == LowerChar(s[i])
  {
    if s == [] then [] else [LowerChar(s[0])] + Lower(s[1..])
  }

  /** A string with no upper-case ASCII letter, which `strtolower` leaves alone. */
  predicate IsLower(s: string) {
    forall i :: 0 <= i < |s| ==> !IsUpper(s[i])
  }

  predicate IsDigit(c: char) {
    '0' <= c <= '9'
  }

  /** A string with no decimal digit: the text PHP makes of a number never equals it. */
  predicate HasNoDigit(s: string) {
    forall i :: 0 <= i < |s| ==> !IsDigit(s[i])
  }

  /** Lower-case ASCII letters, space, `_` and `-` only: the alphabet of every enum backing string. */
  predicate IsPlainWord(s: string) {
    forall i :: 0 <= i < |s| ==> 'a' <= s[i] <= 'z' || s[i] == ' ' || s[i] == '_' || s[i] == '-'
  }

  lemma PlainWordIsLower(s: string)
    requires IsPlainWord(s)
    ensures IsLower(s) && HasNoDigit(s)
  {
  }

  lemma LowerKeepsLowercase(s: string)
    requires IsLower(s)
    ensures Lower(s) == s
  {
  }

  /** `strtolower($s)` is `t` when `t` is `s` lower-cased character by character. */
  lemma LowerPointwise(s: string, t: string)
    requires |s| == |t|
    requires forall i :: 0 <= i < |s| ==> LowerChar(s[i]) == t[i]
    ensures Lower(s) == t
  {
  }

  lemma LowerIsLowercase(s: string)
    ensures IsLower(Lower(s))
    ensures Lower(Lower(s)) == Lower(s)
  {
    LowerKeepsLowercase(Lower(s));
  }

  function DigitChar(d: int): (c: char)
    requires 0 <= d < 10
    ensures IsDigit(c)
  {
    ('0' as int + d) as char
  }

  /** The decimal text PHP interpolates for a non-negative `int`. */
  function NatText(n: nat): (s: string)
    ensures |s| > 0 && AllDigits(s)
    ensures n >= 10 ==> |s| >= 2
  {
    if n < 10 then [DigitChar(n)] else NatText(n / 10) + [DigitChar(n % 10)]
  }

  /** The decimal text PHP interpolates for an `int`, as in `"page/$id"`: a minus sign before the digits of a negative number. */
  function IntText(n: int): (s: string)
    ensures n >= 0 ==> s == NatText(n)
    ensures n < 0 ==> s == "-" + NatText(-n)
  {
    if n < 0 then "-" + NatText(-n) else NatText(n)
  }

  predicate AllDigits(s: string) {
    forall i :: 0 <= i < |s| ==> IsDigit(s[i])
  }

  /** The number a string of decimal digits denotes, read from the left. */
  function DigitsValue(s: string): nat
    requires AllDigits(s)
  {
    if s == [] then 0 else DigitsValue(s[..|s| - 1]) * 10 + (s[|s| - 1] as int - '0' as int)
  }

  /**
    * The integer an integral numeric string denotes: decimal digits with an
    * optional sign, which PHP converts to that integer in arithmetic and for
    * an `int` type; `None` for any other string.
    */
  function ParseInt(s: string): Option<int> {
    if |s| > 1 && (s[0] == '-' || s[0] == '+') && AllDigits(s[1..]) then
      var magnitude: int := DigitsValue(s[1..]);
      Some(if s[0] == '-' then -magnitude else magnitude)
    else if |s| > 0 && AllDigits(s) then Some(DigitsValue(s))
    else None
  }

  lemma {:induction false} NatTextValue(n: nat)
    ensures DigitsValue(NatText(n)) == n
    decreases n
  {
    var s := NatText(n);
    if n < 10 {
      assert s[..|s| - 1] == [];
    } else {
      assert s[..|s| - 1] == NatText(n / 10);
      NatTextValue(n / 10);
    }
  }

  /** The text of an integer reads back as that integer. */
  lemma IntTextParsesBack(n: int)
    ensures ParseInt(IntText(n)) == Some(n)
  {
    var s := IntText(n);
    if n < 0 {
      var digits := NatText(-n);
      assert s[0] == '-' && s[1..] == digits;
      NatTextValue(-n);
    } else {
      assert s[0] != '-' && s[0] != '+';
      NatTextValue(n);
    }
  }

  /** Distinct integers have distinct texts. */
  lemma IntTextInjective(a: int, b: int)
    ensures IntText(a) == IntText(b) <==> a == b
  {
    IntTextParsesBack(a);
    IntTextParsesBack(b);
  }

  /** An id interpolated between a fixed prefix and suffix, as in `"page/$id/process"`, determines the text and back. */
  lemma InterpolatedIdInjective(prefix: string, suffix: string, a: int, b: int)
    ensures prefix + IntText(a) + suffix == prefix + IntText(b) + suffix <==> a == b
  {
    if prefix + IntText(a) + suffix == prefix + IntText(b) + suffix {
      var x := prefix + IntText(a) + suffix;
      assert |IntText(a)| == |IntText(b)|;
      assert IntText(a) == x[|prefix|..|prefix| + |IntText(a)|];
      assert IntText(b) == x[|prefix|..|prefix| + |IntText(b)|];
    }
    IntTextInjective(a, b);
  }

  /** What `strtolower` makes of a few mixed-case enum spellings. */
  lemma LowerSuccess()
    ensures Lower("SUCCESS") == "success"
  {
    LowerPointwise("SUCCESS", "success");
  }

  lemma LowerCreditSingle()
    ensures Lower("CREDIT_SINGLE") == "credit_single"
  {
    LowerPointwise("CREDIT_SINGLE", "credit_single");
  }

  lemma LowerVisa()
    ensures Lower("Visa") == "visa"
  {
    LowerPointwise("Visa", "visa");
  }

  lemma LowerMonthly()
    ensures Lower("Monthly") == "monthly"
  {
    LowerPointwise("Monthly", "monthly");
  }
}
