/** Recipient normalisation (index.js:199-200): keep the ASCII digits of the entry's string
    form, then put the default country code in front unless the digits already begin with it. */
module Recipient {
  import opened Text
  import opened JsValues

  const CountryCode: string := "91"

  /** Removes every character that is not an ASCII digit, keeping the digits in order. */
  function DigitsOnly(s: string): (r: string)
    ensures |r| <= |s|
  {
    if s == [] then []
    else if IsDigit(s[0]) then [s[0]] + DigitsOnly(s[1..])
    else DigitsOnly(s[1..])
  }

  /** The number written to `mobile` for one entry's string form. */
  function Normalize(s: string): (r: string)
    ensures AllDigits(r)
    ensures StartsWith(r, CountryCode)
    ensures |r| >= |CountryCode|
  {
    DigitsOnlyAllDigits(s);
    var digits := DigitsOnly(s);
    if StartsWith(digits, CountryCode) then digits else CountryCode + digits
  }

  /** Stripping leaves only digits. */
  lemma {:induction false} DigitsOnlyAllDigits(s: string)
    ensures AllDigits(DigitsOnly(s))
  {
    if s != [] {
      DigitsOnlyAllDigits(s[1..]);
    }
  }

  /** A digit string is left as it is. */
  lemma {:induction false} DigitsOnlyKeepsDigits(s: string)
    requires AllDigits(s)
    ensures DigitsOnly(s) == s
  {
    if s != [] {
      DigitsOnlyKeepsDigits(s[1..]);
    }
  }

  /** Stripping works character by character: it distributes over concatenation. */
  lemma {:induction false} DigitsOnlyAppend(a: string, b: string)
    ensures DigitsOnly(a + b) == DigitsOnly(a) + DigitsOnly(b)
  {
    if a != [] {
      assert (a + b)[1..] == a[1..] + b;
      DigitsOnlyAppend(a[1..], b);
    } else {
      assert a + b == b;
    }
  }

  /** A string without a digit strips to nothing. */
  lemma {:induction false} DigitsOnlyNoDigits(s: string)
    requires forall i :: 0 <= i < |s| ==> !IsDigit(s[i])
    ensures DigitsOnly(s) == ""
  {
    if s != [] {
      DigitsOnlyNoDigits(s[1..]);
    }
  }

  /** Both branches of index.js:200: the code is added exactly when the digits lack it. */
  lemma NormalizeCases(s: string)
    ensures StartsWith(DigitsOnly(s), CountryCode) ==> Normalize(s) == DigitsOnly(s)
    ensures !StartsWith(DigitsOnly(s), CountryCode) ==> Normalize(s) == CountryCode + DigitsOnly(s)
    ensures DigitsOnly(s) == Normalize(s)[|Normalize(s)| - |DigitsOnly(s)|..]
  {
  }

  /** Normalising a normalised number changes nothing. */
  lemma NormalizeIdempotent(s: string)
    ensures Normalize(Normalize(s)) == Normalize(s)
  {
    DigitsOnlyKeepsDigits(Normalize(s));
  }

  /** An entry without any digit becomes the bare country code; nothing rejects it. */
  lemma NormalizeNoDigits(s: string)
    requires forall i :: 0 <= i < |s| ==> !IsDigit(s[i])
    ensures Normalize(s) == CountryCode
  {
    DigitsOnlyNoDigits(s);
  }

  /** Punctuation and spaces around the digits do not matter: `"+91 98765-43210"` and
      `"9876543210"` reach the same recipient. */
  lemma NormalizeIgnoresSeparators(a: string, b: string, c: string)
    requires forall i :: 0 <= i < |a| ==> !IsDigit(a[i])
    requires forall i :: 0 <= i < |c| ==> !IsDigit(c[i])
    ensures Normalize(a + b + c) == Normalize(b)
  {
    DigitsOnlyAppend(a + b, c);
    DigitsOnlyAppend(a, b);
    DigitsOnlyNoDigits(a);
    DigitsOnlyNoDigits(c);
    assert DigitsOnly(a + b + c) == DigitsOnly(b);
  }

  /** A numeric entry is written as a decimal numeral by `toString()`; its sign is a
      non-digit, so a negative number reaches the same recipient as its absolute value. */
  lemma NormalizeNumberIgnoresSign(n: int)
    ensures ToString(Num(n)).Ok? && ToString(Num(-n)).Ok?
    ensures Normalize(ToString(Num(n)).value) == Normalize(ToString(Num(-n)).value)
    ensures Normalize(ToString(Num(n)).value) == Normalize(Decimal(if n < 0 then -n else n))
  {
    NumeralDigits(n);
    NumeralDigits(-n);
  }

  /** The digits of an integer's numeral are those of its absolute value. */
  lemma NumeralDigits(n: int)
    ensures ToString(Num(n)).Ok?
    ensures DigitsOnly(ToString(Num(n)).value) == Decimal(if n < 0 then -n else n)
  {
    var m := if n < 0 then -n else n;
    DigitsOnlyKeepsDigits(Decimal(m));
    if n < 0 {
      assert ToString(Num(n)).value == "-" + Decimal(m);
      DigitsOnlyAppend("-", Decimal(m));
    }
  }
}
