/** Decimal text and numbers: `parseInt(text)` as the item editor applies it
    to the stock fields, and `number.toString()` as it prefills them. */
module JsNumbers {
  import opened JsValues
  import opened JsStrings

  predicate IsDigit(c: char) {
    '0' <= c <= '9'
  }

  predicate AllDigits(s: string) {
    forall i :: 0 <= i < |s| ==> IsDigit(s[i])
  }

  function DigitValue(c: char): nat
    requires IsDigit(c)
  {
    c as int - '0' as int
  }

  function DigitChar(d: nat): (c: char)
    requires d < 10
    ensures IsDigit(c) && DigitValue(c) == d
  {
    ('0' as int + d) as char
  }

  /** The longest prefix of s made of decimal digits. */
  function LeadingDigits(s: string): (r: string)
    ensures AllDigits(r) && |r| <= |s| && r == s[..|r|]
    ensures |r| < |s| ==> !IsDigit(s[|r|])
  {
    if s == [] || !IsDigit(s[0]) then [] else [s[0]] + LeadingDigits(s[1..])
  }

  /** The value of a run of decimal digits, most significant first. */
  function DigitsValue(ds: string): nat
    requires AllDigits(ds)
  {
    if ds == [] then 0 else 10 * DigitsValue(ds[..|ds| - 1]) + DigitValue(ds[|ds| - 1])
  }

  /** `parseInt(text)` in base 10: leading white space is skipped, one sign
      is allowed, the longest run of digits after it is read and the rest
      ignored; without a digit the result is NaN. */
  function ParseInt(text: string): (r: JsNum)
    ensures r != Undefined
    ensures Negative(r) ==> var t := TrimStart(text); |t| > 0 && t[0] == '-'
  {
    var t := TrimStart(text);
    var signed := |t| > 0 && (t[0] == '-' || t[0] == '+');
    var ds := LeadingDigits(if signed then t[1..] else t);
    if ds == [] then NaN
    else if signed && t[0] == '-' then Num(0 - DigitsValue(ds))
    else Num(DigitsValue(ds))
  }

  /** The decimal digits of n, without leading zeros. */
  function NatText(n: nat): (r: string)
    ensures |r| > 0 && AllDigits(r)
  {
    if n < 10 then [DigitChar(n)] else NatText(n / 10) + [DigitChar(n % 10)]
  }

  /** `n.toString()` for an integer. */
  function IntText(n: int): (r: string)
    ensures |r| > 0
  {
    if n < 0 then "-" + NatText(-n) else NatText(n)
  }

  /** `x?.toString()`, with `undefined` given as the empty text (what the
      `|| ''` that follows every such call in the editor turns it into). */
  function NumText(x: JsNum): (r: string)
    ensures r == "" <==> x == Undefined
  {
    match x
    case Num(n) => IntText(n)
    case NaN => "NaN"
    case Undefined => ""
  }

  lemma {:induction false} NatTextValue(n: nat)
    ensures DigitsValue(NatText(n)) == n
  {
    if n >= 10 {
      var t := NatText(n / 10) + [DigitChar(n % 10)];
      assert t[..|t| - 1] == NatText(n / 10);
      NatTextValue(n / 10);
    }
  }

  lemma {:induction false} LeadingDigitsOfDigits(s: string)
    requires AllDigits(s)
    ensures LeadingDigits(s) == s
  {
    if s != [] {
      LeadingDigitsOfDigits(s[1..]);
    }
  }

  /** Printing a whole number and parsing the text back gives the number:
      an edited item whose stock fields are left untouched is submitted
      with the same numbers. */
  lemma ParseIntText(n: int)
    ensures ParseInt(IntText(n)) == Num(n)
  {
    var m: nat := if n < 0 then -n else n;
    var digits := NatText(m);
    NatTextValue(m);
    LeadingDigitsOfDigits(digits);
    var text := IntText(n);
    assert !IsJsSpace(text[0]);
    assert TrimStart(text) == text;
    if n < 0 {
      assert text[1..] == digits;
    }
  }

  /** The text of NaN parses back to NaN: a stock that became NaN stays NaN
      when the item is edited again. */
  lemma ParseNaNText()
    ensures ParseInt(NumText(NaN)) == NaN
  {
    var t := "NaN";
    assert !IsJsSpace(t[0]);
    assert TrimStart(t) == t;
  }
}
