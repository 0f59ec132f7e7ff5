/** Values that live in a document's metadata bag and in filter conditions, with
    the two text conversions the filters rely on: the text form of a JSON value
    (what `->>` yields, and what an f-string yields for a condition value) and the
    database's numeric cast of that text. Numbers are integers in this model. */
module MetadataValues {
  import opened Common

  /** A value stored under a key of a document's JSON metadata. */
  datatype MetaValue = Text(s: string) | Number(n: int)

  /** A condition value after resolution: a string or a number. */
  datatype CondValue = Str(s: string) | Num(n: int)

  predicate IsDigit(c: char) {
    '0' <= c <= '9'
  }

  predicate AllDigits(s: string) {
    forall i :: 0 <= i < |s| ==> IsDigit(s[i])
  }

  function DigitChar(d: nat): (c: char)
    requires d < 10
    ensures IsDigit(c) && c as int - '0' as int == d
  {
    ('0' as int + d) as char
  }

  /** Decimal digits of a natural number, most significant first, no leading zeros. */
  function NatText(n: nat): (r: string)
    ensures |r| >= 1 && AllDigits(r)
    ensures r[0] == '0' ==> n == 0
    decreases n
  {
    if n < 10 then [DigitChar(n)] else NatText(n / 10) + [DigitChar(n % 10)]
  }

  /** `str(n)` for an integer. */
  function DecimalText(n: int): string {
    if n < 0 then "-" + NatText(-n) else NatText(n)
  }

  /** The number written by a string of decimal digits. */
  function DigitsValue(s: string): nat
    requires AllDigits(s)
  {
    if |s| == 0 then 0
    else DigitsValue(s[..|s| - 1]) * 10 + (s[|s| - 1] as int - '0' as int)
  }

  /** The cast of a text to a number: an optional minus sign followed by at least
      one decimal digit; anything else does not convert. */
  function ParseDecimal(s: string): Option<int> {
    if |s| > 1 && s[0] == '-' && AllDigits(s[1..]) then Some(-(DigitsValue(s[1..]) as int))
    else if |s| > 0 && AllDigits(s) then Some(DigitsValue(s) as int)
    else None
  }

  /** The text of a stored value, as the JSON `->>` operator yields it. */
  function Render(v: MetaValue): string {
    match v
    case Text(s) => s
    case Number(n) => DecimalText(n)
  }

  /** The text of a condition value, as `f"{value}"` yields it. */
  function ValueText(v: CondValue): string {
    match v
    case Str(s) => s
    case Num(n) => DecimalText(n)
  }

  /** `CAST(doc_metadata ->> name AS FLOAT)`: the stored value's text, cast. */
  function CastNumber(v: MetaValue): Option<int> {
    ParseDecimal(Render(v))
  }

  /** The number a bound condition value stands for in a numeric comparison. */
  function NumberOf(v: CondValue): Option<int> {
    match v
    case Num(n) => Some(n)
    case Str(s) => ParseDecimal(s)
  }

  lemma {:induction false} DigitsOfNatText(n: nat)
    ensures DigitsValue(NatText(n)) == n
    decreases n
  {
    if n >= 10 {
      var prefix := NatText(n / 10);
      var r := prefix + [DigitChar(n % 10)];
      assert r[..|r| - 1] == prefix;
      DigitsOfNatText(n / 10);
    }
  }

  /** Parsing the decimal text of a number gives the number back. */
  lemma DecimalRoundTrip(n: int)
    ensures ParseDecimal(DecimalText(n)) == Some(n)
  {
    if n < 0 {
      var t := NatText(-n);
      var s := "-" + t;
      assert s[0] == '-' && s[1..] == t;
      DigitsOfNatText(-n);
      assert ParseDecimal(s) == Some(-(DigitsValue(t) as int));
    } else {
      var t := NatText(n);
      assert IsDigit(t[0]) && t[0] != '-';
      DigitsOfNatText(n);
      assert ParseDecimal(t) == Some(DigitsValue(t) as int);
    }
  }

  /** A number stored in the metadata survives the text-then-cast path intact. */
  lemma CastOfStoredNumber(n: int)
    ensures CastNumber(Number(n)) == Some(n)
  {
    DecimalRoundTrip(n);
  }

  /** A number given as a condition value keeps its value through its text. */
  lemma NumberOfValueText(v: CondValue)
    requires v.Num?
    ensures ParseDecimal(ValueText(v)) == NumberOf(v)
  {
    DecimalRoundTrip(v.n);
  }
}
