/**
 * Decoded JSON values as the result accessors see them, with Python's truth
 * test and the text that `str()` (and so `u'{0}'.format(v)`) produces for them.
 */
module Json {

  datatype Option<+T> = None | Some(value: T)

  /** One decoded JSON value. Integral numbers and other numbers are kept apart,
      as Python's json module makes `int` and `float` of them. */
  datatype Value =
    | Null
    | Bool(b: bool)
    | Int(i: int)
    | Float(f: real)
    | Str(s: string)
    | Array(items: seq<Value>)
    | Object(fields: map<string, Value>)

  /** The values Python's truth test rejects: None, False, 0, 0.0, '', [] and {}. */
  const Falsy: set<Value> := {Null, Bool(false), Int(0), Float(0.0), Str(""), Array([]), Object(map[])}

  /** Python's truth test, as `if v:` applies it. */
  predicate Truthy(v: Value)
    ensures Truthy(v) <==> v !in Falsy
  {
    match v
    case Null => false
    case Bool(b) => b
    case Int(i) => i != 0
    case Float(f) => f != 0.0
    case Str(s) => s != ""
    case Array(items) => items != []
    case Object(fields) => fields != map[]
  }

  predicate IsDigits(s: string) {
    forall k :: 0 <= k < |s| ==> '0' <= s[k] <= '9'
  }

  function DigitChar(d: int): (c: char)
    requires 0 <= d < 10
    ensures '0' <= c <= '9'
  {
    ('0' as int + d) as char
  }

  function DigitValue(c: char): (d: nat)
    requires '0' <= c <= '9'
    ensures d < 10
  {
    c as int - '0' as int
  }

  /** The decimal digits of `n`, most significant first, with no leading zero. */
  function Decimal(n: nat): (r: string)
    ensures |r| >= 1 && IsDigits(r)
    ensures r[0] == '0' ==> n == 0
    ensures n == 0 ==> r == "0"
  {
    if n < 10 then [DigitChar(n)] else Decimal(n / 10) + [DigitChar(n % 10)]
  }

  /** The number a non-empty run of decimal digits denotes. */
  function ParseDecimal(s: string): nat
    requires |s| >= 1 && IsDigits(s)
  {
    if |s| == 1 then DigitValue(s[0])
    else ParseDecimal(s[..|s| - 1]) * 10 + DigitValue(s[|s| - 1])
  }

  lemma {:induction false} DecimalRoundTrip(n: nat)
    ensures ParseDecimal(Decimal(n)) == n
  {
    if n >= 10 {
      var s := Decimal(n);
      assert s[..|s| - 1] == Decimal(n / 10);
      DecimalRoundTrip(n / 10);
    }
  }

  /** Python's `str()` of an int: a minus sign for negative numbers, then the decimal digits. */
  function IntText(i: int): (r: string)
    ensures |r| >= 1
    ensures r[0] == '-' <==> i < 0
  {
    if i < 0 then "-" + Decimal(-i) else Decimal(i)
  }

  predicate IsIntText(s: string) {
    (|s| >= 1 && IsDigits(s)) || (|s| >= 2 && s[0] == '-' && IsDigits(s[1..]))
  }

  /** Python's `int()` of the text of an integer. */
  function ParseInt(s: string): int
    requires IsIntText(s)
  {
    if s[0] == '-' then -(ParseDecimal(s[1..]) as int) else ParseDecimal(s)
  }

  /** Rendering an int loses nothing: reading the text back gives the same int. */
  lemma IntTextRoundTrip(i: int)
    ensures IsIntText(IntText(i)) && ParseInt(IntText(i)) == i
  {
    var s := IntText(i);
    if i < 0 {
      assert s[1..] == Decimal(-i);
      DecimalRoundTrip(-i);
    } else {
      DecimalRoundTrip(i);
    }
  }

  /** The text `u'{0}'.format(v)` writes for `v`: strings as they are, None as
      "None", booleans as "True"/"False", ints in decimal. Python's text for a
      float, a list or a dict is not modelled: those give None here. */
  function Render(v: Value): (r: Option<string>)
    ensures r.Some? <==> !(v.Float? || v.Array? || v.Object?)
    ensures v.Str? ==> r == Some(v.s)
    ensures v.Int? ==> r.Some? && IsIntText(r.value) && ParseInt(r.value) == v.i
  {
    match v
    case Null => Some("None")
    case Bool(b) => Some(if b then "True" else "False")
    case Int(i) => IntTextRoundTrip(i); Some(IntText(i))
    case Str(s) => Some(s)
    case _ => None
  }

  /** A truthy value never renders as the empty text. */
  lemma TruthyRendersNonEmpty(v: Value)
    requires Truthy(v) && Render(v).Some?
    ensures Render(v).value != ""
  {
    if v.Int? {
      assert |IntText(v.i)| >= 1;
    }
  }
}
