/**
 The JavaScript values found in the rows the platform returns, and the
 coercions the service applies to them: truthiness (`if (x)`, `a || b`),
 `String(x)`, the element rendering of `Array.prototype.join`, and loose
 equality (`==`, `!=`).
 */
module JsValues {
  import opened Options

  /** A primitive JavaScript value. Numbers are integers here; NaN, fractions,
      objects and arrays are not modelled. With no NaN and no objects,
      JavaScript's strict equality `===` is Dafny's `==` on this type. */
  datatype Value = Undefined | Null | Bool(b: bool) | Num(n: int) | Str(s: string)

  /** One result row: a property bag keyed by column name or alias. */
  type Row = map<string, Value>

  /** Reading a property: an absent key reads as `undefined`. */
  function Get(row: Row, key: string): Value
  {
    if key in row then row[key] else Undefined
  }

  /** JavaScript `ToBoolean`. */
  predicate Truthy(v: Value)
  {
    match v
    case Undefined => false
    case Null => false
    case Bool(b) => b
    case Num(n) => n != 0
    case Str(s) => s != ""
  }

  /** `a || b`: the first operand when it is truthy, the second otherwise. */
  function Or(a: Value, b: Value): Value
  {
    if Truthy(a) then a else b
  }

  predicate IsDigit(c: char)
  {
    '0' <= c <= '9'
  }

  /** The decimal digits of `n`, most significant first, without leading zeros. */
  function Digits(n: nat): (r: string)
    ensures |r| >= 1
    ensures forall i :: 0 <= i < |r| ==> IsDigit(r[i])
    ensures |r| > 1 ==> r[0] != '0'
    decreases n
  {
    if n < 10 then [(n + '0' as int) as char]
    else Digits(n / 10) + [((n % 10) + '0' as int) as char]
  }

  /** `Number::toString` for an integer value. */
  function DecimalText(n: int): string
  {
    if n < 0 then "-" + Digits(-n) else Digits(n)
  }

  /** The number a non-empty run of decimal digits denotes. */
  function DigitsValue(s: string): nat
    requires forall i :: 0 <= i < |s| ==> IsDigit(s[i])
    decreases |s|
  {
    if |s| == 0 then 0
    else
      assert IsDigit(s[|s| - 1]);
      DigitsValue(s[..|s| - 1]) * 10 + (s[|s| - 1] as int - '0' as int)
  }

  predicate AllDigits(s: string)
  {
    |s| > 0 && forall i :: 0 <= i < |s| ==> IsDigit(s[i])
  }

  /** `StringToNumber` for the spellings this model recognises: the empty string
      (0) and an optionally signed run of decimal digits. Any other string is
      treated as not denoting an integer. */
  function NumericValue(s: string): Option<int>
  {
    if s == "" then Some(0)
    else if AllDigits(s) then Some(DigitsValue(s))
    else if (s[0] == '-' || s[0] == '+') && AllDigits(s[1..]) then
      var magnitude: int := DigitsValue(s[1..]);
      Some(if s[0] == '-' then -magnitude else magnitude)
    else None
  }

  lemma {:induction false} DigitsValueOfDigits(n: nat)
    ensures DigitsValue(Digits(n)) == n
    decreases n
  {
    if n >= 10 {
      var d := Digits(n / 10);
      var last := ((n % 10) + '0' as int) as char;
      assert Digits(n) == d + [last];
      assert (d + [last])[..|d + [last]| - 1] == d;
      DigitsValueOfDigits(n / 10);
    }
  }

  /** Reading back the decimal text of an integer gives the integer. */
  lemma DecimalTextRoundTrip(n: int)
    ensures NumericValue(DecimalText(n)) == Some(n)
  {
    var t := DecimalText(n);
    if n < 0 {
      assert t[0] == '-' && !IsDigit(t[0]);
      assert t[1..] == Digits(-n);
      assert AllDigits(t[1..]);
      DigitsValueOfDigits(-n);
    } else {
      assert t == Digits(n) && AllDigits(t);
      DigitsValueOfDigits(n);
    }
  }

  /** `String(v)`, which template literals and `String.prototype.replace` apply
      to a non-string argument. */
  function ToText(v: Value): string
  {
    match v
    case Undefined => "undefined"
    case Null => "null"
    case Bool(b) => if b then "true" else "false"
    case Num(n) => DecimalText(n)
    case Str(s) => s
  }

  /** `undefined` or `null`. */
  predicate IsNullish(v: Value)
  {
    v.Undefined? || v.Null?
  }

  /** How `Array.prototype.join` renders one element: `undefined` and `null`
      become the empty string, anything else its `String` form. */
  function JoinText(v: Value): string
  {
    if IsNullish(v) then "" else ToText(v)
  }

  /** The number a boolean converts to. */
  function BoolNumber(b: bool): int
  {
    if b then 1 else 0
  }

  /** JavaScript's abstract equality `a == b` (`!=` is its negation). */
  predicate LooseEquals(a: Value, b: Value)
    decreases (if a.Bool? then 1 else 0) + (if b.Bool? then 1 else 0)
  {
    if IsNullish(a) || IsNullish(b) then IsNullish(a) && IsNullish(b)
    else if a.Bool? then LooseEquals(Num(BoolNumber(a.b)), b)
    else if b.Bool? then LooseEquals(a, Num(BoolNumber(b.b)))
    else if a.Num? && b.Str? then NumericValue(b.s) == Some(a.n)
    else if a.Str? && b.Num? then NumericValue(a.s) == Some(b.n)
    else a == b
  }

  /** Between two strings, or two numbers, loose equality is plain equality:
      the usual case of two identifier strings. */
  lemma LooseEqualsSameKind(a: Value, b: Value)
    requires (a.Str? && b.Str?) || (a.Num? && b.Num?)
    ensures LooseEquals(a, b) <==> a == b
  {
  }

  /** Every value is loosely equal to itself (there is no NaN here). */
  lemma LooseEqualsReflexive(v: Value)
    ensures LooseEquals(v, v)
  {
  }

  /** A number and its decimal text are loosely equal. */
  lemma LooseEqualsNumberAndText(n: int)
    ensures LooseEquals(Num(n), Str(DecimalText(n)))
  {
    DecimalTextRoundTrip(n);
  }
}
