/** The few pieces of Python semantics the estimation scripts rely on:
    JSON values as `json.loads` produces them, truthiness, `or`,
    `dict.get`, `int()` and the numeric coercion of `-`. */
module Py {

  datatype Option<T> = None | Some(value: T)

  /** The outcome of evaluating Python code that may raise. None of the
      modelled code catches an exception, so `Raised` always propagates
      to the caller unchanged. */
  datatype Outcome<T> = Returned(value: T) | Raised {
    predicate IsFailure()
    {
      Raised?
    }

    function PropagateFailure<U>(): Outcome<U>
      requires Raised?
    {
      Raised
    }

    function Extract(): T
      requires Returned?
    {
      value
    }
  }

  /** A decoded JSON value (a Python object as `json.loads` builds it). */
  datatype Value =
    | Null
    | Bool(b: bool)
    | Int(i: int)
    | Float(f: real)
    | Str(s: string)
    | List(items: seq<Value>)
    | Dict(fields: map<string, Value>)

  /** Python truthiness. */
  predicate Truthy(v: Value)
  {
    match v
    case Null => false
    case Bool(b) => b
    case Int(i) => i != 0
    case Float(f) => f != 0.0
    case Str(s) => s != ""
    case List(items) => items != []
    case Dict(fields) => fields != map[]
  }

  /** `a or b`: the first operand when it is truthy, else the second. */
  function Or(a: Value, b: Value): Value
  {
    if Truthy(a) then a else b
  }

  /** `d.get(key, default)` on a dict. */
  function Get(d: map<string, Value>, key: string, default: Value): Value
  {
    if key in d then d[key] else default
  }

  /** `v.get(key, default)` on any value: only a dict has `get`, anything
      else raises AttributeError. */
  function GetFrom(v: Value, key: string, default: Value): Outcome<Value>
  {
    if v.Dict? then Returned(Get(v.fields, key, default)) else Raised
  }

  function Abs(x: int): nat
  {
    if x < 0 then -x else x
  }

  function AbsReal(x: real): real
  {
    if x < 0.0 then -x else x
  }

  // ---------------------------------------------------------------------
  // Decimal strings
  // ---------------------------------------------------------------------

  predicate IsDigit(c: char)
  {
    '0' <= c <= '9'
  }

  predicate AllDigits(s: string)
  {
    forall i | 0 <= i < |s| :: IsDigit(s[i])
  }

  /** The number a string of decimal digits denotes. */
  function DigitsValue(s: string): nat
    requires AllDigits(s)
  {
    if s == [] then 0
    else DigitsValue(s[..|s| - 1]) * 10 + (s[|s| - 1] as int - '0' as int)
  }

  /** `int(s)` on a string: an optional sign followed by decimal digits;
      `None` stands for the ValueError Python raises otherwise. */
  function ParseInt(s: string): Option<int>
  {
    if s != [] && (s[0] == '-' || s[0] == '+') then
      if |s| > 1 && AllDigits(s[1..]) then
        var magnitude: int := DigitsValue(s[1..]);
        Some(if s[0] == '-' then -magnitude else magnitude)
      else None
    else if s != [] && AllDigits(s) then Some(DigitsValue(s))
    else None
  }

  function DigitChar(d: nat): (c: char)
    requires d < 10
    ensures IsDigit(c)
  {
    ('0' as int + d) as char
  }

  /** `str(n)` for a natural number: its decimal digits, no leading zero. */
  function Digits(n: nat): (s: string)
    ensures s != [] && AllDigits(s)
    ensures n > 0 ==> s[0] != '0'
  {
    if n < 10 then [DigitChar(n)] else Digits(n / 10) + [DigitChar(n % 10)]
  }

  /** `str(n)` for an integer, which is how rippled writes drop amounts. */
  function Decimal(n: int): string
  {
    if n < 0 then "-" + Digits(-n) else Digits(n)
  }

  lemma {:induction false} DigitsRoundTrip(n: nat)
    ensures DigitsValue(Digits(n)) == n
  {
    if n >= 10 {
      DigitsRoundTrip(n / 10);
      var s := Digits(n);
      assert s[..|s| - 1] == Digits(n / 10);
    }
  }

  /** `int(str(n)) == n`: reading back what `str` writes. */
  lemma ParseDecimal(n: int)
    ensures ParseInt(Decimal(n)) == Some(n)
  {
    var s := Decimal(n);
    if n < 0 {
      DigitsRoundTrip(-n);
      assert s[0] == '-' && s[1..] == Digits(-n);
    } else {
      DigitsRoundTrip(n);
      assert IsDigit(s[0]);
    }
  }

  // ---------------------------------------------------------------------
  // Numbers
  // ---------------------------------------------------------------------

  /** `int(x)` on a float: rounds toward zero. */
  function Trunc(x: real): int
  {
    if x >= 0.0 then x.Floor else -((-x).Floor)
  }

  /** `int(x)` is the integer next to `x` on the side of zero. */
  lemma TruncBounds(x: real)
    ensures 0.0 <= x ==> 0 <= Trunc(x) && Trunc(x) as real <= x < Trunc(x) as real + 1.0
    ensures x < 0.0 ==> Trunc(x) <= 0 && Trunc(x) as real - 1.0 < x <= Trunc(x) as real
  {
  }

  lemma TruncMonotone(x: real, y: real)
    requires x <= y
    ensures Trunc(x) <= Trunc(y)
  {
    TruncBounds(x);
    TruncBounds(y);
  }

  /** Integer division rounding toward zero, as `int(a / b)` does in Python
      for a positive divisor (Dafny's `/` rounds toward negative infinity). */
  function TruncDiv(a: int, b: int): int
    requires b > 0
  {
    if a >= 0 then a / b else -((-a) / b)
  }

  lemma FloorOfQuotient(n: nat, b: int)
    requires b > 0
    ensures (n as real / b as real).Floor == n / b
  {
    var q, r := n / b, n % b;
    var x := n as real / b as real;
    assert n as real == (q as real) * (b as real) + r as real;
    assert x == q as real + (r as real) / (b as real);
    assert 0.0 <= (r as real) / (b as real) < 1.0;
  }

  /** The integer rounding of `int(a / b)` agrees with truncating the exact quotient. */
  lemma TruncDivIsTrunc(a: int, b: int)
    requires b > 0
    ensures TruncDiv(a, b) == Trunc(a as real / b as real)
  {
    if a >= 0 {
      FloorOfQuotient(a, b);
    } else {
      FloorOfQuotient(-a, b);
      assert -(a as real / b as real) == (-a) as real / b as real;
    }
  }

  /** `int(v)` on any value: ints and bools convert, floats truncate,
      strings are parsed, everything else raises. */
  function IntOf(v: Value): Outcome<int>
  {
    match v
    case Int(i) => Returned(i)
    case Bool(b) => Returned(if b then 1 else 0)
    case Float(f) => Returned(Trunc(f))
    case Str(s) => if ParseInt(s).Some? then Returned(ParseInt(s).value) else Raised
    case _ => Raised
  }

  /** A value used as an operand of `-` with a float: ints, floats and bools
      are numbers, anything else raises TypeError. */
  function NumberOf(v: Value): Outcome<real>
  {
    match v
    case Int(i) => Returned(i as real)
    case Bool(b) => Returned(if b then 1.0 else 0.0)
    case Float(f) => Returned(f)
    case _ => Raised
  }

  /** `format(v, ",.2f")` succeeds: on ints, floats and bools. On `None`,
      a string, a list or a dict it raises (ValueError or TypeError). */
  predicate FormatsAsFixed(v: Value)
  {
    v.Int? || v.Float? || v.Bool?
  }

  /** `float(v)` succeeds on ints, floats and bools and raises TypeError on
      `None`, a list or a dict. A string is taken to be a well-formed
      number: Python's float syntax is not modelled. */
  predicate FloatAccepts(v: Value)
  {
    !(v.Null? || v.List? || v.Dict?)
  }

  lemma IntOfDecimal(n: int)
    ensures IntOf(Str(Decimal(n))) == Returned(n)
  {
    ParseDecimal(n);
  }
}
