/** JavaScript values, as far as the server core inspects them. */
module Js {

  datatype Option<+T> = None | Some(value: T)

  /** A JavaScript value. Numbers are modelled as integers; a function value is
      only told apart by an identity; an object (arrays included) is the map
      from each property name to the value a read of it returns, whether the
      property is the object's own, inherited from its prototype, or a getter. */
  datatype Value =
    | Undefined
    | Null
    | Bool(b: bool)
    | Num(n: int)
    | Str(s: string)
    | Func(id: nat)
    | Obj(props: map<string, Value>)

  /** `!!x` */
  predicate Truthy(x: Value) {
    match x
    case Undefined => false
    case Null => false
    case Bool(b) => b
    case Num(n) => n != 0
    case Str(s) => s != ""
    case Func(_) => true
    case Obj(_) => true
  }

  /** `typeof x === 'object'`, which JavaScript also answers with true for null */
  predicate TypeofObject(x: Value) {
    x.Null? || x.Obj?
  }

  /** Property read `x[key]` on a value that is known not to be null or undefined;
      a property the object does not have reads as undefined. */
  function Get(x: Value, key: string): Value {
    if x.Obj? && key in x.props then x.props[key] else Undefined
  }

  function DigitChar(d: nat): (c: char)
    requires d < 10
    ensures '0' <= c <= '9'
    ensures c as int - '0' as int == d
  {
    "0123456789"[d]
  }

  /** The number a string of decimal digits denotes, read most significant digit first. */
  function DigitsValue(s: string): int
    decreases |s|
  {
    if |s| == 0 then 0 else 10 * DigitsValue(s[..|s| - 1]) + (s[|s| - 1] as int - '0' as int)
  }

  /** How JSON.stringify prints a non-negative integer: decimal digits, no sign,
      no leading zero, denoting exactly `n`. */
  function Decimal(n: nat): (s: string)
    ensures |s| > 0
    ensures forall i :: 0 <= i < |s| ==> '0' <= s[i] <= '9'
    ensures |s| > 1 ==> s[0] != '0'
    ensures n == 0 ==> s == "0"
    ensures DigitsValue(s) == n
    decreases n
  {
    if n < 10 then [DigitChar(n)]
    else
      var s := Decimal(n / 10) + [DigitChar(n % 10)];
      assert s[..|s| - 1] == Decimal(n / 10);
      s
  }
}
