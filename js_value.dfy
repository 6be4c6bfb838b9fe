/** Option, as the components use `null`/absent for "not loaded yet". */
module Wrappers {
  datatype Option<+T> = None | Some(value: T)
}

/** Character classes the components' regular expressions and parseInt use. */
module Chars {
  /** `\d` in a JavaScript regular expression: the ASCII digits only. */
  predicate IsDigit(c: char) {
    '0' <= c <= '9'
  }

  /** `\s` in a JavaScript regular expression: WhiteSpace and LineTerminator
      of ECMA-262 (sections 12.2 and 12.3), the Unicode Zs category included.
      parseInt skips exactly the same set before a number. */
  predicate IsSpace(c: char) {
    var x := c as int;
    x == 0x09 || x == 0x0A || x == 0x0B || x == 0x0C || x == 0x0D || x == 0x20 ||
    x == 0xA0 || x == 0x1680 || (0x2000 <= x <= 0x200A) || x == 0x2028 || x == 0x2029 ||
    x == 0x202F || x == 0x205F || x == 0x3000 || x == 0xFEFF
  }

  /** The decimal digit for `d`. */
  function DigitChar(d: nat): (c: char)
    requires d < 10
    ensures IsDigit(c) && c as int - '0' as int == d
  {
    ('0' as int + d) as char
  }
}

/** The JavaScript values that flow through the components: form fields,
    decoded token claims and parsed JSON. Numbers are integers: every number
    the components see is a parseInt result or an integer sent by the server.
    Negative zero is folded into 0; it is falsy and prints as "0" like 0. */
module JsValue {
  import opened Chars

  datatype Value =
    | Undefined
    | Null
    | Bool(b: bool)
    | Num(n: int)
    | NaN
    | Str(s: string)
    | Obj(fields: map<string, Value>)

  /** A plain JavaScript object: property name to value. */
  type Record = map<string, Value>

  /** JavaScript truthiness: `''`, `0`, `NaN`, `null`, `undefined` and `false` are falsy. */
  predicate Truthy(v: Value) {
    match v
    case Undefined => false
    case Null => false
    case Bool(b) => b
    case Num(n) => n != 0
    case NaN => false
    case Str(s) => s != ""
    case Obj(_) => true
  }

  /** `a || b` */
  function Or(a: Value, b: Value): Value {
    if Truthy(a) then a else b
  }

  /** The decimal numeral of `n`, without leading zeros. */
  function NatDecimal(n: nat): (s: string)
    ensures |s| > 0
    decreases n
  {
    if n < 10 then [DigitChar(n)] else NatDecimal(n / 10) + [DigitChar(n % 10)]
  }

  /** The numeral is made of decimal digits only. */
  lemma {:induction false} NatDecimalDigits(n: nat)
    ensures forall i :: 0 <= i < |NatDecimal(n)| ==> IsDigit(NatDecimal(n)[i])
    decreases n
  {
    if n >= 10 {
      NatDecimalDigits(n / 10);
      var s := NatDecimal(n);
      forall i | 0 <= i < |s|
        ensures IsDigit(s[i])
      {
        if i < |s| - 1 {
          assert s[i] == NatDecimal(n / 10)[i];
        }
      }
    }
  }

  /** `String(v)`, as template literals and `RegExp.prototype.test` apply it. */
  function ToStr(v: Value): string {
    match v
    case Undefined => "undefined"
    case Null => "null"
    case Bool(b) => if b then "true" else "false"
    case Num(n) => if n < 0 then "-" + NatDecimal(-n) else NatDecimal(n)
    case NaN => "NaN"
    case Str(s) => s
    case Obj(_) => "[object Object]"
  }

  /** `a === b`. NaN equals nothing; values of different types are never equal.
      Two objects are compared by contents here, where JavaScript compares
      references; the components only compare string ids and numbers. */
  predicate StrictEq(a: Value, b: Value) {
    !a.NaN? && !b.NaN? && a == b
  }

  /** `o.key` on an object: `undefined` when the property is absent. */
  function Prop(o: Record, key: string): Value {
    if key in o then o[key] else Undefined
  }

  /** `v?.key`: `undefined` unless `v` is an object holding `key`. */
  function OptionalProp(v: Value, key: string): Value {
    match v
    case Obj(m) => Prop(m, key)
    case _ => Undefined
  }
}
