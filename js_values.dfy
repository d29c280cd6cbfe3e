/** The few JavaScript value semantics the scenario runner relies on: the
    values a scenario step may carry in its optional numeric fields,
    truthiness and the `||` operator, `toString()`, and the bitwise `^`. */
module JsValues {
  import opened Decimal

  /** A value read from a scenario document for `gas`, `gas_price` or
      `value`: a missing field, `null`, a non-negative integer or a string. */
  datatype JsValue = Undefined | Null | Num(n: nat) | Str(s: string)

  /** JavaScript truthiness: `undefined`, `null`, `0` and `""` are falsy. */
  predicate Truthy(v: JsValue) {
    match v
    case Undefined => false
    case Null => false
    case Num(n) => n != 0
    case Str(s) => s != ""
  }

  /** `a || b`: the left operand when it is truthy, otherwise the right one. */
  function Or(a: JsValue, b: JsValue): JsValue {
    if Truthy(a) then a else b
  }

  /** The values whose `toString()` does not throw. */
  predicate Stringifiable(v: JsValue) {
    v.Num? || v.Str?
  }

  /** `v.toString()`: a number becomes its decimal numeral, a string is
      itself. */
  function ToString(v: JsValue): (s: string)
    requires Stringifiable(v)
    ensures v.Num? ==> IsCanonical(s) && ParseDecimal(s) == v.n
    ensures v.Str? ==> s == v.s
  {
    match v
    case Num(n) => ParseNatToString(n); NatToString(n)
    case Str(s) => s
  }

  /** `a ^ b` on operands that fit in a signed 32-bit integer: bitwise
      exclusive or, not exponentiation. */
  function BitwiseXor(a: nat, b: nat): nat
    requires a < 0x8000_0000 && b < 0x8000_0000
  {
    ((a as bv32) ^ (b as bv32)) as nat
  }

  /** `a || b` never yields a falsy value when `b` is truthy, and replaces
      every falsy `a`, an explicit `0` or `""` included. */
  lemma OrDefaults(a: JsValue, b: JsValue)
    ensures Truthy(b) ==> Truthy(Or(a, b))
    ensures Or(a, b) == a <==> Truthy(a) || a == b
    ensures Or(Num(0), b) == b && Or(Str(""), b) == b
  {
  }
}
