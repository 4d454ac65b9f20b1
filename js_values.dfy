/** The slice of JavaScript's value semantics that the cart store relies on:
    plain objects read by field name, truthiness (which decides `a || b`), and
    the `+` that accumulates a running total, where a string operand turns the
    whole sum into a string. Numbers are integers here (prices in minor
    currency units); floating point and NaN are not modelled. */
module JsValues {

  /** A primitive JavaScript value that can sit in a field of a cart entry. */
  datatype Value = Undefined | Null | Bool(b: bool) | Num(n: int) | Str(s: string)

  /** A plain object: its own enumerable fields, by name. */
  type Object = map<string, Value>

  /** `o.key`: reading a field the object does not have yields `undefined`. */
  function Field(o: Object, key: string): (v: Value)
  {
    if key in o then o[key] else Undefined
  }

  /** JavaScript truthiness: `undefined`, `null`, `false`, `0` and `""` are falsy. */
  predicate Truthy(v: Value)
  {
    match v
    case Undefined => false
    case Null => false
    case Bool(b) => b
    case Num(n) => n != 0
    case Str(s) => s != ""
  }

  /** `v || w`: the left operand when it is truthy, otherwise the right one. */
  function Or(v: Value, w: Value): (r: Value)
    ensures Truthy(r) <==> Truthy(v) || Truthy(w)
    ensures r == v || r == w
  {
    if Truthy(v) then v else w
  }

  /** The value of a running `+` chain: still a number, or already a string
      (once a string enters `+`, every later `+` concatenates). The text of
      the string is not tracked. */
  datatype Sum = Amount(n: int) | Concatenated

  /** `a + b` on two running values. */
  function Plus(a: Sum, b: Sum): (r: Sum)
  {
    match (a, b)
    case (Amount(x), Amount(y)) => Amount(x + y)
    case _ => Concatenated
  }

  lemma PlusZero(a: Sum)
    ensures Plus(a, Amount(0)) == a && Plus(Amount(0), a) == a
  {
  }

  lemma PlusAssociative(a: Sum, b: Sum, c: Sum)
    ensures Plus(Plus(a, b), c) == Plus(a, Plus(b, c))
  {
  }

  lemma PlusCommutative(a: Sum, b: Sum)
    ensures Plus(a, b) == Plus(b, a)
  {
  }
}
