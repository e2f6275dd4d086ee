/** JSON values as the routers see them after `JSON.parse`, and the few
    JavaScript operators the handlers apply to them: property access,
    object spread, strict equality (`===`), truthiness, and the number
    coercion of `+` and `*` with NaN written back as null. Numbers are
    integers here, so that `price * quantity` is exact. */
module Json {

  datatype Option<+T> = None | Some(value: T)

  datatype Value =
    | Null
    | Bool(b: bool)
    | Num(n: int)
    | Str(s: string)
    | Arr(elems: seq<Value>)
    | Obj(fields: map<string, Value>)

  /** A JSON object: a user, a product, a cart, a cart line item or a request body. */
  type Record = map<string, Value>

  /** Property access `r.k`; `None` stands for `undefined`. */
  function Get(r: Record, k: string): (v: Option<Value>)
    ensures v.Some? <==> k in r
    ensures v.Some? ==> v.value == r[k]
  {
    if k in r then Some(r[k]) else None
  }

  /** Object spread `{ ...a, ...b }`: every field of either, and `b` wins
      where both have one. */
  function Spread(a: Record, b: Record): (r: Record)
    ensures r.Keys == a.Keys + b.Keys
    ensures forall k :: k in b ==> r[k] == b[k]
    ensures forall k :: k in a && k !in b ==> r[k] == a[k]
  {
    a + b
  }

  /** `r.k` when it holds a number. */
  function NumField(r: Record, k: string): (v: Option<int>)
    ensures v.Some? <==> k in r && r[k].Num?
    ensures v.Some? ==> r[k] == Num(v.value)
  {
    if k in r && r[k].Num? then Some(r[k].n) else None
  }

  /** The result of JavaScript arithmetic: an integer, or NaN. */
  datatype Number = Finite(n: int) | NaN

  /** The number JavaScript's `+` and `*` take from a property read that is
      not a string, an array or an object: undefined gives NaN, null and
      false give 0, true gives 1. Strings, arrays and objects give `None`:
      `+` would concatenate them, which is not modelled. */
  function Numeric(v: Option<Value>): (x: Option<Number>)
    ensures x.None? <==> v.Some? && (v.value.Str? || IsReference(v.value))
    ensures v.None? ==> x == Some(NaN)
    ensures v == Some(Null) || v == Some(Bool(false)) ==> x == Some(Finite(0))
    ensures v == Some(Bool(true)) ==> x == Some(Finite(1))
    ensures v.Some? && v.value.Num? ==> x == Some(Finite(v.value.n))
  {
    match v
    case None => Some(NaN)
    case Some(Null) => Some(Finite(0))
    case Some(Bool(b)) => Some(Finite(if b then 1 else 0))
    case Some(Num(n)) => Some(Finite(n))
    case Some(_) => None
  }

  /** `a + b`: NaN when either is. */
  function Add(a: Number, b: Number): (c: Number)
    ensures c.NaN? <==> a.NaN? || b.NaN?
    ensures c.Finite? ==> c.n == a.n + b.n
  {
    if a.NaN? || b.NaN? then NaN else Finite(a.n + b.n)
  }

  /** `a * b`: NaN when either is. */
  function Mul(a: Number, b: Number): (c: Number)
    ensures c.NaN? <==> a.NaN? || b.NaN?
    ensures c.Finite? ==> c.n == a.n * b.n
  {
    if a.NaN? || b.NaN? then NaN else Finite(a.n * b.n)
  }

  /** A number as `JSON.stringify` writes it: NaN becomes null. */
  function Stored(x: Number): (v: Value)
    ensures v.Num? <==> x.Finite?
    ensures x.Finite? ==> v == Num(x.n)
    ensures x.NaN? ==> v == Null
  {
    match x
    case Finite(n) => Num(n)
    case NaN => Null
  }

  /** Reading back a stored number gives the number, except NaN, which was
      written as null and comes back as 0. */
  lemma StoredNumberReadsBack(x: Number)
    ensures Numeric(Some(Stored(x))) == Some(if x.NaN? then Finite(0) else x)
  {
  }

  /** A value that JavaScript compares by identity rather than by content. */
  predicate IsReference(v: Value) {
    v.Arr? || v.Obj?
  }

  /** JavaScript's `a === b` on two property reads. Two arrays or objects are
      never strictly equal here: each comes from its own `JSON.parse`, so they
      are distinct references even when their contents agree. */
  function StrictEquals(a: Option<Value>, b: Option<Value>): (eq: bool)
    ensures eq ==> a == b
    ensures a == b && (a.None? || !IsReference(a.value)) ==> eq
    ensures a.Some? && IsReference(a.value) ==> !eq
  {
    match (a, b)
    case (None, None) => true
    case (Some(x), Some(y)) => x == y && !IsReference(x)
    case _ => false
  }

  /** JavaScript truthiness of a property read (`if (r.k)`, `r.k || d`). */
  function Truthy(v: Option<Value>): (t: bool)
    ensures v.None? || v == Some(Null) ==> !t
    ensures v.Some? && IsReference(v.value) ==> t
    ensures v.Some? && v.value.Str? ==> (t <==> v.value.s != "")
    ensures v.Some? && v.value.Num? ==> (t <==> v.value.n != 0)
    ensures v.Some? && v.value.Bool? ==> t == v.value.b
  {
    match v
    case None => false
    case Some(Null) => false
    case Some(Bool(b)) => b
    case Some(Num(n)) => n != 0
    case Some(Str(s)) => s != ""
    case Some(Arr(_)) => true
    case Some(Obj(_)) => true
  }
}
