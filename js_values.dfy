/** The JavaScript values the client works with: parsed JSON bodies (plus
    `undefined` for an absent property), truthiness, property access, and
    numbers with NaN and the infinities, so that a division the client does not
    guard against zero is modelled as JavaScript evaluates it. Numbers are
    exact reals; rounding to doubles is not modelled. */
module JsValues {
  import opened Wrappers
  import opened Text

  /** A JSON value as `res.json()` produces it, or `undefined`. */
  datatype Json =
    | Undefined
    | Null
    | Bool(b: bool)
    | Num(n: real)
    | Str(s: string)
    | Arr(items: seq<Json>)
    | Obj(fields: seq<(string, Json)>)

  /** JavaScript's truthiness: `undefined`, `null`, `false`, `0` and `""` are
      falsy; every array and object is truthy, even an empty one. */
  predicate Truthy(v: Json)
  {
    match v
    case Undefined => false
    case Null => false
    case Bool(b) => b
    case Num(n) => n != 0.0
    case Str(s) => s != ""
    case Arr(_) => true
    case Obj(_) => true
  }

  /** The value bound to `k` in an object's fields; the last binding wins, as
      in `JSON.parse`, and an absent key reads as `undefined`. */
  function Lookup(fields: seq<(string, Json)>, k: string): (v: Json)
    ensures (forall i :: 0 <= i < |fields| ==> fields[i].0 != k) ==> v == Undefined
    decreases |fields|
  {
    if |fields| == 0 then Undefined
    else if fields[|fields| - 1].0 == k then fields[|fields| - 1].1
    else Lookup(fields[..|fields| - 1], k)
  }

  /** The binding found is the last one for the key. */
  lemma {:induction false} LookupLast(fields: seq<(string, Json)>, k: string, i: nat)
    requires i < |fields| && fields[i].0 == k
    requires forall j :: i < j < |fields| ==> fields[j].0 != k
    ensures Lookup(fields, k) == fields[i].1
    decreases |fields|
  {
    if i < |fields| - 1 {
      var init := fields[..|fields| - 1];
      assert init[i] == fields[i];
      LookupLast(init, k, i);
    }
  }

  /** Binding a key at the end shadows earlier bindings of it and leaves the
      other keys alone. */
  lemma LookupSet(fields: seq<(string, Json)>, k: string, v: Json, other: string)
    ensures Lookup(fields + [(k, v)], k) == v
    ensures other != k ==> Lookup(fields + [(k, v)], other) == Lookup(fields, other)
  {
    assert (fields + [(k, v)])[..|fields|] == fields;
  }

  /** The property access `v.k`, for the property names the client reads (none
      of which arrays or strings have). None where JavaScript throws a
      `TypeError`: reading a property of `null` or `undefined`. */
  function Field(v: Json, k: string): (r: Option<Json>)
    ensures r.None? <==> v.Null? || v.Undefined?
    ensures v.Obj? ==> r == Some(Lookup(v.fields, k))
    ensures !v.Obj? && r.Some? ==> r.value == Undefined
  {
    match v
    case Undefined => None
    case Null => None
    case Obj(fs) => Some(Lookup(fs, k))
    case _ => Some(Undefined)
  }

  /** `v?.k`: optional chaining reads `undefined` instead of throwing. */
  function OptField(v: Json, k: string): (r: Json)
    ensures v.Obj? ==> r == Lookup(v.fields, k)
    ensures !v.Obj? ==> r == Undefined
  {
    match Field(v, k)
    case Some(x) => x
    case None => Undefined
  }

  // ---- numbers ----------------------------------------------------------------

  /** A JavaScript number. */
  datatype Number = Finite(r: real) | NaN | Infinity(negative: bool)

  /** `a / b` on two finite numbers: dividing by zero gives an infinity with
      the sign of `a`, or NaN when `a` is zero too. */
  function Div(a: real, b: real): (q: Number)
    ensures b != 0.0 ==> q == Finite(a / b)
    ensures b == 0.0 ==> (q.NaN? <==> a == 0.0)
    ensures b == 0.0 && a != 0.0 ==> q == Infinity(a < 0.0)
  {
    if b != 0.0 then Finite(a / b)
    else if a == 0.0 then NaN
    else Infinity(a < 0.0)
  }

  /** `a / b` on any two numbers. */
  function DivN(a: Number, b: Number): (q: Number)
    ensures a.Finite? && b.Finite? ==> q == Div(a.r, b.r)
    ensures a.NaN? || b.NaN? ==> q.NaN?
    ensures a.Finite? && b.Infinity? ==> q == Finite(0.0)
  {
    match (a, b)
    case (Finite(x), Finite(y)) => Div(x, y)
    case (Finite(_), Infinity(_)) => Finite(0.0)
    case (Infinity(n), Finite(y)) => Infinity(n != (y < 0.0))
    case (_, _) => NaN
  }

  /** A property read as a number: a JSON number is itself, and anything else
      is taken as NaN. */
  function AsNumber(v: Json): (x: Number)
    ensures v.Num? ==> x == Finite(v.n)
    ensures !v.Num? ==> x.NaN?
  {
    if v.Num? then Finite(v.n) else NaN
  }

  lemma MulLess(a: real, b: real, k: real)
    requires a < b && k > 0.0
    ensures a * k < b * k
  {
    assert b * k - a * k == (b - a) * k;
  }

  /** A part of a positive whole is a share between 0 and 1. */
  lemma ShareBounds(part: real, whole: real)
    requires 0.0 <= part <= whole && whole > 0.0
    ensures 0.0 <= part / whole <= 1.0
  {
    var q := part / whole;
    assert q * whole == part;
    if q > 1.0 {
      MulLess(1.0, q, whole);
    }
    if q < 0.0 {
      MulLess(q, 0.0, whole);
    }
  }

  /** `a - b`. */
  function Minus(a: Number, b: Number): (d: Number)
    ensures a.Finite? && b.Finite? ==> d == Finite(a.r - b.r)
    ensures a.NaN? || b.NaN? ==> d.NaN?
  {
    match (a, b)
    case (Finite(x), Finite(y)) => Finite(x - y)
    case (Infinity(n), Finite(_)) => Infinity(n)
    case (Finite(_), Infinity(n)) => Infinity(!n)
    case (Infinity(n), Infinity(m)) => if n == m then NaN else Infinity(n)
    case (_, _) => NaN
  }

  /** `x > 0`: false for NaN. */
  predicate Positive(x: Number)
  {
    match x
    case Finite(r) => r > 0.0
    case NaN => false
    case Infinity(neg) => !neg
  }

  /** `x * k` for a positive finite `k`. */
  function Scale(x: Number, k: real): (y: Number)
    requires k > 0.0
    ensures x.Finite? <==> y.Finite?
    ensures x.Finite? ==> y.r == x.r * k
    ensures !x.Finite? ==> y == x
  {
    match x
    case Finite(r) => Finite(r * k)
    case _ => x
  }

  /** `(a / b) * 100`. */
  function Percent(a: real, b: real): (p: Number)
    ensures b != 0.0 ==> p == Finite(a / b * 100.0)
    ensures b == 0.0 ==> !p.Finite?
  {
    Scale(Div(a, b), 100.0)
  }

  /** `Math.max(x, y)` for a finite `y`: NaN stays NaN. */
  function Max(x: Number, y: real): (m: Number)
    ensures m.NaN? <==> x.NaN?
    ensures m.Finite? ==> m.r >= y && (m.r == y || (x.Finite? && m.r == x.r))
    ensures x.Finite? ==> m.Finite?
    ensures x == Infinity(false) ==> m == x
  {
    match x
    case NaN => NaN
    case Infinity(neg) => if neg then Finite(y) else x
    case Finite(r) => Finite(if r >= y then r else y)
  }

  predicate NumberTruthy(x: Number)
  {
    match x
    case Finite(r) => r != 0.0
    case NaN => false
    case Infinity(_) => true
  }

  /** `x || d` on a number: the number when it is truthy, else `d`. */
  function OrElse(x: Number, d: real): (y: Number)
    ensures NumberTruthy(x) ==> y == x
    ensures !NumberTruthy(x) ==> y == Finite(d)
  {
    if NumberTruthy(x) then x else Finite(d)
  }

  /** The least integer at or above `r`. */
  function CeilReal(r: real): (c: int)
    ensures c as real >= r && (c as real) - 1.0 < r
  {
    -((-r).Floor)
  }

  /** `Math.ceil(x)`. */
  function Ceil(x: Number): (y: Number)
    ensures x.Finite? <==> y.Finite?
    ensures x.Finite? ==> y.r == CeilReal(x.r) as real
    ensures !x.Finite? ==> y == x
  {
    match x
    case Finite(r) => Finite(CeilReal(r) as real)
    case _ => x
  }

  /** `page >= x` for a finite `page`: every comparison with NaN is false. */
  predicate AtLeast(page: real, x: Number)
  {
    match x
    case Finite(r) => page >= r
    case NaN => false
    case Infinity(neg) => neg
  }

  /** The value `parseFloat(x.toFixed(1))` reads back for a non-negative `x`:
      the nearest tenth, halves rounded up. */
  function Tenths(x: real): (t: real)
    requires x >= 0.0
    ensures t - 0.05 <= x < t + 0.05
    ensures (t * 10.0).Floor as real == t * 10.0
  {
    ((x * 10.0 + 0.5).Floor as real) / 10.0
  }

  /** `String(v)`, for the values whose text the model covers: None for an
      array, a number with a fraction, and an integer of 1e21 or more in size
      (written in exponent notation). */
  function ToText(v: Json): (t: Option<string>)
    ensures v.Str? ==> t == Some(v.s)
    ensures v.Undefined? ==> t == Some("undefined")
    ensures v.Null? ==> t == Some("null")
    ensures t.Some? && v.Num? ==> t.value == IntToString(v.n.Floor)
    ensures t.Some? && t.value == "" ==> v == Str("")
  {
    match v
    case Undefined => Some("undefined")
    case Null => Some("null")
    case Bool(b) => Some(if b then "true" else "false")
    case Num(n) =>
      if n == n.Floor as real && -1e21 < n < 1e21 then Some(IntToString(n.Floor)) else None
    case Str(s) => Some(s)
    case Arr(_) => None
    case Obj(_) => Some("[object Object]")
  }
}
