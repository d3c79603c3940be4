/** JSON values as Python's json module delivers them, with the three equalities the
    settings code uses: `==`, `_deep_equals`, and equality of canonical text. */
module Json {

  /** Floats are exact and never NaN. An object is a finite map: key order plays no part below. */
  datatype Json =
    | Null
    | Bool(b: bool)
    | Int(i: int)
    | Float(r: real)
    | Str(s: string)
    | Arr(items: seq<Json>)
    | Obj(fields: map<string, Json>)

  type Dict = map<string, Json>

  /** Python's truth value. */
  predicate Truthy(v: Json) {
    match v
    case Null => false
    case Bool(b) => b
    case Int(i) => i != 0
    case Float(r) => r != 0.0
    case Str(s) => s != ""
    case Arr(items) => items != []
    case Obj(fields) => fields != map[]
  }

  predicate Hashable(v: Json) { !v.Arr? && !v.Obj? }

  predicate IsNumber(v: Json) { v.Bool? || v.Int? || v.Float? }

  function NumberValue(v: Json): real
    requires IsNumber(v)
  {
    match v
    case Bool(b) => if b then 1.0 else 0.0
    case Int(i) => i as real
    case Float(r) => r
  }

  /** Python's `==`: numbers and booleans compare by value, so 1 == 1.0 == True. */
  predicate PyEq(a: Json, b: Json) {
    if IsNumber(a) && IsNumber(b) then NumberValue(a) == NumberValue(b) else
    match (a, b)
    case (Arr(xs), Arr(ys)) => |xs| == |ys| && forall i | 0 <= i < |xs| :: PyEq(xs[i], ys[i])
    case (Obj(f), Obj(g)) => f.Keys == g.Keys && forall k | k in f.Keys :: PyEq(f[k], g[k])
    case (_, _) => a == b
  }

  /** `x in xs` for a Python list. */
  predicate PyIn(x: Json, xs: seq<Json>) {
    exists y | y in xs :: PyEq(x, y)
  }

  /** _deep_equals: like `==` but the types must agree at every level. */
  predicate DeepEquals(a: Json, b: Json) {
    match (a, b)
    case (Arr(xs), Arr(ys)) => |xs| == |ys| && forall i | 0 <= i < |xs| :: DeepEquals(xs[i], ys[i])
    case (Obj(f), Obj(g)) => f.Keys == g.Keys && forall k | k in f.Keys :: DeepEquals(f[k], g[k])
    case (_, _) => a == b
  }

  lemma {:induction false} DeepEqualsIsIdentity(a: Json, b: Json)
    ensures DeepEquals(a, b) <==> a == b
  {
    match (a, b)
    case (Arr(xs), Arr(ys)) =>
      forall i | 0 <= i < |xs| && i < |ys| { DeepEqualsIsIdentity(xs[i], ys[i]); }
    case (Obj(f), Obj(g)) =>
      forall k | k in f.Keys && k in g.Keys { DeepEqualsIsIdentity(f[k], g[k]); }
      assert DeepEquals(a, b) ==> f == g;
    case (_, _) =>
  }

  /** `==` is coarser than _deep_equals ... */
  lemma {:induction false} PyEqReflexive(a: Json)
    ensures PyEq(a, a)
  {
    match a
    case Arr(xs) => forall i | 0 <= i < |xs| { PyEqReflexive(xs[i]); }
    case Obj(f) => forall k | k in f.Keys { PyEqReflexive(f[k]); }
    case _ =>
  }

  /** ... strictly so: the two differ on a padding of 0 and a padding of False. */
  lemma PyEqIsCoarser()
    ensures PyEq(Obj(map["padding" := Int(0)]), Obj(map["padding" := Bool(false)]))
    ensures !DeepEquals(Obj(map["padding" := Int(0)]), Obj(map["padding" := Bool(false)]))
  {
    var f, g := map["padding" := Int(0)], map["padding" := Bool(false)];
    assert PyEq(f["padding"], g["padding"]);
    assert f.Keys == g.Keys;
    DeepEqualsIsIdentity(f["padding"], g["padding"]);
    DeepEqualsIsIdentity(Obj(f), Obj(g));
  }

  /** On strings the two agree, so membership of a permission entry is plain membership. */
  lemma StringMembership(s: string, xs: seq<Json>)
    ensures PyIn(Str(s), xs) <==> Str(s) in xs
  {
    if Str(s) in xs { PyEqReflexive(Str(s)); }
  }
}
