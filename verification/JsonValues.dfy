/**
 Parsed JSON values and their comparison as Python makes it: numbers compare by value whatever their kind,
 containers member by member.
 */
module JsonValues {

  datatype Float = Finite(x: real) | MinusZero | Infinite(negative: bool) | NotANumber

  datatype Json =
    | Null | Bool(b: bool) | Int(n: int) | Float(f: Float) | Str(s: string) | List(items: seq<Json>) | Object(members: map<string, Json>)

  datatype Number = At(x: real) | Beyond(negative: bool)

  predicate Numeric(v: Json) {
    v.Bool? || v.Int? || (v.Float? && !v.f.NotANumber?)
  }

  function NumberOf(v: Json): Number
    requires Numeric(v)
  {
    match v
    case Bool(b) => At(if b then 1.0 else 0.0)
    case Int(n) => At(n as real)
    case Float(Finite(x)) => At(x)
    case Float(MinusZero) => At(0.0)
    case Float(Infinite(negative)) => Beyond(negative)
  }

  /** The comparison of two members of containers; the parser's one not-a-number object is itself. */
  predicate Same(a: Json, b: Json) {
    if Numeric(a) && Numeric(b) then NumberOf(a) == NumberOf(b)
    else
      match a
      case List(x) => b.List? && |x| == |b.items| && forall i | 0 <= i < |x| :: Same(x[i], b.items[i])
      case Object(m) => b.Object? && m.Keys == b.members.Keys && forall k | k in m :: Same(m[k], b.members[k])
      case _ => a == b
  }

  /** `a == b` of two parsed values. */
  predicate Equals(a: Json, b: Json) {
    Same(a, b) && a != Float(NotANumber)
  }

  lemma {:induction false} SameReflexive(a: Json)
    ensures Same(a, a)
  {
    match a
    case List(x) => forall i | 0 <= i < |x| ensures Same(x[i], x[i]) { SameReflexive(x[i]); }
    case Object(m) => forall k | k in m ensures Same(m[k], m[k]) { SameReflexive(m[k]); }
    case _ =>
  }

  lemma {:induction false} SameSymmetric(a: Json, b: Json)
    requires Same(a, b)
    ensures Same(b, a)
  {
    match a
    case List(x) => forall i | 0 <= i < |x| ensures Same(b.items[i], x[i]) { SameSymmetric(x[i], b.items[i]); }
    case Object(m) => forall k | k in m ensures Same(b.members[k], m[k]) { SameSymmetric(m[k], b.members[k]); }
    case _ =>
  }

  lemma {:induction false} SameTransitive(a: Json, b: Json, c: Json)
    requires Same(a, b) && Same(b, c)
    ensures Same(a, c)
  {
    match a
    case List(x) => forall i | 0 <= i < |x| ensures Same(x[i], c.items[i]) { SameTransitive(x[i], b.items[i], c.items[i]); }
    case Object(m) => forall k | k in m ensures Same(m[k], c.members[k]) { SameTransitive(m[k], b.members[k], c.members[k]); }
    case _ =>
  }

  /** Only integers among its numbers: no truth values and no floats. */
  predicate Plain(a: Json) {
    match a
    case Bool(_) => false
    case Float(_) => false
    case List(x) => forall i | 0 <= i < |x| :: Plain(x[i])
    case Object(m) => forall k | k in m :: Plain(m[k])
    case _ => true
  }

  /** Plain values compare equal only when they are spelled alike. */
  lemma {:induction false} PlainSameIsEqual(a: Json, b: Json)
    requires Plain(a) && Plain(b) && Same(a, b)
    ensures a == b
  {
    match a
    case List(x) => forall i | 0 <= i < |x| ensures x[i] == b.items[i] { PlainSameIsEqual(x[i], b.items[i]); }
    case Object(m) => forall k | k in m ensures m[k] == b.members[k] { PlainSameIsEqual(m[k], b.members[k]); }
    case _ =>
  }
}
