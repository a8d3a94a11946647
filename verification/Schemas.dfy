/** The schema tree, what makes one safe to use, and the comparison `Equal`. */
module Schemas {
  import opened Values

  datatype Mixin = Mixin(name: string, description: string)

  /** `NoSchema` is Go's nil interface: an absent optional child, or a child not yet set. */
  datatype Schema =
    | NoSchema
    | AnySchema(mixin: Mixin)
    | NullSchema(mixin: Mixin)
    | BoolSchema(mixin: Mixin)
    | NumberSchema(mixin: Mixin, fMinimum: Option<real>, fMaximum: Option<real>,
                   exclusiveMinimum: Option<bool>, exclusiveMaximum: Option<bool>)
    | IntegerSchema(mixin: Mixin, iMinimum: Option<Int64>, iMaximum: Option<Int64>,
                    exclusiveMinimum: Option<bool>, exclusiveMaximum: Option<bool>)
    | StringSchema(mixin: Mixin, maxLength: Option<Int64>, minLength: Option<Int64>)
    | AnyOfSchema(mixin: Mixin, choices: seq<Schema>)
    | AllOfSchema(mixin: Mixin, choices: seq<Schema>)
    | NotSchema(mixin: Mixin, child: Schema)
    | ListSchema(mixin: Mixin, item: Schema, minItems: Option<Int64>, maxItems: Option<Int64>)
    | TupleSchema(mixin: Mixin, children: seq<Schema>, additionalItems: Schema)
    | ObjectSchema(mixin: Mixin, properties: map<string, Schema>, required: map<string, bool>,
                   additionalProperties: Schema)
    | MethodSchema(mixin: Mixin, params: seq<Schema>, result: Schema, additionalParams: Schema)

  const PLAIN := Mixin("", "")

  /** No nil child where `Scan`, `Map` or `Equal` calls a method of the child. */
  predicate Whole(s: Schema) {
    match s
    case NoSchema => false
    case AnyOfSchema(_, cs) => forall i | 0 <= i < |cs| :: Whole(cs[i])
    case AllOfSchema(_, cs) => forall i | 0 <= i < |cs| :: Whole(cs[i])
    case NotSchema(_, c) => Whole(c)
    case ListSchema(_, item, _, _) => Whole(item)
    case TupleSchema(_, cs, extra) =>
      && (forall i | 0 <= i < |cs| :: Whole(cs[i]))
      && (extra == NoSchema || Whole(extra))
    case ObjectSchema(_, props, _, extra) =>
      && (forall k | k in props :: Whole(props[k]))
      && (extra == NoSchema || Whole(extra))
    case MethodSchema(_, ps, res, extra) =>
      && (forall i | 0 <= i < |ps| :: Whole(ps[i]))
      && (res == NoSchema || Whole(res))
      && (extra == NoSchema || Whole(extra))
    case _ => true
  }

  /** `SetName` and `SetDescription`. */
  function WithMixin(s: Schema, m: Mixin): (r: Schema)
    requires s != NoSchema
    ensures r != NoSchema && r.mixin == m
  {
    s.(mixin := m)
  }

  /** The `Type` of a schema; lists and tuples share one. */
  function TypeName(s: Schema): string {
    match s
    case NoSchema => ""
    case AnySchema(_) => "any"
    case NullSchema(_) => "null"
    case BoolSchema(_) => "bool"
    case NumberSchema(_, _, _, _, _) => "number"
    case IntegerSchema(_, _, _, _, _) => "integer"
    case StringSchema(_, _, _) => "string"
    case AnyOfSchema(_, _) => "anyOf"
    case AllOfSchema(_, _) => "allOf"
    case NotSchema(_, _) => "not"
    case ListSchema(_, _, _, _) => "list"
    case TupleSchema(_, _, _) => "list"
    case ObjectSchema(_, _, _, _) => "object"
    case MethodSchema(_, _, _, _) => "method"
  }

  predicate NonNegative(bound: Option<Int64>) {
    bound.Some? ==> bound.value >= 0
  }

  /** What a built schema has beyond `Whole`: required names are declared, and length
      bounds are not negative. */
  predicate Tidy(s: Schema) {
    match s
    case StringSchema(_, max, min) => NonNegative(max) && NonNegative(min)
    case AnyOfSchema(_, cs) => forall i | 0 <= i < |cs| :: Tidy(cs[i])
    case AllOfSchema(_, cs) => forall i | 0 <= i < |cs| :: Tidy(cs[i])
    case NotSchema(_, c) => Tidy(c)
    case ListSchema(_, item, min, max) => NonNegative(min) && NonNegative(max) && Tidy(item)
    case TupleSchema(_, cs, extra) => (forall i | 0 <= i < |cs| :: Tidy(cs[i])) && Tidy(extra)
    case ObjectSchema(_, props, req, extra) =>
      && (forall k | k in props :: Tidy(props[k]))
      && (forall k | k in req :: k in props && req[k])
      && Tidy(extra)
    case MethodSchema(_, ps, res, extra) =>
      && (forall i | 0 <= i < |ps| :: Tidy(ps[i]))
      && Tidy(res) && Tidy(extra)
    case _ => true
  }

  // The comparisons below follow schema.go.  Each is shown to decide equality of the
  // two trees, so `Equal` is reflexive, symmetric and transitive, and nothing that
  // depends on a schema can tell equal schemas apart.

  method Equal(s: Schema, other: Schema) returns (eq: bool)
    requires Whole(s)
    ensures eq <==> s == other
    decreases s, 1
  {
    if other.NoSchema? || s.mixin != other.mixin {
      return false;
    }
    match s {
      case AnySchema(_) => eq := other.AnySchema?;
      case NullSchema(_) => eq := other.NullSchema?;
      case BoolSchema(_) => eq := other.BoolSchema?;
      case NumberSchema(_, _, _, _, _) =>
        eq := other.NumberSchema?
              && PointerEqual(s.fMaximum, other.fMaximum)
              && PointerEqual(s.fMinimum, other.fMinimum)
              && PointerEqual(s.exclusiveMaximum, other.exclusiveMaximum)
              && PointerEqual(s.exclusiveMinimum, other.exclusiveMinimum);
      case IntegerSchema(_, _, _, _, _) =>
        eq := other.IntegerSchema?
              && PointerEqual(s.iMaximum, other.iMaximum)
              && PointerEqual(s.iMinimum, other.iMinimum)
              && PointerEqual(s.exclusiveMaximum, other.exclusiveMaximum)
              && PointerEqual(s.exclusiveMinimum, other.exclusiveMinimum);
      case StringSchema(_, _, _) =>
        eq := other.StringSchema?
              && PointerEqual(s.maxLength, other.maxLength)
              && PointerEqual(s.minLength, other.minLength);
      case AnyOfSchema(_, cs) =>
        if !other.AnyOfSchema? { return false; }
        eq := SchemaListEqual(Some(cs), Some(other.choices), s);
      case AllOfSchema(_, cs) =>
        if !other.AllOfSchema? { return false; }
        eq := SchemaListEqual(Some(cs), Some(other.choices), s);
      case NotSchema(_, c) =>
        if !other.NotSchema? { return false; }
        eq := SubSchemaEqual(c, other.child, s);
      case ListSchema(_, item, _, _) =>
        if !other.ListSchema? || !PointerEqual(s.maxItems, other.maxItems)
           || !PointerEqual(s.minItems, other.minItems) {
          return false;
        }
        eq := SubSchemaEqual(item, other.item, s);
      case TupleSchema(_, cs, extra) =>
        if !other.TupleSchema? { return false; }
        eq := SubSchemaEqual(extra, other.additionalItems, s);
        if eq {
          eq := SchemaListEqual(Some(cs), Some(other.children), s);
        }
      case MethodSchema(_, ps, res, extra) =>
        if !other.MethodSchema? { return false; }
        eq := SubSchemaEqual(extra, other.additionalParams, s);
        if eq {
          eq := SchemaListEqual(Some(ps), Some(other.params), s);
        }
        if eq {
          eq := SubSchemaEqual(res, other.result, s);
        }
      case ObjectSchema(_, props, req, extra) =>
        if !other.ObjectSchema? { return false; }
        eq := SchemaMapEqual(Some(props), Some(other.properties), s);
        if eq {
          eq := SchemaMapValueEqual(Some(req), Some(other.required));
        }
        if eq {
          eq := SubSchemaEqual(extra, other.additionalProperties, s);
        }
    }
  }

  function PointerEqual<T(==)>(p1: Option<T>, p2: Option<T>): (eq: bool)
    ensures eq <==> p1 == p2
  {
    if p1.Some? && p2.Some? then p1.value == p2.value
    else p1.None? && p2.None?
  }

  method SubSchemaEqual(s1: Schema, s2: Schema, ghost parent: Schema) returns (eq: bool)
    requires s1 < parent && (s1 == NoSchema || Whole(s1))
    ensures eq <==> s1 == s2
    decreases parent, 0
  {
    if !s1.NoSchema? && !s2.NoSchema? {
      eq := Equal(s1, s2);
    } else {
      eq := s1.NoSchema? && s2.NoSchema?;
    }
  }

  /** A nil list, which is `None` here, is equal to a nil list only. */
  method SchemaListEqual(l1: Option<seq<Schema>>, l2: Option<seq<Schema>>, ghost parent: Schema) returns (eq: bool)
    requires l1.Some? ==> forall i | 0 <= i < |l1.value| :: l1.value[i] < parent && Whole(l1.value[i])
    ensures eq <==> l1 == l2
    decreases parent, 0
  {
    if l1.None? || l2.None? {
      return l1.None? && l2.None?;
    }
    var a, b := l1.value, l2.value;
    if |a| != |b| {
      return false;
    }
    for i := 0 to |a|
      invariant a[..i] == b[..i]
    {
      var same := Equal(a[i], b[i]);
      if !same {
        return false;
      }
    }
    assert a == a[..|a|] == b[..|b|] == b;
    return true;
  }

  /** Only the keys of the first map are visited, in any order; that the sizes agree makes
      the key sets agree. */
  method SchemaMapEqual(m1: Option<map<string, Schema>>, m2: Option<map<string, Schema>>, ghost parent: Schema)
    returns (eq: bool)
    requires m1.Some? ==> forall k | k in m1.value :: m1.value[k] < parent && Whole(m1.value[k])
    ensures eq <==> m1 == m2
    decreases parent, 0
  {
    if m1.None? || m2.None? {
      return m1.None? && m2.None?;
    }
    var a, b := m1.value, m2.value;
    if |a| != |b| {
      return false;
    }
    var todo := a.Keys;
    while todo != {}
      invariant todo <= a.Keys
      invariant forall k | k in a.Keys - todo :: k in b && a[k] == b[k]
      decreases |todo|
    {
      var key :| key in todo;
      if key !in b {
        return false;
      }
      var same := Equal(a[key], b[key]);
      if !same {
        return false;
      }
      todo := todo - {key};
    }
    SameSizeSameKeys(a.Keys, b.Keys);
    assert a == b;
    return true;
  }

  method SchemaMapValueEqual<T(==)>(m1: Option<map<string, T>>, m2: Option<map<string, T>>) returns (eq: bool)
    ensures eq <==> m1 == m2
  {
    if m1.None? || m2.None? {
      return m1.None? && m2.None?;
    }
    var a, b := m1.value, m2.value;
    if |a| != |b| {
      return false;
    }
    var todo := a.Keys;
    while todo != {}
      invariant todo <= a.Keys
      invariant forall k | k in a.Keys - todo :: k in b && a[k] == b[k]
      decreases |todo|
    {
      var key :| key in todo;
      if key !in b || a[key] != b[key] {
        return false;
      }
      todo := todo - {key};
    }
    SameSizeSameKeys(a.Keys, b.Keys);
    assert a == b;
    return true;
  }

  lemma SameSizeSameKeys<K>(a: set<K>, b: set<K>)
    requires a <= b && |a| == |b|
    ensures a == b
  {
    assert b == a + (b - a);
    assert |b| == |a| + |b - a|;
  }
}
