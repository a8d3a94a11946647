/** How a published schema, which has forgotten some bounds, compares with the schema that
    calls are checked against. */
module Relaxation {
  import opened Values
  import opened Schemas
  import opened Meaning
  import opened Printer
  import opened BuildSpec
  import opened RoundTrip

  /** The direction in which forgetting may change a verdict. */
  datatype Polarity = Loosens | Tightens

  function Flip(p: Polarity): Polarity {
    if p.Loosens? then Tightens else Loosens
  }

  /** Forgetting moves `s` one way only: string and list bounds, whose loss loosens, lie
      where loosening is wanted; tuple extras, whose loss tightens, lie where it is not. */
  ghost predicate OneWay(s: Schema, p: Polarity) {
    match s
    case StringSchema(_, max, min) => p.Loosens? || (max.None? && min.None?)
    case AnyOfSchema(_, cs) => forall i | 0 <= i < |cs| :: OneWay(cs[i], p)
    case AllOfSchema(_, cs) => forall i | 0 <= i < |cs| :: OneWay(cs[i], p)
    case NotSchema(_, c) => OneWay(c, Flip(p))
    case ListSchema(_, item, min, max) => (p.Loosens? || (max.None? && min.None?)) && OneWay(item, p)
    case TupleSchema(_, cs, extra) =>
      (p.Tightens? || extra == NoSchema) && forall i | 0 <= i < |cs| :: OneWay(cs[i], p)
    case ObjectSchema(_, props, _, extra) => (forall k | k in props :: OneWay(props[k], p)) && OneWay(extra, p)
    case MethodSchema(_, ps, res, extra) =>
      && (forall i | 0 <= i < |ps| :: OneWay(ps[i], p))
      && OneWay(res, p) && OneWay(extra, p)
    case _ => true
  }

  ghost predicate Moves(s: Schema, t: Schema, p: Polarity, d: Value) {
    if p.Loosens? then Accepts(s, d) ==> Accepts(t, d) else Accepts(t, d) ==> Accepts(s, d)
  }

  lemma {:induction false} ForgettingMoves(s: Schema, p: Polarity, d: Value)
    requires OneWay(s, p)
    ensures Moves(s, Erase(s), p, d)
    decreases s
  {
    hide OneWay, Moves, Erase, Accepts;
    match s {
      case AnyOfSchema(_, _) => ForgettingMovesChoices(s, p, d);
      case AllOfSchema(_, _) => ForgettingMovesChoices(s, p, d);
      case NotSchema(_, _) => ForgettingMovesNot(s, p, d);
      case ListSchema(_, _, _, _) => ForgettingMovesList(s, p, d);
      case TupleSchema(_, _, _) => ForgettingMovesList(s, p, d);
      case ObjectSchema(_, _, _, _) => ForgettingMovesObject(s, p, d);
      case MethodSchema(_, _, _, _) => ForgettingMovesMethod(s, p, d);
      case _ => ForgettingMovesLeaf(s, p, d);
    }
  }

  lemma ForgettingMovesLeaf(s: Schema, p: Polarity, d: Value)
    requires OneWay(s, p)
    requires s.NoSchema? || s.AnySchema? || s.NullSchema? || s.BoolSchema? || s.NumberSchema? || s.IntegerSchema? || s.StringSchema?
    ensures Moves(s, Erase(s), p, d)
  {
  }

  lemma {:induction false} ForgettingMovesNot(s: Schema, p: Polarity, d: Value)
    requires s.NotSchema? && OneWay(s, p)
    ensures Moves(s, Erase(s), p, d)
    decreases s, 0
  {
    ForgettingMoves(s.child, Flip(p), d);
  }

  lemma {:induction false} ForgettingMovesChoices(s: Schema, p: Polarity, d: Value)
    requires (s.AnyOfSchema? || s.AllOfSchema?) && OneWay(s, p)
    ensures Moves(s, Erase(s), p, d)
    decreases s, 0
  {
    var cs, e := s.choices, Erase(s);
    ErasedChoices(s);
    forall i | 0 <= i < |cs| ensures Moves(cs[i], e.choices[i], p, d) {
      ForgettingMoves(cs[i], p, d);
    }
    hide Erase, OneWay;
    ChoicesMove(s, e, p, d);
  }

  lemma ErasedChoices(s: Schema)
    requires s.AnyOfSchema? || s.AllOfSchema?
    ensures var e := Erase(s);
      && (e.AnyOfSchema? <==> s.AnyOfSchema?) && (e.AllOfSchema? <==> s.AllOfSchema?)
      && |e.choices| == |s.choices| && forall i | 0 <= i < |s.choices| :: e.choices[i] == Erase(s.choices[i])
  {
  }

  lemma ChoicesMove(s: Schema, e: Schema, p: Polarity, d: Value)
    requires (s.AnyOfSchema? && e.AnyOfSchema?) || (s.AllOfSchema? && e.AllOfSchema?)
    requires |e.choices| == |s.choices| && forall i | 0 <= i < |s.choices| :: Moves(s.choices[i], e.choices[i], p, d)
    ensures Moves(s, e, p, d)
  {
  }

  lemma {:induction false} ForgettingMovesList(s: Schema, p: Polarity, d: Value)
    requires (s.ListSchema? || s.TupleSchema?) && OneWay(s, p)
    ensures Moves(s, Erase(s), p, d)
    decreases s, 0
  {
    if d.List? {
      if s.ListSchema? {
        forall i | 0 <= i < |d.items| ensures Moves(s.item, Erase(s.item), p, d.items[i]) {
          ForgettingMoves(s.item, p, d.items[i]);
        }
      } else {
        var cs, es := s.children, Erase(s).children;
        forall i | 0 <= i < |cs| && i < |d.items| ensures es[i] == Erase(cs[i]) && Moves(cs[i], es[i], p, d.items[i]) {
          ForgettingMoves(cs[i], p, d.items[i]);
        }
      }
    }
  }

  lemma {:induction false} ForgettingMovesObject(s: Schema, p: Polarity, d: Value)
    requires s.ObjectSchema? && OneWay(s, p)
    ensures Moves(s, Erase(s), p, d)
    decreases s, 0
  {
    var props, extra := s.properties, s.additionalProperties;
    if d.Obj? {
      forall k | k in props && k in d.fields ensures Moves(props[k], Erase(props[k]), p, d.fields[k]) {
        ForgettingMoves(props[k], p, d.fields[k]);
      }
      forall k | k in d.fields ensures Moves(extra, Erase(extra), p, d.fields[k]) {
        ForgettingMoves(extra, p, d.fields[k]);
      }
    }
    assert Erase(s).properties.Keys == props.Keys && Erase(s).required.Keys == s.required.Keys;
  }

  lemma ErasedMethod(s: Schema)
    requires s.MethodSchema?
    ensures var e := Erase(s);
      && e.MethodSchema? && |e.params| == |s.params| && (forall i | 0 <= i < |s.params| :: e.params[i] == Erase(s.params[i]))
      && e.additionalParams == Erase(s.additionalParams)
      && (s.additionalParams == NoSchema <==> e.additionalParams == NoSchema)
      && e.result != NoSchema && e.result == (if s.result == NoSchema then AnySchema(PLAIN) else Erase(s.result))
  {
  }

  lemma {:induction false} ForgettingMovesMethod(s: Schema, p: Polarity, d: Value)
    requires s.MethodSchema? && OneWay(s, p)
    ensures Moves(s, Erase(s), p, d)
    decreases s, 0
  {
    var ps, extra := s.params, s.additionalParams;
    ErasedMethod(s);
    hide Erase;
    if HasParams(d) {
      var vs := d.fields["params"].items;
      forall i | 0 <= i < |ps| && i < |vs| ensures Moves(ps[i], Erase(ps[i]), p, vs[i]) {
        ForgettingMoves(ps[i], p, vs[i]);
      }
      forall i | 0 <= i < |vs| ensures Moves(extra, Erase(extra), p, vs[i]) {
        ForgettingMoves(extra, p, vs[i]);
      }
    } else if d.Obj? && "result" in d.fields {
      ForgettingMoves(s.result, p, d.fields["result"]);
      assert Accepts(AnySchema(PLAIN), d.fields["result"]);
    }
  }

  /** The printed schema `j` as it is published, under the name of its method. */
  function Published(j: Value, name: string): Value
    requires j.Obj?
  {
    Obj(j.fields["name" := Str(name)])
  }

  function Renamed(s: Schema, name: string): Schema
    requires s != NoSchema
  {
    WithMixin(s, Mixin(name, s.mixin.description))
  }

  lemma PublishedIsRenamed(s: Schema, j: Value, name: string)
    requires PrintsAs(s, j) && name != ""
    ensures j.Obj? && PrintsAs(Renamed(s, name), Published(j, name))
  {
    hide PrintsAllAs, PrintsBounds, Lists;
    assert Body(j.fields["name" := Str(name)]) == Body(j.fields);
    RenamedPrintsBody(s, j.fields, name);
  }

  lemma RenamedPrintsBody(s: Schema, f: map<string, Value>, name: string)
    requires s != NoSchema && PrintsBody(s, f)
    ensures PrintsBody(Renamed(s, name), f["name" := Str(name)])
  {
    hide PrintsAllAs, Lists, PrintsAs;
    assert Body(f["name" := Str(name)]) == Body(f);
  }

  lemma RenamedAccepts(s: Schema, name: string, d: Value)
    requires s != NoSchema
    ensures Accepts(Renamed(s, name), d) <==> Accepts(s, d)
  {
  }

  lemma RenamedIsSame(s: Schema, name: string)
    requires s != NoSchema
    ensures Whole(s) ==> Whole(Renamed(s, name))
    ensures Printable(Renamed(s, name)) <==> Printable(s)
    ensures OneWay(Renamed(s, name), Loosens) <==> OneWay(s, Loosens)
  {
  }

  /** The schema that a client builds from the published text accepts all that the server
      accepts. */
  lemma PublishedSchemaIsRelaxed(s: Schema, j: Value, name: string, d: Value)
    requires Whole(s) && Printable(s) && OneWay(s, Loosens)
    requires PrintsAs(s, j) && name != ""
    requires Accepts(s, d)
    ensures Build(Reread(Published(j, name))) == Some(Erase(Renamed(s, name)))
    ensures Accepts(Erase(Renamed(s, name)), d)
  {
    hide Accepts, Whole, Printable, OneWay, Erase, PrintsAs, Build, Renamed, Published;
    NotNil(s);
    RenamedIsSame(s, name);
    RenamedAccepts(s, name, d);
    PublishedIsRenamed(s, j, name);
    PrintedTextBuilds(Renamed(s, name), Published(j, name));
    ForgettingMoves(Renamed(s, name), Loosens, d);
    Loosened(Renamed(s, name), d);
  }

  lemma NotNil(s: Schema)
    requires Whole(s)
    ensures s != NoSchema
  {
  }

  lemma Loosened(s: Schema, d: Value)
    requires Moves(s, Erase(s), Loosens, d)
    ensures Accepts(s, d) ==> Accepts(Erase(s), d)
  {
  }

  /** Nothing that printing loses makes a difference to this schema: no string or list
      bounds and no tuple extras anywhere. */
  lemma LosslessSchemaKeepsVerdict(s: Schema, d: Value)
    requires OneWay(s, Loosens) && OneWay(s, Tightens)
    ensures Accepts(s, d) <==> Accepts(Erase(s), d)
  {
    ForgettingMoves(s, Loosens, d);
    ForgettingMoves(s, Tightens, d);
  }

  /** An exclusive flag that has no bound never matters. */
  lemma UnboundedFlagsAreIdle(s: Schema, d: Value)
    requires s.NumberSchema? || s.IntegerSchema?
    ensures Accepts(s, d) <==> Accepts(Erase(s), d)
  {
  }

  /** The condition on tuples is needed: a tuple with extras accepts a list that its
      published form refuses. */
  lemma TupleExtrasAreNotRelaxed()
    ensures
      var s := TupleSchema(PLAIN, [], AnySchema(PLAIN));
      var d := List([Null]);
      Whole(s) && Printable(s) && Accepts(s, d) && !Accepts(Erase(s), d)
  {
    var s := TupleSchema(PLAIN, [], AnySchema(PLAIN));
    var d := List([Null]);
    assert |d.items| != |Erase(s).children|;
  }

  /** So is the condition on bounds: under a `not`, a string bound makes the published form
      refuse a string that the schema accepts. */
  lemma NegatedBoundsAreNotRelaxed()
    ensures
      var s := NotSchema(PLAIN, StringSchema(PLAIN, Some(0), None));
      var d := Str("a");
      Whole(s) && Printable(s) && Accepts(s, d) && !Accepts(Erase(s), d)
  {
    var inner := StringSchema(PLAIN, Some(0), None);
    assert !Accepts(inner, Str("a"));
    assert Accepts(Erase(inner), Str("a"));
  }
}
