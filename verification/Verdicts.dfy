/** What schemas of each kind accept, in plain comparisons and one part at a time: the laws
    that the declarative reading has to have. */
module Verdicts {
  import opened Values
  import opened Schemas
  import opened Meaning

  // ---- scalars -----------------------------------------------------------------------------

  lemma KindVerdicts(m: Mixin, d: Value)
    ensures Accepts(AnySchema(m), d) && !Accepts(NoSchema, d)
    ensures Accepts(NullSchema(m), d) <==> d == Null
    ensures Accepts(BoolSchema(m), d) <==> d == Bool(true) || d == Bool(false)
  {
  }

  /** `v` is the integer `n`, as a Go int or a number in JSON text. */
  predicate IsInteger(v: Value, n: Int64) {
    v == Int(n) || v == Number(Digits(n))
  }

  /** `v` is the number `r`. */
  predicate IsReal(v: Value, r: real) {
    v == Float(r) || v == Number(Decimal(r)) || (v.Int? && v.i as real == r)
    || (v.Number? && v.lit.Digits? && v.lit.n as real == r)
  }

  /** An integer schema takes the integers between its bounds, and a bound itself unless its
      flag is set. */
  lemma IntegerVerdict(m: Mixin, lo: Option<Int64>, hi: Option<Int64>, exlo: Option<bool>, exhi: Option<bool>, d: Value, n: Int64)
    requires IsInteger(d, n)
    ensures Accepts(IntegerSchema(m, lo, hi, exlo, exhi), d) <==>
      && (lo.Some? ==> lo.value < n || (lo.value == n && exlo != Some(true)))
      && (hi.Some? ==> n < hi.value || (n == hi.value && exhi != Some(true)))
  {
  }

  /** It takes nothing else: no fraction, and no integer beyond 64 bits. */
  lemma OnlyIntegers(m: Mixin, lo: Option<Int64>, hi: Option<Int64>, exlo: Option<bool>, exhi: Option<bool>, d: Value)
    requires Accepts(IntegerSchema(m, lo, hi, exlo, exhi), d)
    ensures exists n: Int64 :: IsInteger(d, n)
  {
    if d.Int? {
      assert IsInteger(d, d.i);
    } else {
      assert IsInteger(d, d.lit.n);
    }
  }

  /** An exclusive bound is the next inclusive one. */
  lemma ExclusiveIsNext(m: Mixin, b: Int64, next: Int64, d: Value)
    requires next == b + 1
    ensures Accepts(IntegerSchema(m, None, Some(next), None, Some(true)), d) <==> Accepts(IntegerSchema(m, None, Some(b), None, None), d)
    ensures Accepts(IntegerSchema(m, Some(b), None, Some(true), None), d) <==> Accepts(IntegerSchema(m, Some(next), None, None, None), d)
  {
  }

  lemma NumberVerdict(m: Mixin, lo: Option<real>, hi: Option<real>, exlo: Option<bool>, exhi: Option<bool>, d: Value, r: real)
    requires IsReal(d, r)
    ensures Accepts(NumberSchema(m, lo, hi, exlo, exhi), d) <==>
      && (lo.Some? ==> lo.value < r || (lo.value == r && exlo != Some(true)))
      && (hi.Some? ==> r < hi.value || (r == hi.value && exhi != Some(true)))
  {
  }

  lemma OnlyNumbers(m: Mixin, lo: Option<real>, hi: Option<real>, exlo: Option<bool>, exhi: Option<bool>, d: Value)
    requires Accepts(NumberSchema(m, lo, hi, exlo, exhi), d)
    ensures exists r: real :: IsReal(d, r)
  {
    match d {
      case Int(i) => assert IsReal(d, i as real);
      case Float(r) => assert IsReal(d, r);
      case Number(Digits(n)) => assert IsReal(d, n as real);
      case Number(Decimal(r)) => assert IsReal(d, r);
    }
  }

  /** Strings are measured in bytes, and both lengths are inclusive. */
  lemma StringVerdict(m: Mixin, max: Option<Int64>, min: Option<Int64>, d: Value)
    ensures Accepts(StringSchema(m, max, min), d) <==>
      d.Str? && (max.Some? ==> |d.s| <= max.value) && (min.Some? ==> min.value <= |d.s|)
  {
  }

  // ---- composites --------------------------------------------------------------------------

  lemma NotVerdict(m: Mixin, c: Schema, d: Value)
    ensures Accepts(NotSchema(m, c), d) <==> !Accepts(c, d)
  {
  }

  lemma AnyOfMeans(m: Mixin, cs: seq<Schema>, d: Value)
    ensures Accepts(AnyOfSchema(m, cs), d) <==> exists c | c in cs :: Accepts(c, d)
  {
    if c :| c in cs && Accepts(c, d) {
      var i :| 0 <= i < |cs| && cs[i] == c;
    }
  }

  lemma AllOfMeans(m: Mixin, cs: seq<Schema>, d: Value)
    ensures Accepts(AllOfSchema(m, cs), d) <==> forall c | c in cs :: Accepts(c, d)
  {
    assert forall i | 0 <= i < |cs| :: cs[i] in cs;
  }

  /** Choices, one at a time. */
  lemma AnyOfVerdict(m: Mixin, cs: seq<Schema>, c: Schema, d: Value)
    ensures !Accepts(AnyOfSchema(m, []), d)
    ensures Accepts(AnyOfSchema(m, cs + [c]), d) <==> Accepts(AnyOfSchema(m, cs), d) || Accepts(c, d)
  {
    hide Accepts;
    AnyOfMeans(m, [], d);
    AnyOfMeans(m, cs, d);
    AnyOfMeans(m, cs + [c], d);
    assert c in cs + [c];
  }

  lemma AllOfVerdict(m: Mixin, cs: seq<Schema>, c: Schema, d: Value)
    ensures Accepts(AllOfSchema(m, []), d)
    ensures Accepts(AllOfSchema(m, cs + [c]), d) <==> Accepts(AllOfSchema(m, cs), d) && Accepts(c, d)
  {
    hide Accepts;
    AllOfMeans(m, [], d);
    AllOfMeans(m, cs, d);
    AllOfMeans(m, cs + [c], d);
    assert c in cs + [c];
  }

  lemma ItemsMean(m: Mixin, item: Schema, vs: seq<Value>)
    ensures Accepts(ListSchema(m, item, None, None), List(vs)) <==> forall v | v in vs :: Accepts(item, v)
  {
    assert forall i | 0 <= i < |vs| :: vs[i] in vs;
  }

  /** A list within its length bounds, which are inclusive. */
  lemma ListLengthVerdict(m: Mixin, item: Schema, min: Option<Int64>, max: Option<Int64>, vs: seq<Value>, d: Value)
    ensures Accepts(ListSchema(m, item, min, max), List(vs)) <==>
      && Accepts(ListSchema(m, item, None, None), List(vs))
      && (max.Some? ==> |vs| <= max.value) && (min.Some? ==> min.value <= |vs|)
    ensures !d.List? ==> !Accepts(ListSchema(m, item, min, max), d)
  {
  }

  /** The items of a list, one at a time. */
  lemma ListVerdict(m: Mixin, item: Schema, vs: seq<Value>, v: Value)
    ensures Accepts(ListSchema(m, item, None, None), List([]))
    ensures Accepts(ListSchema(m, item, None, None), List(vs + [v])) <==>
      Accepts(ListSchema(m, item, None, None), List(vs)) && Accepts(item, v)
  {
    hide Accepts;
    ItemsMean(m, item, []);
    ItemsMean(m, item, vs);
    ItemsMean(m, item, vs + [v]);
    assert v in vs + [v];
  }

  lemma ChildrenMean(m: Mixin, cs: seq<Schema>, vs: seq<Value>)
    ensures Accepts(TupleSchema(m, cs, NoSchema), List(vs)) <==> |vs| == |cs| && forall i | 0 <= i < |cs| :: Accepts(cs[i], vs[i])
  {
  }

  /** A tuple without extras, one child at a time: it takes no list of another length. */
  lemma TupleVerdict(m: Mixin, cs: seq<Schema>, c: Schema, vs: seq<Value>, v: Value)
    ensures Accepts(TupleSchema(m, [], NoSchema), List(vs)) <==> vs == []
    ensures |vs| != |cs| ==> !Accepts(TupleSchema(m, cs, NoSchema), List(vs))
    ensures |vs| == |cs| ==>
      (Accepts(TupleSchema(m, cs + [c], NoSchema), List(vs + [v])) <==> Accepts(TupleSchema(m, cs, NoSchema), List(vs)) && Accepts(c, v))
  {
    hide Accepts;
    ChildrenMean(m, [], vs);
    ChildrenMean(m, cs, vs);
    ChildrenMean(m, cs + [c], vs + [v]);
    if |vs| == |cs| {
      assert forall i | 0 <= i < |vs| :: (vs + [v])[i] == vs[i] && (cs + [c])[i] == cs[i];
      assert (vs + [v])[|vs|] == v && (cs + [c])[|cs|] == c;
    }
  }

  lemma ExtrasMean(m: Mixin, cs: seq<Schema>, extra: Schema, vs: seq<Value>)
    requires extra != NoSchema
    ensures Accepts(TupleSchema(m, cs, extra), List(vs)) <==>
      && |cs| <= |vs| && Accepts(TupleSchema(m, cs, NoSchema), List(vs[..|cs|]))
      && forall v | v in vs[|cs|..] :: Accepts(extra, v)
  {
    TupleMeans(m, cs, extra, vs);
    hide Accepts;
    if |cs| <= |vs| {
      ChildrenMean(m, cs, vs[..|cs|]);
      var rest := vs[|cs|..];
      assert forall i | |cs| <= i < |vs| :: vs[i] == rest[i - |cs|] && vs[i] in rest;
      forall v | v in rest ensures exists i :: |cs| <= i < |vs| && vs[i] == v {
        var k :| 0 <= k < |rest| && rest[k] == v;
        assert vs[k + |cs|] == v;
      }
    }
  }

  lemma TupleMeans(m: Mixin, cs: seq<Schema>, extra: Schema, vs: seq<Value>)
    requires extra != NoSchema
    ensures Accepts(TupleSchema(m, cs, extra), List(vs)) <==>
      && |cs| <= |vs| && (forall i | 0 <= i < |cs| :: Accepts(cs[i], vs[i]))
      && (forall i | |cs| <= i < |vs| :: Accepts(extra, vs[i]))
  {
  }

  /** A tuple with extras: the children have to be there, and every item past them is accepted
      by the extra schema, one item at a time. */
  lemma TupleExtrasVerdict(m: Mixin, cs: seq<Schema>, extra: Schema, vs: seq<Value>, v: Value, d: Value)
    requires extra != NoSchema
    ensures |vs| == |cs| ==> (Accepts(TupleSchema(m, cs, extra), List(vs)) <==> Accepts(TupleSchema(m, cs, NoSchema), List(vs)))
    ensures |vs| >= |cs| ==>
      (Accepts(TupleSchema(m, cs, extra), List(vs + [v])) <==> Accepts(TupleSchema(m, cs, extra), List(vs)) && Accepts(extra, v))
    ensures |vs| < |cs| ==> !Accepts(TupleSchema(m, cs, extra), List(vs))
    ensures !d.List? ==> !Accepts(TupleSchema(m, cs, extra), d)
  {
    NoTuple(m, cs, extra, d);
    hide Accepts;
    ExtrasMean(m, cs, extra, vs);
    ExtrasMean(m, cs, extra, vs + [v]);
    if |vs| >= |cs| {
      assert (vs + [v])[..|cs|] == vs[..|cs|];
      assert (vs + [v])[|cs|..] == vs[|cs|..] + [v];
    }
    if |vs| == |cs| {
      assert vs[..|cs|] == vs;
    }
  }

  lemma NoTuple(m: Mixin, cs: seq<Schema>, extra: Schema, d: Value)
    ensures !d.List? ==> !Accepts(TupleSchema(m, cs, extra), d)
  {
  }

  /** A table, by what holds of each key. */
  lemma ObjectVerdict(m: Mixin, props: map<string, Schema>, req: map<string, bool>, extra: Schema, d: Value)
    ensures Accepts(ObjectSchema(m, props, req, extra), d) <==> d.Obj? && forall k: string :: KeyAccepted(props, req, extra, d.fields, k)
  {
    if d.Obj? && Accepts(ObjectSchema(m, props, req, extra), d) {
      forall k: string ensures KeyAccepted(props, req, extra, d.fields, k) {
      }
    }
    if d.Obj? && forall k: string :: KeyAccepted(props, req, extra, d.fields, k) {
      assert forall k | k in props :: KeyAccepted(props, req, extra, d.fields, k);
      assert forall k | k in d.fields :: KeyAccepted(props, req, extra, d.fields, k);
    }
  }

  /** A declared key is there if it is required, and accepted if it is there; another key is
      accepted by the extra schema, if there is one. */
  ghost predicate KeyAccepted(props: map<string, Schema>, req: map<string, bool>, extra: Schema, f: map<string, Value>, k: string) {
    if k in props then (if k in f then Accepts(props[k], f[k]) else k !in req)
    else k in f && extra != NoSchema ==> Accepts(extra, f[k])
  }

  /** A call is checked as a tuple of its parameters; a message without a list of parameters by
      its result, which any schema that is not set accepts; and nothing else is a message. */
  lemma MethodVerdict(m: Mixin, ps: seq<Schema>, res: Schema, extra: Schema, d: Value)
    ensures d.Obj? && "params" in d.fields && d.fields["params"].List? ==>
      (Accepts(MethodSchema(m, ps, res, extra), d) <==> Accepts(TupleSchema(PLAIN, ps, extra), d.fields["params"]))
    ensures d.Obj? && !("params" in d.fields && d.fields["params"].List?) ==>
      (Accepts(MethodSchema(m, ps, res, extra), d) <==> "result" in d.fields && (res == NoSchema || Accepts(res, d.fields["result"])))
    ensures !d.Obj? ==> !Accepts(MethodSchema(m, ps, res, extra), d)
  {
  }

  /** A name and a description make no difference. */
  lemma NamesMakeNoDifference(s: Schema, m: Mixin, d: Value)
    requires s != NoSchema
    ensures Accepts(WithMixin(s, m), d) <==> Accepts(s, d)
  {
  }
}
