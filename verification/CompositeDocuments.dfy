/** The schema language, from its documents: the types that have other nodes as parts. */
module CompositeDocuments {
  import opened Values
  import opened Schemas
  import opened Meaning
  import opened BuildSpec
  import opened Verdicts
  import opened SchemaDocuments

  /** The value under `key` is a list of nodes, all of which build. */
  ghost predicate AllBuild(f: map<string, Value>, key: string) {
    key in f && f[key].List? && forall v | v in f[key].items :: Build(v).Some?
  }

  lemma NodesBuild(f: map<string, Value>, key: string)
    requires key in f
    ensures BuildNodes(f[key]).Some? <==> AllBuild(f, key)
    ensures AllBuild(f, key) ==> |BuildNodes(f[key]).value| == |f[key].items|
    ensures AllBuild(f, key) ==> forall i | 0 <= i < |f[key].items| ::
      Build(f[key].items[i]).Some? && BuildNodes(f[key]).value[i] == Build(f[key].items[i]).value
  {
    hide Build;
    if f[key].List? {
      assert forall i | 0 <= i < |f[key].items| :: f[key].items[i] in f[key].items;
    }
  }

  /** `anyOf`, `allOf` and `not` build where their parts do, and accept what some part, every
      part, or not the part accepts. */
  lemma AnyOfDocument(f: map<string, Value>, d: Value)
    requires HasType(f, "anyOf")
    ensures Build(Obj(f)).Some? <==> Titled(f) && AllBuild(f, "anyOf")
    ensures Build(Obj(f)).Some? ==>
      (Accepts(Build(Obj(f)).value, d) <==> exists i :: 0 <= i < |f["anyOf"].items| && Accepts(Build(f["anyOf"].items[i]).value, d))
  {
    TypesAreKnown("");
    hide KindNamed, Build, BuildNodes, BuildKind;
    TypedBuilds(f, "anyOf", AnyOfKind);
    ChoicesAssemble(f);
    if "anyOf" in f {
      NodesBuild(f, "anyOf");
      if Build(Obj(f)).Some? {
        assert Build(Obj(f)).value == AnyOfSchema(Title(f), BuildNodes(f["anyOf"]).value);
      }
    }
  }

  lemma AllOfDocument(f: map<string, Value>, d: Value)
    requires HasType(f, "allOf")
    ensures Build(Obj(f)).Some? <==> Titled(f) && AllBuild(f, "allOf")
    ensures Build(Obj(f)).Some? ==>
      (Accepts(Build(Obj(f)).value, d) <==> forall i | 0 <= i < |f["allOf"].items| :: Accepts(Build(f["allOf"].items[i]).value, d))
  {
    TypesAreKnown("");
    hide KindNamed, Build, BuildNodes, BuildKind;
    TypedBuilds(f, "allOf", AllOfKind);
    ChoicesAssemble(f);
    if "allOf" in f {
      NodesBuild(f, "allOf");
      if Build(Obj(f)).Some? {
        assert Build(Obj(f)).value == AllOfSchema(Title(f), BuildNodes(f["allOf"]).value);
      }
    }
  }

  lemma NotDocument(f: map<string, Value>, d: Value)
    requires HasType(f, "not")
    ensures Build(Obj(f)).Some? <==> Titled(f) && "not" in f && Build(f["not"]).Some?
    ensures Build(Obj(f)).Some? ==> (Accepts(Build(Obj(f)).value, d) <==> !Accepts(Build(f["not"]).value, d))
  {
    TypesAreKnown("");
    hide KindNamed, Build, BuildNodes, BuildKind;
    TypedBuilds(f, "not", NotKind);
    ChoicesAssemble(f);
  }

  /** A list node whose items are one node accepts the lists of items that the node accepts, and
      whose length is not over `maxItems` nor under `minItems`. */
  lemma ListDocument(f: map<string, Value>, d: Value)
    requires HasType(f, "list") && "items" in f && !f["items"].List?
    ensures Build(Obj(f)).Some? <==> Titled(f) && Build(f["items"]).Some?
    ensures Build(Obj(f)).Some? ==> (Accepts(Build(Obj(f)).value, d) <==>
      && d.List?
      && (forall n: Int64 | 0 <= n && EntryIs(f, "maxItems", n) :: |d.items| <= n)
      && (forall n: Int64 | 0 <= n && EntryIs(f, "minItems", n) :: n <= |d.items|)
      && forall i | 0 <= i < |d.items| :: Accepts(Build(f["items"]).value, d.items[i]))
  {
    TypesAreKnown("");
    hide KindNamed, Build, BuildNodes, BuildKind, AttrLength;
    TypedBuilds(f, "list", ListKind);
    ListAssembles(f);
    forall n: Int64 ensures AttrLength(f, "maxItems") == Some(n) <==> EntryIs(f, "maxItems", n) && 0 <= n {
      LengthReads(f, "maxItems", n);
    }
    forall n: Int64 ensures AttrLength(f, "minItems") == Some(n) <==> EntryIs(f, "minItems", n) && 0 <= n {
      LengthReads(f, "minItems", n);
    }
    if Build(Obj(f)).Some? {
      assert Build(Obj(f)).value == ListSchema(Title(f), Build(f["items"]).value, AttrLength(f, "minItems"), AttrLength(f, "maxItems"));
    }
  }

  /** A list node without items does not build. */
  lemma ItemsAreNeeded(f: map<string, Value>)
    requires HasType(f, "list") && "items" !in f
    ensures Build(Obj(f)).None?
  {
    TypesAreKnown("");
    hide KindNamed, BuildKind;
    TypedBuilds(f, "list", ListKind);
    ListAssembles(f);
  }

  /** An optional node builds where it is absent, or its node does. */
  ghost predicate ExtraBuilds(f: map<string, Value>, key: string) {
    key in f ==> Build(f[key]).Some?
  }

  /** A list node whose items are a list of nodes accepts the lists whose items are accepted one
      by one, and past them only what `additionalItems` accepts, and nothing if it is absent. */
  lemma TupleDocument(f: map<string, Value>, vs: seq<Value>)
    requires HasType(f, "list") && "items" in f && f["items"].List?
    ensures Build(Obj(f)).Some? <==> Titled(f) && AllBuild(f, "items") && ExtraBuilds(f, "additionalItems")
    ensures Build(Obj(f)).Some? ==> (Accepts(Build(Obj(f)).value, List(vs)) <==> TupleAccepts(f, "items", "additionalItems", vs))
  {
    TypesAreKnown("");
    hide KindNamed, Build, BuildNodes, BuildKind, TupleAccepts;
    TypedBuilds(f, "list", ListKind);
    ListAssembles(f);
    NodesBuild(f, "items");
    if Build(Obj(f)).Some? {
      var extra := BuildExtra(f, "additionalItems", Obj(f)).value;
      assert Build(Obj(f)).value == TupleSchema(Title(f), BuildNodes(f["items"]).value, extra);
      TupleMatches(f, "items", "additionalItems", Title(f), vs);
    }
  }

  ghost predicate TupleAccepts(f: map<string, Value>, children: string, extra: string, vs: seq<Value>)
    requires AllBuild(f, children) && ExtraBuilds(f, extra)
  {
    var nodes := f[children].items;
    && |nodes| <= |vs|
    && (forall i | 0 <= i < |nodes| :: nodes[i] in nodes && Accepts(Build(nodes[i]).value, vs[i]))
    && if extra in f then forall i | |nodes| <= i < |vs| :: Accepts(Build(f[extra]).value, vs[i]) else |vs| == |nodes|
  }

  lemma TupleMatches(f: map<string, Value>, children: string, extra: string, m: Mixin, vs: seq<Value>)
    requires AllBuild(f, children) && ExtraBuilds(f, extra) && BuildNodes(f[children]).Some?
    ensures Accepts(TupleSchema(m, BuildNodes(f[children]).value, if extra in f then Build(f[extra]).value else NoSchema), List(vs))
      <==> TupleAccepts(f, children, extra, vs)
  {
    hide Build, BuildNodes, Accepts;
    NodesBuild(f, children);
    var cs := BuildNodes(f[children]).value;
    if extra in f {
      TupleMeans(m, cs, Build(f[extra]).value, vs);
    } else {
      ChildrenMean(m, cs, vs);
    }
  }

  /** A method node checks a call as a tuple of its parameters, and anything else as a result;
      a result that is not said is `any`, and one that is no node is not checked. */
  lemma MethodDocument(f: map<string, Value>, d: Value)
    requires HasType(f, "method")
    ensures Build(Obj(f)).Some? <==>
      Titled(f) && AllBuild(f, "params") && ExtraBuilds(f, "additionalParams") && ResultBuilds(f)
    ensures Build(Obj(f)).Some? && d.Obj? ==> (Accepts(Build(Obj(f)).value, d) <==>
      if "params" in d.fields && d.fields["params"].List? then TupleAccepts(f, "params", "additionalParams", d.fields["params"].items)
      else "result" in d.fields && ResultAccepts(f, d.fields["result"]))
    ensures Build(Obj(f)).Some? && !d.Obj? ==> !Accepts(Build(Obj(f)).value, d)
  {
    TypesAreKnown("");
    hide KindNamed, Build, BuildNodes, BuildReturns, BuildKind, TupleAccepts, Accepts;
    TypedBuilds(f, "method", MethodKind);
    MethodAssembles(f);
    if "params" in f {
      NodesBuild(f, "params");
    }
    if Build(Obj(f)).Some? {
      var m, ps, res := Title(f), BuildNodes(f["params"]).value, Returns(f).value;
      var extra := BuildExtra(f, "additionalParams", Obj(f)).value;
      assert Build(Obj(f)).value == MethodSchema(m, ps, res, extra);
      MethodVerdict(m, ps, res, extra, d);
      if HasParams(d) {
        TupleMatches(f, "params", "additionalParams", PLAIN, d.fields["params"].items);
      } else if d.Obj? && "result" in d.fields {
        ResultMatches(f, d.fields["result"]);
      }
    }
  }

  ghost predicate ResultBuilds(f: map<string, Value>) {
    "returns" in f ==> BuildReturns(f["returns"]).Some?
  }

  ghost predicate ResultAccepts(f: map<string, Value>, v: Value)
    requires ResultBuilds(f)
  {
    "returns" in f ==> BuildReturns(f["returns"]).value == NoSchema || Accepts(BuildReturns(f["returns"]).value, v)
  }

  lemma ResultMatches(f: map<string, Value>, v: Value)
    requires Returns(f).Some?
    ensures ResultBuilds(f) && (ResultAccepts(f, v) <==> Returns(f).value == NoSchema || Accepts(Returns(f).value, v))
  {
    hide BuildReturns;
    KindVerdicts(PLAIN, v);
    hide Accepts;
  }

  /** A result that is neither a table nor a scalar type name is not checked; a table without a
      type, and nothing to guess it from, is `any`; and every other is the node that it is. */
  lemma ResultDocument(v: Value)
    ensures !v.Obj? && !(v.Str? && v.s in {"string", "number", "integer", "bool", "null"}) ==> BuildReturns(v) == Some(NoSchema)
    ensures v.Str? && v.s in {"string", "number", "integer", "bool", "null"} ==> BuildReturns(v) == Build(v)
    ensures v.Obj? && (v.fields.Keys * {"type", "params", "properties", "anyOf", "allOf", "not"}) == {} ==>
      BuildReturns(v) == (if Titled(v.fields) then Some(AnySchema(Title(v.fields))) else None)
    ensures v.Obj? && (v.fields.Keys * {"type", "params", "properties", "anyOf", "allOf", "not"}) != {} ==> BuildReturns(v) == Build(v)
  {
    if v.Str? {
      assert Build(v) == BuildWith(NoDefault, v);
    }
    if v.Obj? {
      DefaultIsAny(v.fields);
    }
  }

  lemma DefaultIsAny(f: map<string, Value>)
    ensures (f.Keys * {"type", "params", "properties", "anyOf", "allOf", "not"}) == {} ==>
      BuildReturns(Obj(f)) == (if Titled(f) then Some(AnySchema(Title(f))) else None)
    ensures (f.Keys * {"type", "params", "properties", "anyOf", "allOf", "not"}) != {} ==> BuildReturns(Obj(f)) == Build(Obj(f))
  {
    var hints := {"type", "params", "properties", "anyOf", "allOf", "not"};
    if k :| k in f && k in hints {
      assert k in f.Keys * hints;
      assert KindOf(DefaultAny, f) == KindOf(NoDefault, f);
      assert Build(Obj(f)) == BuildWith(NoDefault, Obj(f));
    } else {
      assert forall k | k in hints :: k !in f;
      assert "type" !in f && "params" !in f && "properties" !in f && "anyOf" !in f && "allOf" !in f && "not" !in f;
      assert Guess(f.Keys) == None;
      TypesAreKnown("");
      assert KindOf(DefaultAny, f) == Some(AnyKind);
      assert BuildKind(AnyKind, f, Obj(f)) == Some(AnySchema(PLAIN));
    }
  }

  /** An object node checks each key: the properties by their nodes, those in `requires` being
      needed, and others by `additionalProperties`, if it is there. */
  lemma ObjectDocument(f: map<string, Value>, d: Value)
    requires HasType(f, "object")
    ensures Build(Obj(f)).Some? <==>
      && Titled(f) && Properties(f).Some? && ExtraBuilds(f, "additionalProperties")
      && NamesStrings(f, "requires") && forall k | Requires(f, k) :: k in Properties(f).value
    ensures Build(Obj(f)).Some? ==> (Accepts(Build(Obj(f)).value, d) <==>
      d.Obj? && forall k: string :: FieldAccepted(f, d.fields, k))
  {
    TypesAreKnown("");
    hide KindNamed, Build, BuildTable, Properties, BuildKind, Accepts, AttrStrings;
    TypedBuilds(f, "object", ObjectKind);
    ObjectAssembles(f);
    RequiresReads(f);
    if Build(Obj(f)).Some? {
      var props, names := Properties(f).value, AttrStrings(f, "requires").value;
      var extra := BuildExtra(f, "additionalProperties", Obj(f)).value;
      var req: map<string, bool> := map k | k in names :: true;
      assert Build(Obj(f)).value == ObjectSchema(Title(f), props, req, extra);
      ObjectVerdict(Title(f), props, req, extra, d);
      if d.Obj? {
        forall k: string ensures FieldAccepted(f, d.fields, k) <==> KeyAccepted(props, req, extra, d.fields, k) {
        }
      }
    }
  }

  predicate NamesStrings(f: map<string, Value>, key: string) {
    key in f ==> f[key].List? && forall v | v in f[key].items :: v.Str?
  }

  predicate Requires(f: map<string, Value>, k: string) {
    "requires" in f && f["requires"].List? && Str(k) in f["requires"].items
  }

  lemma RequiresReads(f: map<string, Value>)
    ensures AttrStrings(f, "requires").Some? <==> NamesStrings(f, "requires")
    ensures NamesStrings(f, "requires") ==> forall k :: k in AttrStrings(f, "requires").value <==> Requires(f, k)
  {
    if "requires" in f && f["requires"].List? {
      var items := f["requires"].items;
      assert forall i | 0 <= i < |items| :: items[i] in items;
      if NamesStrings(f, "requires") {
        var names := AttrStrings(f, "requires").value;
        forall k ensures k in names <==> Requires(f, k) {
          if k in names {
            var i :| 0 <= i < |names| && names[i] == k;
            assert items[i] == Str(k);
          }
          if Requires(f, k) {
            var i :| 0 <= i < |items| && items[i] == Str(k);
            assert names[i] == k;
          }
        }
      }
    }
  }

  ghost predicate FieldAccepted(f: map<string, Value>, g: map<string, Value>, k: string)
    requires Properties(f).Some? && ExtraBuilds(f, "additionalProperties")
  {
    var props := Properties(f).value;
    if k in props then (if k in g then Accepts(props[k], g[k]) else !Requires(f, k))
    else k in g && "additionalProperties" in f ==> Accepts(Build(f["additionalProperties"]).value, g[k])
  }

  /** A table of properties builds where every entry does, unless it looks like a node: it has no
      type, but something to guess one from.  A scalar type name is a table with that one
      `type`; and anything else has no properties. */
  lemma PropertiesDocument(v: Value)
    ensures v.Obj? ==>
      (BuildTable(v).Some? <==>
         && ("type" in v.fields || (v.fields.Keys * {"params", "properties", "anyOf", "allOf", "not"}) == {})
         && forall k | k in v.fields :: Build(v.fields[k]).Some?)
    ensures v.Obj? && BuildTable(v).Some? ==>
      && BuildTable(v).value.Keys == v.fields.Keys
      && forall k | k in v.fields :: Some(BuildTable(v).value[k]) == Build(v.fields[k])
    ensures v.Str? && v.s in {"string", "number", "integer", "bool", "null"} ==>
      Build(v).Some? && BuildTable(v) == Some(map["type" := Build(v).value])
    ensures !v.Obj? && !(v.Str? && v.s in {"string", "number", "integer", "bool", "null"}) ==> BuildTable(v) == Some(map[])
  {
    if v.Str? {
      assert Build(v) == BuildWith(NoDefault, v);
    }
    if v.Obj? {
      hide Build;
      var hints := {"params", "properties", "anyOf", "allOf", "not"};
      assert Guess(v.fields.Keys).None? <==> "type" in v.fields || v.fields.Keys * hints == {} by {
        GuessIsNone(v.fields.Keys);
      }
    }
  }

  lemma GuessIsNone(keys: set<string>)
    ensures Guess(keys).None? <==> "type" in keys || keys * {"params", "properties", "anyOf", "allOf", "not"} == {}
  {
    var hints := {"params", "properties", "anyOf", "allOf", "not"};
    if k :| k in keys && k in hints {
      assert k in keys * hints;
    }
  }
}
