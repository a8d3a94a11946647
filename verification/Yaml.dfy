/** Schemas written in YAML: `BuildYamlInterface` and the tree that it makes from a
    decoded document. */
module Yaml {
  import opened Values
  import opened Schemas
  import opened BuildSpec
  import opened Meaning
  import Builder
  import opened Normalise

  /** A decoded YAML document.  A table's keys can be anything: a key is a string, or the
      text that a message shows for a key of another type. */
  datatype Key = Name(s: string) | OtherKey(shown: string)

  datatype Yaml =
    | Table(entries: map<Key, Yaml>)
    | Sequence(items: seq<Yaml>)
    | Scalar(v: Value)

  /** Every table in the document has strings for keys. */
  predicate StringKeyed(y: Yaml) {
    match y
    case Table(f) => forall k | k in f :: k.Name? && StringKeyed(f[k])
    case Sequence(ys) => forall i | 0 <= i < |ys| :: StringKeyed(ys[i])
    case Scalar(_) => true
  }

  /** `v` is the document `y` with its tables keyed by strings, and nothing else changed. */
  ghost predicate SameTree(y: Yaml, v: Value) {
    match y
    case Table(f) =>
      && v.Obj?
      && (forall k | k in f :: k.Name? && k.s in v.fields && SameTree(f[k], v.fields[k.s]))
      && (forall s | s in v.fields :: Name(s) in f)
    case Sequence(ys) =>
      v.List? && |v.items| == |ys| && forall i | 0 <= i < |ys| :: SameTree(ys[i], v.items[i])
    case Scalar(w) => v == w
  }

  /** A document names at most one tree. */
  lemma {:induction false} SameTreeIsUnique(y: Yaml, v: Value, w: Value)
    requires SameTree(y, v) && SameTree(y, w)
    ensures v == w
  {
    match y {
      case Table(f) =>
        forall s | s in v.fields ensures s in w.fields && v.fields[s] == w.fields[s] {
          SameTreeIsUnique(f[Name(s)], v.fields[s], w.fields[s]);
        }
        assert v.fields == w.fields;
      case Sequence(ys) =>
        forall i | 0 <= i < |ys| ensures v.items[i] == w.items[i] {
          SameTreeIsUnique(ys[i], v.items[i], w.items[i]);
        }
        assert v.items == w.items;
      case Scalar(_) =>
    }
  }

  /** `path` leads through `y` to a key that is not a string. */
  ghost predicate LeadsToBadKey(y: Yaml, path: seq<string>)
    decreases y
  {
    && path != []
    && match y
       case Table(f) =>
         exists k | k in f ::
           if k.OtherKey? then path == [NameSegment(k.shown)]
           else path[0] == NameSegment(k.s) && LeadsToBadKey(f[k], path[1..])
       case Sequence(ys) =>
         exists i | 0 <= i < |ys| :: path[0] == IndexSegment(i) && LeadsToBadKey(ys[i], path[1..])
       case Scalar(_) => false
  }

  /** The document that a tree with string keys comes from. */
  function DocumentOf(v: Value): Yaml {
    match v
    case Obj(f) => Table(map k | k in Keyed(f) :: DocumentOf(f[k.s]))
    case List(vs) => Sequence(seq(|vs|, i requires 0 <= i < |vs| => DocumentOf(vs[i])))
    case _ => Scalar(v)
  }

  function Keyed(f: map<string, Value>): (r: set<Key>)
    ensures forall k :: k in r <==> k.Name? && k.s in f
  {
    set s | s in f :: Name(s)
  }

  /** It comes from no other tree: string keys, lists and scalars are kept as they are. */
  lemma {:induction false} DocumentsKeepTrees(v: Value, w: Value)
    ensures SameTree(DocumentOf(v), w) <==> w == v
  {
    IsTreeOf(v);
    if SameTree(DocumentOf(v), w) {
      SameTreeIsUnique(DocumentOf(v), v, w);
    }
  }

  lemma {:induction false} IsTreeOf(v: Value)
    ensures SameTree(DocumentOf(v), v)
  {
    match v {
      case Obj(f) =>
        forall k | k in Keyed(f) ensures SameTree(DocumentOf(f[k.s]), f[k.s]) {
          IsTreeOf(f[k.s]);
        }
      case List(vs) =>
        forall i | 0 <= i < |vs| ensures SameTree(DocumentOf(vs[i]), vs[i]) {
          IsTreeOf(vs[i]);
        }
      case _ =>
    }
  }

  datatype Fixed = Tree(v: Value) | NonStringMap(path: seq<string>)

  /** `FixYamlMaps`: the entries of a table are visited in an arbitrary order. */
  method FixYamlMaps(src: Yaml, path: seq<string>) returns (r: Fixed)
    ensures r.Tree? <==> StringKeyed(src)
    ensures r.Tree? ==> SameTree(src, r.v)
    ensures r.NonStringMap? ==> path <= r.path && LeadsToBadKey(src, r.path[|path|..])
    decreases src
  {
    match src {
      case Table(f) =>
        var strMap: map<string, Value> := map[];
        var todo := f.Keys;
        while todo != {}
          invariant todo <= f.Keys
          invariant forall k | k in f && k !in todo ::
            k.Name? && StringKeyed(f[k]) && k.s in strMap && SameTree(f[k], strMap[k.s])
          invariant forall s | s in strMap :: Name(s) in f && Name(s) !in todo
          decreases |todo|
        {
          var k :| k in todo;
          todo := todo - {k};
          if k.OtherKey? {
            r := NonStringMap(path + [NameSegment(k.shown)]);
            assert r.path[|path|..] == [NameSegment(k.shown)];
            return;
          }
          var child := FixYamlMaps(f[k], path + [NameSegment(k.s)]);
          if child.NonStringMap? {
            Deeper(path, NameSegment(k.s), child.path);
            return child;
          }
          strMap := strMap[k.s := child.v];
        }
        r := Tree(Obj(strMap));
      case Sequence(ys) =>
        var list: seq<Value> := [];
        for i := 0 to |ys|
          invariant |list| == i
          invariant forall j | 0 <= j < i :: StringKeyed(ys[j]) && SameTree(ys[j], list[j])
        {
          var child := FixYamlMaps(ys[i], path + [IndexSegment(i)]);
          if child.NonStringMap? {
            Deeper(path, IndexSegment(i), child.path);
            return child;
          }
          list := list + [child.v];
        }
        r := Tree(List(list));
      case Scalar(v) => r := Tree(v);
    }
  }

  lemma Deeper(path: seq<string>, segment: string, full: seq<string>)
    requires path + [segment] <= full
    ensures path <= full && full[|path|..] == [segment] + full[|path| + 1..]
    ensures full[|path|..][1..] == full[|path + [segment]|..]
  {
    assert full[|path|] == (path + [segment])[|path|];
    assert path == full[..|path|];
  }

  /** `BuildYamlInterface`: the schema is the one that the JSON form of the document builds. */
  method BuildYamlInterface(data: Yaml) returns (r: Builder.Outcome)
    ensures !StringKeyed(data) ==> r.Failed?
    ensures forall v | SameTree(data, v) ::
      match Build(JsonForm(v)) case Some(s) => r == Builder.Built(s) case None => r.Failed?
  {
    hide Build;
    var fixed := FixYamlMaps(data, []);
    if fixed.NonStringMap? {
      NoTreeWithoutStringKeys(data);
      return Builder.Failed("not string key");
    }
    var after;
    r, after := Builder.Build(fixed.v);
    JsonFormBuildsAlike(fixed.v);
    forall v | SameTree(data, v) ensures v == fixed.v { SameTreeIsUnique(data, v, fixed.v); }
  }

  lemma {:induction false} NoTreeWithoutStringKeys(y: Yaml)
    ensures (exists v :: SameTree(y, v)) ==> StringKeyed(y)
  {
    if v :| SameTree(y, v) {
      match y {
        case Table(f) =>
          forall k | k in f ensures StringKeyed(f[k]) {
            assert SameTree(f[k], v.fields[k.s]);
            NoTreeWithoutStringKeys(f[k]);
          }
        case Sequence(ys) =>
          forall i | 0 <= i < |ys| ensures StringKeyed(ys[i]) {
            assert SameTree(ys[i], v.items[i]);
            NoTreeWithoutStringKeys(ys[i]);
          }
        case Scalar(_) =>
      }
    }
  }

  // ---- the same document written as JSON ------------------------------------------------

  /** The tree of the JSON document that writes `v` with every number in the form it has. */
  function JsonForm(v: Value): Value {
    match v
    case Int(i) => Number(Digits(i))
    case Float(r) => Number(Decimal(r))
    case List(vs) => List(seq(|vs|, i requires 0 <= i < |vs| => JsonForm(vs[i])))
    case Obj(f) => Obj(map k | k in f :: JsonForm(f[k]))
    case _ => v
  }

  /** A schema built from YAML is the schema built from the same document in JSON. */
  lemma {:induction false} JsonFormBuildsAlike(v: Value)
    ensures Build(JsonForm(v)) == Build(v)
  {
    JsonFormIsAlike(NodeRole, v);
  }

  lemma JsonFormIsRead(v: Value)
    ensures SameAttribute(v, JsonForm(v))
  {
    if v.List? {
      assert forall i | 0 <= i < |v.items| :: JsonForm(v).items[i] == JsonForm(v.items[i]);
      assert forall i | 0 <= i < |v.items| :: JsonForm(v.items[i]).Str? <==> v.items[i].Str?;
      if ReadStrings(v).Some? {
        assert ReadStrings(JsonForm(v)).value == ReadStrings(v).value;
      } else {
        var i :| 0 <= i < |v.items| && !v.items[i].Str?;
        assert !JsonForm(v).items[i].Str?;
      }
    }
  }

  lemma {:induction false} JsonFormIsAlike(role: Role, v: Value)
    ensures Alike(role, v, JsonForm(v))
    decreases v
  {
    JsonFormIsRead(v);
    match v {
      case Obj(f) =>
        var g := JsonForm(v).fields;
        if role == TableRole {
          forall k | k in f ensures Build(g[k]) == Build(f[k]) { JsonFormIsAlike(NodeRole, f[k]); }
          PlainTableAlike(f, g);
        } else if ReadsTables(role) {
          forall r: Role, k | k in f ensures Alike(r, f[k], g[k]) { JsonFormIsAlike(r, f[k]); }
          PlainNodeAlike(DefaultOf(role), f, g);
        }
      case List(vs) =>
        if ReadsLists(role) {
          forall i | 0 <= i < |vs| ensures Build(JsonForm(v).items[i]) == Build(vs[i]) {
            JsonFormIsAlike(NodeRole, vs[i]);
          }
          ListAlike(vs, JsonForm(v).items);
        }
      case _ =>
    }
  }

  lemma PlainTableAlike(f: map<string, Value>, g: map<string, Value>)
    requires g.Keys == f.Keys && forall k | k in f :: Build(g[k]) == Build(f[k])
    ensures BuildTable(Obj(g)) == BuildTable(Obj(f))
  {
    hide Build, Guess;
    if forall k | k in f :: Build(f[k]).Some? {
      assert (map k | k in g :: Build(g[k]).value) == map k | k in f :: Build(f[k]).value;
    } else {
      var k :| k in f && Build(f[k]).None?;
      assert Build(g[k]).None?;
    }
  }

  lemma PlainNodeAlike(def: Default, f: map<string, Value>, g: map<string, Value>)
    requires g.Keys == f.Keys && forall r: Role, k | k in f :: Alike(r, f[k], g[k])
    ensures BuildWith(def, Obj(g)) == BuildWith(def, Obj(f))
  {
    hide BuildKind, KindNamed, Guess;
    assert forall k | k in f :: Alike(PlainRole, f[k], g[k]) ==> (f[k].Str? || g[k].Str? ==> f[k] == g[k]);
    assert KindOf(def, g) == KindOf(def, f);
    assert MixinOf(g) == MixinOf(f);
    var kind := KindOf(def, f);
    if kind.Some? {
      KindAlike(kind.value, f, g);
    }
  }

  /** JSON text that has been through `json.Marshal` is another matter: it writes the float
      5.0 as 5, which is then read as an integer bound that YAML did not give. */
  lemma MarshalledFloatBecomesBound()
    ensures
      var y := Obj(map["type" := Str("integer"), "minimum" := Float(5.0)]);
      Build(y) == Some(IntegerSchema(PLAIN, None, None, None, None)) &&
      Build(Reread(y)) == Some(IntegerSchema(PLAIN, Some(5), None, None, None))
  {
    hide Build, Reread;
    MinimumAlone(Float(5.0));
    MinimumAlone(Number(Digits(5)));
    FiveIsWhole();
  }

  lemma FiveIsWhole()
    ensures Reread(Obj(map["type" := Str("integer"), "minimum" := Float(5.0)]))
      == Obj(map["type" := Str("integer"), "minimum" := Number(Digits(5))])
  {
    var y := Obj(map["type" := Str("integer"), "minimum" := Float(5.0)]);
    assert Reread(y).fields["minimum"] == Number(Digits(5));
    assert Reread(y).fields.Keys == y.fields.Keys;
  }

  lemma MinimumAlone(v: Value)
    ensures Build(Obj(map["type" := Str("integer"), "minimum" := v]))
      == Some(IntegerSchema(PLAIN, ReadInt(v), None, None, None))
  {
    hide KindNamed;
    var f := map["type" := Str("integer"), "minimum" := v];
    assert KindNamed("integer") == Some(IntegerKind) by { IntegerIsNamed(); }
    assert BuildKind(IntegerKind, f, Obj(f)) == Some(IntegerSchema(PLAIN, ReadInt(v), None, None, None));
  }

  lemma IntegerIsNamed()
    ensures KindNamed("integer") == Some(IntegerKind)
  {
  }
}
