/** `SchemaBuilder`, step by step.  A Go table that is changed in place is passed in and
    handed back changed.  Error texts are kept, error paths are not. */
module Builder {
  import opened Values
  import opened Schemas
  import opened BuildSpec
  import opened Normalise

  datatype Outcome = Built(schema: Schema) | Failed(info: string)

  /** The outcome `r` and the tree left behind are those of a build of `v` in `role`. */
  ghost predicate Done(role: Role, v: Value, spec: Option<Schema>, r: Outcome, after: Value) {
    match r
    case Built(schema) => spec == Some(schema) && after == Normal(role, v)
    case Failed(_) => spec == None && Touched(role, v, after)
  }

  method Build(data: Value) returns (r: Outcome, after: Value)
    ensures Done(NodeRole, data, BuildSpec.Build(data), r, after)
  {
    r, after := BuildNode(data);
  }

  // ---- reading tables -------------------------------------------------------------------

  /** The table that `convertTypeMap` makes of `v`: `v` itself with its type guessed, or a
      new one for a type name. */
  ghost predicate Converted(role: Role, v: Value, node: map<string, Value>) {
    || (v.Obj? && node == v.fields + Added(role, v.fields.Keys))
    || (v.Str? && SimpleType(v.s) && node == map["type" := v])
  }

  predicate Convertible(v: Value) {
    v.Obj? || (v.Str? && SimpleType(v.s))
  }

  method ConvertTypeMap(maybeType: Value) returns (typeMap: map<string, Value>, ok: bool)
    ensures ok <==> Convertible(maybeType)
    ensures ok ==> Converted(NodeRole, maybeType, typeMap) && Converted(TableRole, maybeType, typeMap)
  {
    if maybeType.Str? && maybeType.s in ["string", "number", "integer", "bool", "null"] {
      return map["type" := maybeType], true;
    }
    if !maybeType.Obj? {
      return map[], false;
    }
    typeMap := maybeType.fields;
    if "type" !in typeMap {
      if "params" in typeMap {
        typeMap := typeMap["type" := Str("method")];
      } else if "properties" in typeMap {
        typeMap := typeMap["type" := Str("object")];
      } else {
        var composite := ["anyOf", "allOf", "not"];
        var i := 0;
        while i < |composite| && composite[i] !in typeMap
          invariant 0 <= i <= |composite|
          invariant forall j | 0 <= j < i :: composite[j] !in typeMap
        {
          i := i + 1;
        }
        assert composite[0] == "anyOf" && composite[1] == "allOf" && composite[2] == "not";
        if i < |composite| {
          assert Guess(typeMap.Keys) == Some(composite[i]);
          typeMap := typeMap["type" := Str(composite[i])];
        }
      }
    }
    return typeMap, true;
  }

  /** `v` once its own type has been guessed and nothing below it has been visited. */
  function Marked(role: Role, v: Value): Value {
    if v.Obj? then Obj(v.fields + Added(role, v.fields.Keys)) else v
  }

  lemma MarkedIsTouched(role: Role, v: Value)
    requires ReadsTables(role)
    ensures Touched(role, v, Marked(role, v))
  {
  }

  /** `convertAttrListOfMap` applied to an attribute that is present. */
  method ConvertList(v: Value) returns (nodes: seq<map<string, Value>>, ok: bool, after: Value)
    ensures ok ==> v.List? && |nodes| == |v.items|
    ensures ok ==> forall i | 0 <= i < |nodes| :: Convertible(v.items[i]) && Converted(NodeRole, v.items[i], nodes[i])
    ensures ok ==> after == List(seq(|nodes|, i requires 0 <= i < |nodes| => Marked(NodeRole, v.items[i])))
    ensures !ok ==> BuildNodes(v) == None && Touched(NodesRole, v, after)
  {
    if !v.List? {
      return [], false, v;
    }
    nodes := [];
    var items: seq<Value> := [];
    for i := 0 to |v.items|
      invariant |nodes| == |items| == i
      invariant forall j | 0 <= j < i :: Convertible(v.items[j]) && Converted(NodeRole, v.items[j], nodes[j])
      invariant forall j | 0 <= j < i :: items[j] == Marked(NodeRole, v.items[j])
    {
      var node, good := ConvertTypeMap(v.items[i]);
      if !good {
        after := List(items + v.items[i..]);
        forall j | 0 <= j < |v.items| ensures Touched(NodeRole, v.items[j], after.items[j]) {
          MarkedIsTouched(NodeRole, v.items[j]);
        }
        assert BuildSpec.Build(v.items[i]).None?;
        return [], false, after;
      }
      nodes := nodes + [node];
      items := items + [Marked(NodeRole, v.items[i])];
    }
    ok := true;
    after := List(items);
    assert items == seq(|nodes|, i requires 0 <= i < |nodes| => Marked(NodeRole, v.items[i]));
  }

  // ---- nodes ----------------------------------------------------------------------------

  method BuildNode(data: Value) returns (r: Outcome, after: Value)
    ensures Done(NodeRole, data, BuildSpec.Build(data), r, after)
    decreases data, 5
  {
    var typeMap, ok := ConvertTypeMap(data);
    if !ok {
      return Failed("data is not an object"), data;
    }
    var node;
    r, node := BuildNodeMap(typeMap, NodeRole, data);
    after := if data.Obj? then Obj(node) else data;
  }

  /** `node` has the entries of `f`, apart from its type, and they are parts of `src`. */
  ghost predicate HasEntries(node: map<string, Value>, f: map<string, Value>, src: Value) {
    && (forall k | k != "type" :: (k in node <==> k in f) && (k in f ==> node[k] == f[k]))
    && (forall k | k in f :: f[k] < src)
  }

  /** The entries that a converted table takes from `src`. */
  ghost function EntriesOf(src: Value): map<string, Value> {
    if src.Obj? then src.fields else map[]
  }

  lemma ConvertedHasEntries(role: Role, src: Value, node: map<string, Value>)
    requires Converted(role, src, node)
    ensures HasEntries(node, EntriesOf(src), src)
  {
  }

  /** `r` and `after` are the outcome of building `f` as a node of one kind: the type entry
      is kept and the other entries are done, or partly done, in their roles. */
  ghost predicate KindDone(kind: Kind, f: map<string, Value>, node: map<string, Value>, r: Outcome,
                           after: map<string, Value>)
  {
    && after.Keys == node.Keys
    && ("type" in node ==> after["type"] == node["type"])
    && match r
       case Built(schema) =>
         && BuildKind(kind, f, Obj(f)) == Some(schema)
         && forall k | k in f && k in after && k != "type" :: after[k] == Normal(KindEntryRole(kind, f, k), f[k])
       case Failed(_) =>
         && BuildKind(kind, f, Obj(f)) == None
         && forall k | k in f && k in after && k != "type" :: Touched(KindEntryRole(kind, f, k), f[k], after[k])
  }

  lemma EntryIs(node: map<string, Value>, f: map<string, Value>, src: Value, key: string)
    requires HasEntries(node, f, src) && key != "type"
    ensures (key in node <==> key in f) && (key in f ==> node[key] == f[key] && f[key] < src)
    ensures AttrInt(node, key) == AttrInt(f, key) && AttrFloat(node, key) == AttrFloat(f, key)
    ensures AttrBool(node, key) == AttrBool(f, key) && AttrStrings(node, key) == AttrStrings(f, key)
  {
  }

  /** The entries in `visited` are done in their roles, and the others are as they were. */
  ghost predicate SoFar(kind: Kind, f: map<string, Value>, node: map<string, Value>, after: map<string, Value>,
                        visited: set<string>)
  {
    && after.Keys == node.Keys
    && ("type" in node ==> after["type"] == node["type"])
    && forall k | k in f && k in after && k != "type" ::
         after[k] == if k in visited then Normal(KindEntryRole(kind, f, k), f[k]) else f[k]
  }

  lemma NothingVisited(kind: Kind, f: map<string, Value>, node: map<string, Value>, src: Value)
    requires HasEntries(node, f, src)
    ensures SoFar(kind, f, node, node, {})
  {
  }

  lemma VisitEntry(kind: Kind, f: map<string, Value>, node: map<string, Value>, after: map<string, Value>,
                   visited: set<string>, key: string, child: Value)
    requires SoFar(kind, f, node, after, visited)
    requires key in f && key in after && key != "type" && child == Normal(KindEntryRole(kind, f, key), f[key])
    ensures SoFar(kind, f, node, after[key := child], visited + {key})
  {
  }

  lemma SoFarKeys(kind: Kind, f: map<string, Value>, node: map<string, Value>, after: map<string, Value>,
                  visited: set<string>)
    requires SoFar(kind, f, node, after, visited)
    ensures after.Keys == node.Keys
  {
  }

  lemma SoFarMore(kind: Kind, f: map<string, Value>, node: map<string, Value>, after: map<string, Value>,
                  visited: set<string>, key: string)
    requires SoFar(kind, f, node, after, visited) && key !in f
    ensures SoFar(kind, f, node, after, visited + {key})
  {
  }

  /** A kind that fails at one entry leaves every entry done, partly done or untouched. */
  lemma FailAtEntry(kind: Kind, f: map<string, Value>, node: map<string, Value>, after: map<string, Value>,
                    visited: set<string>, key: string, child: Value, r: Outcome)
    requires SoFar(kind, f, node, after, visited) && r.Failed? && BuildKind(kind, f, Obj(f)) == None
    requires key in f && key in after && key != "type" && Touched(KindEntryRole(kind, f, key), f[key], child)
    ensures KindDone(kind, f, node, r, after[key := child])
  {
    forall k | k in f && k in after && k != "type"
      ensures Touched(KindEntryRole(kind, f, k), f[k], after[key := child][k])
    {
      NormalIsTouched(KindEntryRole(kind, f, k), f[k]);
    }
  }

  lemma FailBetween(kind: Kind, f: map<string, Value>, node: map<string, Value>, after: map<string, Value>,
                    visited: set<string>, r: Outcome)
    requires SoFar(kind, f, node, after, visited) && r.Failed? && BuildKind(kind, f, Obj(f)) == None
    ensures KindDone(kind, f, node, r, after)
  {
    forall k | k in f && k in after && k != "type" ensures Touched(KindEntryRole(kind, f, k), f[k], after[k]) {
      NormalIsTouched(KindEntryRole(kind, f, k), f[k]);
    }
  }

  /** A kind succeeds once it has visited every entry that has a role. */
  lemma Finish(kind: Kind, f: map<string, Value>, node: map<string, Value>, after: map<string, Value>,
               visited: set<string>, r: Outcome)
    requires SoFar(kind, f, node, after, visited) && r.Built? && BuildKind(kind, f, Obj(f)) == Some(r.schema)
    requires forall k | k in f && k !in visited && k != "type" :: KindEntryRole(kind, f, k) == PlainRole
    ensures KindDone(kind, f, node, r, after)
  {
  }

  /** `node` is the table converted from `src`, which stands in `role`. */
  method BuildNodeMap(node: map<string, Value>, ghost role: Role, ghost src: Value)
    returns (r: Outcome, after: map<string, Value>)
    requires role == NodeRole || role == ReturnsRole
    requires Converted(role, src, node)
    ensures src.Obj? ==> Done(role, src, BuildWith(DefaultOf(role), src), r, Obj(after))
    ensures src.Str? ==> r.Built? && BuildWith(DefaultOf(role), src) == Some(r.schema)
    decreases src, 4
  {
    hide BuildSpec.Build, BuildWith, BuildKind, KindOf, KindNamed, Added, Converted, HasEntries, KindDone, Done, Named;
    ghost var f := EntriesOf(src);
    ConvertedHasEntries(role, src, node);
    TypeIsKind(role, src, node);
    if "type" !in node || !node["type"].Str? || KindNamed(node["type"].s).None? {
      r := Failed(if "type" in node then "unknown type" else "no type presented");
      KindlessFails(role, src, node, r);
      return r, node;
    }
    var kind := KindNamed(node["type"].s).value;
    r, after := BuildOfKind(kind, node, f, src);
    ghost var k := r;
    if r.Built? {
      r := BuildMixin(r.schema, node);
    }
    if src.Obj? {
      NodeAssembles(role, kind, f, node, after, k, r);
    } else {
      NameAssembles(role, kind, src, node, after, k, r);
    }
  }

  lemma TypeIsKind(role: Role, src: Value, node: map<string, Value>)
    requires role == NodeRole || role == ReturnsRole
    requires Converted(role, src, node)
    ensures src.Obj? || src.Str?
    ensures src.Obj? ==> node == src.fields + Added(role, src.fields.Keys)
    ensures src.Obj? ==>
      KindOf(DefaultOf(role), src.fields) == (if "type" in node && node["type"].Str? then KindNamed(node["type"].s) else None)
    ensures src.Str? ==> "type" in node && node["type"] == src
  {
    hide KindNamed, Guess;
  }

  lemma KindlessFails(role: Role, src: Value, node: map<string, Value>, r: Outcome)
    requires role == NodeRole || role == ReturnsRole
    requires Converted(role, src, node) && r.Failed?
    requires !("type" in node && node["type"].Str? && KindNamed(node["type"].s).Some?)
    ensures src.Obj? && Done(role, src, BuildWith(DefaultOf(role), src), r, Obj(node))
  {
    TypeIsKind(role, src, node);
    hide KindOf, Converted, Added;
    if src.Obj? {
      MarkedIsTouched(role, src);
    }
  }

  /** A type name builds as the table that names it. */
  lemma NameAssembles(role: Role, kind: Kind, src: Value, node: map<string, Value>, after: map<string, Value>,
                      k: Outcome, r: Outcome)
    requires src.Str? && Converted(role, src, node) && KindNamed(src.s) == Some(kind)
    requires KindDone(kind, map[], node, k, after) && (k.Built? ==> k.schema != NoSchema && k.schema.mixin == PLAIN)
    requires if k.Built? then match Named(Some(k.schema), node) case Some(s) => r == Built(s) case None => r.Failed?
             else r == k
    ensures r.Built? && BuildWith(DefaultOf(role), src) == Some(r.schema)
  {
    assert BuildKind(kind, map[], Obj(map[])) == Some(Simple(src.s));
  }

  /** `buildMixin`: the name and the description, if they are strings. */
  method BuildMixin(schema: Schema, node: map<string, Value>) returns (r: Outcome)
    requires schema != NoSchema && schema.mixin == PLAIN
    ensures match Named(Some(schema), node) case Some(s) => r == Built(s) case None => r.Failed?
  {
    var s := schema;
    if "name" in node {
      if !node["name"].Str? {
        return Failed("name must be string");
      }
      s := WithMixin(s, s.mixin.(name := node["name"].s));
    }
    if "description" in node {
      if !node["description"].Str? {
        return Failed("decsription must be string");
      }
      s := WithMixin(s, s.mixin.(description := node["description"].s));
    }
    return Built(s);
  }

  /** The switch of `buildNodeMap`. */
  method BuildOfKind(kind: Kind, node: map<string, Value>, ghost f: map<string, Value>, ghost src: Value)
    returns (r: Outcome, after: map<string, Value>)
    requires HasEntries(node, f, src)
    ensures KindDone(kind, f, node, r, after)
    ensures r.Built? ==> r.schema != NoSchema && r.schema.mixin == PLAIN
    decreases src, 3
  {
    hide BuildKind, KindDone, HasEntries;
    after := node;
    match kind {
      case NumberKind => r := BuildNumberSchema(node, f, src);
      case IntegerKind => r := BuildIntegerSchema(node, f, src);
      case StringKind => r := BuildStringSchema(node, f, src);
      case BoolKind => r := Built(BoolSchema(PLAIN)); LeafBuilds(f); LeafIsDone(kind, f, node, src, r);
      case AnyKind => r := Built(AnySchema(PLAIN)); LeafBuilds(f); LeafIsDone(kind, f, node, src, r);
      case NullKind => r := Built(NullSchema(PLAIN)); LeafBuilds(f); LeafIsDone(kind, f, node, src, r);
      case AnyOfKind => r, after := BuildChoices(AnyOfKind, "anyOf", node, f, src);
      case AllOfKind => r, after := BuildChoices(AllOfKind, "allOf", node, f, src);
      case NotKind => r, after := BuildNotSchema(node, f, src);
      case ListKind => r, after := BuildListSchema(node, f, src);
      case ObjectKind => r, after := BuildObjectSchema(node, f, src);
      case MethodKind => r, after := BuildMethodSchema(node, f, src);
    }
  }

  predicate IsLeaf(kind: Kind) {
    kind in {NumberKind, IntegerKind, StringKind, BoolKind, AnyKind, NullKind}
  }

  lemma LeafBuilds(f: map<string, Value>)
    ensures BuildKind(BoolKind, f, Obj(f)) == Some(BoolSchema(PLAIN))
    ensures BuildKind(AnyKind, f, Obj(f)) == Some(AnySchema(PLAIN))
    ensures BuildKind(NullKind, f, Obj(f)) == Some(NullSchema(PLAIN))
  {
  }

  lemma LeafIsDone(kind: Kind, f: map<string, Value>, node: map<string, Value>, src: Value, r: Outcome)
    requires IsLeaf(kind) && HasEntries(node, f, src)
    requires r.Built? && BuildKind(kind, f, Obj(f)) == Some(r.schema)
    ensures KindDone(kind, f, node, r, node)
  {
    hide BuildKind;
  }

  method BuildNumberSchema(node: map<string, Value>, ghost f: map<string, Value>, ghost src: Value) returns (r: Outcome)
    requires HasEntries(node, f, src)
    ensures KindDone(NumberKind, f, node, r, node)
    ensures r.Built? && r.schema != NoSchema && r.schema.mixin == PLAIN
  {
    hide KindDone, HasEntries, AttrFloat, AttrBool;
    EntryIs(node, f, src, "minimum");
    EntryIs(node, f, src, "maximum");
    EntryIs(node, f, src, "exclusiveMinimum");
    EntryIs(node, f, src, "exclusiveMaximum");
    r := Built(NumberSchema(PLAIN, AttrFloat(node, "minimum"), AttrFloat(node, "maximum"),
                            AttrBool(node, "exclusiveMinimum"), AttrBool(node, "exclusiveMaximum")));
    LeafIsDone(NumberKind, f, node, src, r);
  }

  method BuildIntegerSchema(node: map<string, Value>, ghost f: map<string, Value>, ghost src: Value) returns (r: Outcome)
    requires HasEntries(node, f, src)
    ensures KindDone(IntegerKind, f, node, r, node)
    ensures r.Built? && r.schema != NoSchema && r.schema.mixin == PLAIN
  {
    hide KindDone, HasEntries, AttrInt, AttrBool;
    EntryIs(node, f, src, "minimum");
    EntryIs(node, f, src, "maximum");
    EntryIs(node, f, src, "exclusiveMinimum");
    EntryIs(node, f, src, "exclusiveMaximum");
    r := Built(IntegerSchema(PLAIN, AttrInt(node, "minimum"), AttrInt(node, "maximum"),
                             AttrBool(node, "exclusiveMinimum"), AttrBool(node, "exclusiveMaximum")));
    LeafIsDone(IntegerKind, f, node, src, r);
  }

  method BuildStringSchema(node: map<string, Value>, ghost f: map<string, Value>, ghost src: Value) returns (r: Outcome)
    requires HasEntries(node, f, src)
    ensures KindDone(StringKind, f, node, r, node)
    ensures r.Built? && r.schema != NoSchema && r.schema.mixin == PLAIN
  {
    hide KindDone, HasEntries, AttrInt;
    EntryIs(node, f, src, "maxLength");
    EntryIs(node, f, src, "minLength");
    r := Built(StringSchema(PLAIN, AttrLength(node, "maxLength"), AttrLength(node, "minLength")));
    LeafIsDone(StringKind, f, node, src, r);
  }

  /** A node of known kind, with its mixin read or refused, is done in its role. */
  lemma NodeAssembles(role: Role, kind: Kind, f: map<string, Value>, node: map<string, Value>,
                      after: map<string, Value>, k: Outcome, r: Outcome)
    requires role == NodeRole || role == ReturnsRole
    requires node == f + Added(role, f.Keys) && KindOf(DefaultOf(role), f) == Some(kind)
    requires KindDone(kind, f, node, k, after) && (k.Built? ==> k.schema != NoSchema)
    requires if k.Built? then match Named(Some(k.schema), node) case Some(s) => r == Built(s) case None => r.Failed?
             else r == k
    ensures Done(role, Obj(f), BuildWith(DefaultOf(role), Obj(f)), r, Obj(after))
  {
    hide BuildKind, Normal, Touched, KindOf, MixinOf, WithMixin, KindEntryRole, Added, BuildWith;
    SameMixin(role, f, node);
    NodeBuildsAs(role, kind, f);
    if k.Built? {
      NodeIsNormal(role, kind, f, node, after);
      NormalIsTouched(role, Obj(f));
    } else {
      NodeIsTouched(role, kind, f, node, after);
    }
  }

  lemma SameMixin(role: Role, f: map<string, Value>, node: map<string, Value>)
    requires node == f + Added(role, f.Keys)
    ensures forall s: Option<Schema> | s.Some? ==> s.value != NoSchema :: Named(s, node) == Named(s, f)
  {
    assert MixinOf(node) == MixinOf(f);
  }

  lemma NodeBuildsAs(role: Role, kind: Kind, f: map<string, Value>)
    requires KindOf(DefaultOf(role), f) == Some(kind)
    ensures BuildWith(DefaultOf(role), Obj(f)) == Named(BuildKind(kind, f, Obj(f)), f)
  {
    hide KindOf, Named, BuildKind;
  }

  lemma EntryRoles(role: Role, kind: Kind, f: map<string, Value>)
    requires role == NodeRole || role == ReturnsRole
    requires KindOf(DefaultOf(role), f) == Some(kind)
    ensures forall k | k in f :: EntryRole(role, f, k) == KindEntryRole(kind, f, k)
    ensures KindEntryRole(kind, f, "type") == PlainRole
  {
    hide KindOf;
  }

  lemma NodeIsNormal(role: Role, kind: Kind, f: map<string, Value>, node: map<string, Value>, after: map<string, Value>)
    requires role == NodeRole || role == ReturnsRole
    requires node == f + Added(role, f.Keys) && KindOf(DefaultOf(role), f) == Some(kind)
    requires after.Keys == node.Keys && ("type" in node ==> after["type"] == node["type"])
    requires forall k | k in f && k in after && k != "type" :: after[k] == Normal(KindEntryRole(kind, f, k), f[k])
    ensures Obj(after) == Normal(role, Obj(f))
  {
    hide KindOf, KindEntryRole, EntryRole, Normal;
    NormalOfTable(role, f);
    EntryRoles(role, kind, f);
    PlainIsLeftAlone(f);
    assert after == Normal(role, Obj(f)).fields;
  }

  lemma NormalOfTable(role: Role, f: map<string, Value>)
    requires ReadsTables(role)
    ensures Normal(role, Obj(f)) == Obj((map k | k in f :: Normal(EntryRole(role, f, k), f[k])) + Added(role, f.Keys))
  {
    hide EntryRole, Added;
  }

  lemma PlainIsLeftAlone(f: map<string, Value>)
    ensures "type" in f ==> Normal(PlainRole, f["type"]) == f["type"]
  {
  }

  lemma NodeIsTouched(role: Role, kind: Kind, f: map<string, Value>, node: map<string, Value>, after: map<string, Value>)
    requires role == NodeRole || role == ReturnsRole
    requires node == f + Added(role, f.Keys) && KindOf(DefaultOf(role), f) == Some(kind)
    requires after.Keys == node.Keys && ("type" in node ==> after["type"] == node["type"])
    requires forall k | k in f && k in after && k != "type" :: Touched(KindEntryRole(kind, f, k), f[k], after[k])
    ensures Touched(role, Obj(f), Obj(after))
  {
    hide KindOf, KindEntryRole, EntryRole;
    EntryRoles(role, kind, f);
    assert "type" in f ==> Touched(PlainRole, f["type"], after["type"]);
  }

  // ---- the kinds that have children ---------------------------------------------------------

  lemma ListDone(role: Role, v: Value, schemas: seq<Schema>, items: seq<Value>)
    requires ReadsLists(role) && v.List? && |schemas| == |items| == |v.items|
    requires forall j | 0 <= j < |items| ::
      BuildSpec.Build(v.items[j]) == Some(schemas[j]) && items[j] == Normal(NodeRole, v.items[j])
    ensures BuildNodes(v) == Some(schemas) && List(items) == Normal(role, v)
  {
    hide BuildSpec.Build;
    assert BuildNodes(v).value == schemas;
    assert Normal(role, v).items == items;
  }

  lemma ListFails(role: Role, v: Value, items: seq<Value>, i: nat)
    requires ReadsLists(role) && v.List? && |items| == |v.items| && i < |items|
    requires BuildSpec.Build(v.items[i]) == None
    requires forall j | 0 <= j < |items| :: Touched(NodeRole, v.items[j], items[j])
    ensures BuildNodes(v) == None && Touched(role, v, List(items))
  {
    hide BuildSpec.Build;
  }

  lemma NameIsNormal(v: Value)
    ensures v.Str? ==> Normal(NodeRole, v) == v && Marked(NodeRole, v) == v && Touched(NodeRole, v, v)
  {
  }

  lemma UntouchedIsTouched(role: Role, v: Value)
    ensures Touched(role, v, v)
  {
  }

  lemma InsertedTypeIsNoNode(keys: set<string>)
    ensures "type" in Added(TableRole, keys) <==> Guess(keys).Some?
    ensures "type" in Added(TableRole, keys) ==> "type" !in keys && !Convertible(Added(TableRole, keys)["type"])
  {
  }

  lemma InconvertibleDoesNotBuild(v: Value)
    requires !Convertible(v)
    ensures BuildSpec.Build(v) == None
  {
  }

  lemma TableDone(v: Value, props: map<string, Schema>, table: map<string, Value>)
    requires v.Obj? && Guess(v.fields.Keys).None? && props.Keys == table.Keys == v.fields.Keys
    requires forall k | k in props ::
      BuildSpec.Build(v.fields[k]) == Some(props[k]) && table[k] == Normal(NodeRole, v.fields[k])
    ensures BuildTable(v) == Some(props) && Obj(table) == Normal(TableRole, v)
  {
    hide Guess, Normal, Added;
    assert BuildTable(v).value == props;
    TableIsNormal(v, table);
  }

  lemma TableIsNormal(v: Value, table: map<string, Value>)
    requires v.Obj? && Guess(v.fields.Keys).None? && table.Keys == v.fields.Keys
    requires forall k | k in table :: table[k] == Normal(NodeRole, v.fields[k])
    ensures Obj(table) == Normal(TableRole, v)
  {
    hide Normal, Guess;
    InsertedTypeIsNoNode(v.fields.Keys);
    NormalOfTable(TableRole, v.fields);
    assert Normal(TableRole, v).fields == table;
  }

  lemma TableFails(v: Value, table: map<string, Value>, name: string)
    requires v.Obj? && table.Keys == v.fields.Keys + Added(TableRole, v.fields.Keys).Keys
    requires "type" in Added(TableRole, v.fields.Keys) ==> table["type"] == Added(TableRole, v.fields.Keys)["type"]
    requires Guess(v.fields.Keys).None? ==> name in v.fields && BuildSpec.Build(v.fields[name]) == None
    requires forall k | k in v.fields :: Touched(NodeRole, v.fields[k], table[k])
    ensures BuildTable(v) == None && Touched(TableRole, v, Obj(table))
  {
    hide BuildSpec.Build;
  }

  /** `convertAttrListOfMap` followed by a build of each node. */
  method BuildListOfMaps(v: Value, ghost src: Value) returns (schemas: seq<Schema>, ok: bool, after: Value)
    requires v < src
    ensures ok ==> BuildNodes(v) == Some(schemas) && after == Normal(NodesRole, v)
    ensures !ok ==> BuildNodes(v) == None && Touched(NodesRole, v, after)
    decreases src, 1
  {
    hide BuildSpec.Build, BuildWith, BuildKind, BuildNodes, BuildTable, Normal, Touched, Marked, Converted, Convertible;
    var nodes;
    schemas := [];
    nodes, ok, after := ConvertList(v);
    if !ok {
      return;
    }
    var items := after.items;
    for i := 0 to |nodes|
      invariant |schemas| == i && |items| == |nodes|
      invariant forall j | 0 <= j < i ::
        BuildSpec.Build(v.items[j]) == Some(schemas[j]) && items[j] == Normal(NodeRole, v.items[j])
      invariant forall j | i <= j < |items| :: items[j] == Marked(NodeRole, v.items[j])
    {
      var r, item := BuildConverted(nodes[i], v.items[i]);
      items := items[i := item];
      if r.Failed? {
        after := List(items);
        forall j | 0 <= j < |items| ensures Touched(NodeRole, v.items[j], items[j]) {
          MarkedIsTouched(NodeRole, v.items[j]);
          NormalIsTouched(NodeRole, v.items[j]);
        }
        ListFails(NodesRole, v, items, i);
        return schemas, false, after;
      }
      schemas := schemas + [r.schema];
    }
    after := List(items);
    ListDone(NodesRole, v, schemas, items);
  }

  /** The loop of `buildListSchema` over a tuple. */
  method BuildTuple(v: Value, ghost src: Value) returns (schemas: seq<Schema>, ok: bool, after: Value)
    requires v < src && v.List?
    ensures ok ==> BuildNodes(v) == Some(schemas) && after == Normal(ItemsRole, v)
    ensures !ok ==> BuildNodes(v) == None && Touched(ItemsRole, v, after)
    decreases src, 1
  {
    hide BuildWith, BuildKind, BuildNodes, BuildTable, Normal, Touched;
    schemas := [];
    var items := v.items;
    for i := 0 to |v.items|
      invariant |schemas| == i && |items| == |v.items|
      invariant forall j | 0 <= j < i ::
        BuildSpec.Build(v.items[j]) == Some(schemas[j]) && items[j] == Normal(NodeRole, v.items[j])
      invariant forall j | i <= j < |items| :: items[j] == v.items[j]
    {
      var r, item := BuildNode(v.items[i]);
      items := items[i := item];
      if r.Failed? {
        after := List(items);
        forall j | 0 <= j < |items| ensures Touched(NodeRole, v.items[j], items[j]) {
          NormalIsTouched(NodeRole, v.items[j]);
          UntouchedIsTouched(NodeRole, v.items[j]);
        }
        ListFails(ItemsRole, v, items, i);
        return schemas, false, after;
      }
      schemas := schemas + [r.schema];
    }
    ok := true;
    after := List(items);
    ListDone(ItemsRole, v, schemas, items);
  }

  /** An optional child node: absent, built, or not buildable. */
  method BuildAdditional(node: map<string, Value>, key: string, ghost f: map<string, Value>, ghost src: Value)
    returns (extra: Schema, ok: bool, after: Value)
    requires HasEntries(node, f, src) && key != "type"
    ensures ok ==> BuildExtra(f, key, Obj(f)) == Some(extra)
    ensures !ok ==> key in f && BuildExtra(f, key, Obj(f)) == None && Touched(NodeRole, f[key], after)
    ensures ok && key in f ==> after == Normal(NodeRole, f[key])
    decreases src, 1
  {
    hide BuildSpec.Build, BuildWith, Normal, Touched, HasEntries;
    EntryIs(node, f, src, key);
    if key in node {
      var r;
      r, after := BuildNode(node[key]);
      if r.Failed? {
        return NoSchema, false, after;
      }
      return r.schema, true, after;
    }
    return NoSchema, true, Null;
  }

  method BuildChoices(kind: Kind, key: string, node: map<string, Value>, ghost f: map<string, Value>, ghost src: Value)
    returns (r: Outcome, after: map<string, Value>)
    requires HasEntries(node, f, src)
    requires (kind == AnyOfKind && key == "anyOf") || (kind == AllOfKind && key == "allOf")
    ensures KindDone(kind, f, node, r, after)
    ensures r.Built? ==> r.schema != NoSchema && r.schema.mixin == PLAIN
    decreases src, 2
  {
    hide BuildSpec.Build, BuildWith, BuildKind, BuildList, BuildObject, BuildMethod, BuildNodes, BuildTable, BuildReturns, Normal, Touched, HasEntries, SoFar, KindDone;
    ChoicesAssemble(f);
    EntryIs(node, f, src, key);
    NothingVisited(kind, f, node, src);
    if key !in node {
      r := Failed("no valid " + key + " attribute");
      FailBetween(kind, f, node, node, {}, r);
      return r, node;
    }
    var schemas, ok, list := BuildListOfMaps(node[key], src);
    after := node[key := list];
    if !ok {
      r := Failed("no valid " + key + " attribute");
      FailAtEntry(kind, f, node, node, {}, key, list, r);
      return;
    }
    r := Built(if kind == AnyOfKind then AnyOfSchema(PLAIN, schemas) else AllOfSchema(PLAIN, schemas));
    VisitEntry(kind, f, node, node, {}, key, list);
    Finish(kind, f, node, after, {key}, r);
  }

  method BuildNotSchema(node: map<string, Value>, ghost f: map<string, Value>, ghost src: Value)
    returns (r: Outcome, after: map<string, Value>)
    requires HasEntries(node, f, src)
    ensures KindDone(NotKind, f, node, r, after)
    ensures r.Built? ==> r.schema != NoSchema && r.schema.mixin == PLAIN
    decreases src, 2
  {
    hide BuildSpec.Build, BuildWith, BuildKind, BuildList, BuildObject, BuildMethod, BuildNodes, BuildTable, BuildReturns, Normal, Touched, HasEntries, SoFar, KindDone;
    ChoicesAssemble(f);
    EntryIs(node, f, src, "not");
    NothingVisited(NotKind, f, node, src);
    if "not" !in node {
      r := Failed("no valid not attribute");
      FailBetween(NotKind, f, node, node, {}, r);
      return r, node;
    }
    var child, a := BuildNode(node["not"]);
    after := node["not" := a];
    if child.Failed? {
      r := child;
      FailAtEntry(NotKind, f, node, node, {}, "not", a, r);
      return;
    }
    r := Built(NotSchema(PLAIN, child.schema));
    VisitEntry(NotKind, f, node, node, {}, "not", a);
    Finish(NotKind, f, node, after, {"not"}, r);
  }

  method BuildListSchema(node: map<string, Value>, ghost f: map<string, Value>, ghost src: Value)
    returns (r: Outcome, after: map<string, Value>)
    requires HasEntries(node, f, src)
    ensures KindDone(ListKind, f, node, r, after)
    ensures r.Built? ==> r.schema != NoSchema && r.schema.mixin == PLAIN
    decreases src, 2, 1
  {
    hide BuildSpec.Build, BuildWith, BuildKind, BuildList, BuildObject, BuildMethod, BuildNodes, BuildTable, BuildReturns, Normal, Touched, HasEntries, SoFar, KindDone;
    ListAssembles(f);
    EntryIs(node, f, src, "items");
    NothingVisited(ListKind, f, node, src);
    if "items" !in node {
      r := Failed("no items");
      FailBetween(ListKind, f, node, node, {}, r);
      return r, node;
    }
    if node["items"].List? {
      r, after := BuildTupleSchema(node, f, src);
    } else {
      r, after := BuildPlainList(node, f, src);
    }
  }

  method BuildTupleSchema(node: map<string, Value>, ghost f: map<string, Value>, ghost src: Value)
    returns (r: Outcome, after: map<string, Value>)
    requires HasEntries(node, f, src) && "items" in node && node["items"].List?
    ensures KindDone(ListKind, f, node, r, after)
    ensures r.Built? ==> r.schema != NoSchema && r.schema.mixin == PLAIN
    decreases src, 2, 0
  {
    hide BuildSpec.Build, BuildWith, BuildKind, BuildList, BuildObject, BuildMethod, BuildNodes, BuildTable, BuildReturns, Normal, Touched, HasEntries, SoFar, KindDone;
    ListAssembles(f);
    EntryIs(node, f, src, "items");
    EntryIs(node, f, src, "additionalItems");
    NothingVisited(ListKind, f, node, src);
    var schemas, ok, list := BuildTuple(node["items"], src);
    after := node["items" := list];
    if !ok {
      r := Failed("tuple item does not build");
      FailAtEntry(ListKind, f, node, node, {}, "items", list, r);
      return;
    }
    VisitEntry(ListKind, f, node, node, {}, "items", list);
    var extra, good, child := BuildAdditional(node, "additionalItems", f, src);
    if !good {
      r := Failed("additionalItems does not build");
      FailAtEntry(ListKind, f, node, after, {"items"}, "additionalItems", child, r);
      after := after["additionalItems" := child];
      return;
    }
    r := Built(TupleSchema(PLAIN, schemas, extra));
    ghost var visited := {"items"};
    if "additionalItems" in node {
      VisitEntry(ListKind, f, node, after, visited, "additionalItems", child);
      after := after["additionalItems" := child];
      visited := {"items", "additionalItems"};
      assert {"items"} + {"additionalItems"} == visited;
    }
    Finish(ListKind, f, node, after, visited, r);
  }

  method BuildPlainList(node: map<string, Value>, ghost f: map<string, Value>, ghost src: Value)
    returns (r: Outcome, after: map<string, Value>)
    requires HasEntries(node, f, src) && "items" in node && !node["items"].List?
    ensures KindDone(ListKind, f, node, r, after)
    ensures r.Built? ==> r.schema != NoSchema && r.schema.mixin == PLAIN
    decreases src, 2, 0
  {
    hide BuildSpec.Build, BuildWith, BuildKind, BuildList, BuildObject, BuildMethod, BuildNodes, BuildTable, BuildReturns, Normal, Touched, HasEntries, SoFar, KindDone;
    ListAssembles(f);
    EntryIs(node, f, src, "items");
    EntryIs(node, f, src, "minItems");
    EntryIs(node, f, src, "maxItems");
    NothingVisited(ListKind, f, node, src);
    var item, child := BuildNode(node["items"]);
    after := node["items" := child];
    ItemsAsNode(node["items"], child);
    if item.Failed? {
      r := item;
      FailAtEntry(ListKind, f, node, node, {}, "items", child, r);
      return;
    }
    r := Built(ListSchema(PLAIN, item.schema, AttrLength(node, "minItems"), AttrLength(node, "maxItems")));
    VisitEntry(ListKind, f, node, node, {}, "items", child);
    Finish(ListKind, f, node, after, {"items"}, r);
  }

  method BuildObjectSchema(node: map<string, Value>, ghost f: map<string, Value>, ghost src: Value)
    returns (r: Outcome, after: map<string, Value>)
    requires HasEntries(node, f, src)
    ensures KindDone(ObjectKind, f, node, r, after)
    ensures r.Built? ==> r.schema != NoSchema && r.schema.mixin == PLAIN
    decreases src, 2, 1
  {
    hide BuildSpec.Build, BuildWith, BuildKind, BuildList, BuildObject, BuildMethod, BuildNodes, BuildTable, BuildReturns, Normal, Touched, HasEntries, SoFar, KindDone;
    ObjectAssembles(f);
    EntryIs(node, f, src, "properties");
    NothingVisited(ObjectKind, f, node, src);
    after := node;
    var props: map<string, Schema> := map[];
    ghost var visited := {};
    if "properties" in node {
      var ok, table;
      props, ok, table := BuildPropertyTable(node["properties"], src);
      after := node["properties" := table];
      if !ok {
        r := Failed("properties is not a map of objects");
        FailAtEntry(ObjectKind, f, node, node, {}, "properties", table, r);
        return;
      }
      VisitEntry(ObjectKind, f, node, node, {}, "properties", table);
      visited := {} + {"properties"};
    }
    r, after := BuildObjectRest(node, f, src, props, after, visited);
  }

  /** The rest of `buildObjectSchema`, once the properties are built. */
  method BuildObjectRest(node: map<string, Value>, ghost f: map<string, Value>, ghost src: Value,
                         props: map<string, Schema>, table: map<string, Value>, ghost visited: set<string>)
    returns (r: Outcome, after: map<string, Value>)
    requires HasEntries(node, f, src) && SoFar(ObjectKind, f, node, table, visited)
    requires "properties" in f ==> "properties" in visited
    requires Properties(f) == Some(props)
    ensures KindDone(ObjectKind, f, node, r, after)
    ensures r.Built? ==> r.schema != NoSchema && r.schema.mixin == PLAIN
    decreases src, 2, 0
  {
    hide BuildSpec.Build, BuildWith, BuildKind, BuildList, BuildObject, BuildMethod, BuildNodes, BuildTable, BuildReturns, Normal, Touched, HasEntries, SoFar, KindDone, Properties;
    ObjectAssembles(f);
    EntryIs(node, f, src, "requires");
    EntryIs(node, f, src, "additionalProperties");
    after := table;
    var names := AttrStrings(node, "requires");
    if names.None? {
      r := Failed("requires is not a list of strings");
      FailBetween(ObjectKind, f, node, after, visited, r);
      return;
    }
    var req, found := RequiredNames(names.value, props);
    if !found {
      r := Failed("cannot find required prop");
      FailBetween(ObjectKind, f, node, after, visited, r);
      return;
    }
    var extra, good, child := BuildAdditional(node, "additionalProperties", f, src);
    SoFarKeys(ObjectKind, f, node, after, visited);
    if !good {
      r := Failed("additionalProperties does not build");
      FailAtEntry(ObjectKind, f, node, after, visited, "additionalProperties", child, r);
      after := after["additionalProperties" := child];
      return;
    }
    r := Built(ObjectSchema(PLAIN, props, req, extra));
    ghost var all := visited;
    if "additionalProperties" in node {
      VisitEntry(ObjectKind, f, node, after, visited, "additionalProperties", child);
      after := after["additionalProperties" := child];
      all := visited + {"additionalProperties"};
    }
    Finish(ObjectKind, f, node, after, all, r);
  }

  method RequiredNames(names: seq<string>, props: map<string, Schema>) returns (req: map<string, bool>, found: bool)
    ensures found <==> forall k | k in names :: k in props
    ensures found ==> req == map k | k in names :: true
  {
    req := map[];
    for i := 0 to |names|
      invariant forall k | k in names[..i] :: k in props
      invariant req == map k | k in names[..i] :: true
    {
      if names[i] !in props {
        return req, false;
      }
      req := req[names[i] := true];
      assert names[..i + 1] == names[..i] + [names[i]];
    }
    assert names[..|names|] == names;
    found := true;
  }

  method BuildMethodSchema(node: map<string, Value>, ghost f: map<string, Value>, ghost src: Value)
    returns (r: Outcome, after: map<string, Value>)
    requires HasEntries(node, f, src)
    ensures KindDone(MethodKind, f, node, r, after)
    ensures r.Built? ==> r.schema != NoSchema && r.schema.mixin == PLAIN
    decreases src, 2, 1
  {
    hide BuildSpec.Build, BuildWith, BuildKind, BuildList, BuildObject, BuildMethod, BuildNodes, BuildTable, BuildReturns, Normal, Touched, HasEntries, SoFar, KindDone, Returns;
    MethodAssembles(f);
    EntryIs(node, f, src, "params");
    NothingVisited(MethodKind, f, node, src);
    if "params" !in node {
      r := Failed("params is not a list of objects");
      FailBetween(MethodKind, f, node, node, {}, r);
      return r, node;
    }
    var params, ok, list := BuildListOfMaps(node["params"], src);
    after := node["params" := list];
    if !ok {
      r := Failed("params is not a list of objects");
      FailAtEntry(MethodKind, f, node, node, {}, "params", list, r);
      return;
    }
    VisitEntry(MethodKind, f, node, node, {}, "params", list);
    r, after := BuildMethodRest(node, f, src, params, after, {} + {"params"});
  }

  /** The rest of `buildMethodSchema`, once the parameters are built. */
  method BuildMethodRest(node: map<string, Value>, ghost f: map<string, Value>, ghost src: Value,
                         params: seq<Schema>, table: map<string, Value>, ghost visited: set<string>)
    returns (r: Outcome, after: map<string, Value>)
    requires HasEntries(node, f, src) && SoFar(MethodKind, f, node, table, visited)
    requires "params" in visited && "params" in f && BuildNodes(f["params"]) == Some(params)
    ensures KindDone(MethodKind, f, node, r, after)
    ensures r.Built? ==> r.schema != NoSchema && r.schema.mixin == PLAIN
    decreases src, 2, 0
  {
    hide BuildSpec.Build, BuildWith, BuildKind, BuildList, BuildObject, BuildMethod, BuildNodes, BuildTable, BuildReturns, Normal, Touched, HasEntries, SoFar, KindDone, Returns;
    MethodAssembles(f);
    EntryIs(node, f, src, "additionalParams");
    after := table;
    ghost var seen := visited;
    var extra, good, child := BuildAdditional(node, "additionalParams", f, src);
    SoFarKeys(MethodKind, f, node, after, seen);
    if !good {
      r := Failed("additionalParams does not build");
      FailAtEntry(MethodKind, f, node, after, seen, "additionalParams", child, r);
      after := after["additionalParams" := child];
      return;
    }
    if "additionalParams" in node {
      VisitEntry(MethodKind, f, node, after, seen, "additionalParams", child);
      after := after["additionalParams" := child];
      seen := seen + {"additionalParams"};
    }
    var result, fine;
    result, fine, after := BuildResultEntry(node, f, src, after, seen);
    if !fine {
      r := Failed("returns does not build");
      return;
    }
    r := Built(MethodSchema(PLAIN, params, result, extra));
    Finish(MethodKind, f, node, after, seen + {"returns"}, r);
  }

  /** The `returns` part of `buildMethodSchema`; a result that is absent is `any`. */
  method BuildResultEntry(node: map<string, Value>, ghost f: map<string, Value>, ghost src: Value,
                          table: map<string, Value>, ghost seen: set<string>)
    returns (result: Schema, ok: bool, after: map<string, Value>)
    requires HasEntries(node, f, src) && SoFar(MethodKind, f, node, table, seen) && "params" in f
    ensures ok ==> Returns(f) == Some(result) && SoFar(MethodKind, f, node, after, seen + {"returns"})
    ensures !ok ==> Returns(f) == None && forall info :: KindDone(MethodKind, f, node, Failed(info), after)
    decreases src, 1
  {
    hide BuildSpec.Build, BuildWith, BuildKind, BuildList, BuildObject, BuildMethod, BuildNodes, BuildTable, BuildReturns, Normal, Touched, HasEntries, SoFar, KindDone;
    MethodAssembles(f);
    EntryIs(node, f, src, "returns");
    SoFarKeys(MethodKind, f, node, table, seen);
    if "returns" !in node {
      SoFarMore(MethodKind, f, node, table, seen, "returns");
      return AnySchema(PLAIN), true, table;
    }
    var child;
    result, ok, child := BuildResult(node["returns"]);
    after := table["returns" := child];
    if ok {
      VisitEntry(MethodKind, f, node, table, seen, "returns", child);
    } else {
      forall info ensures KindDone(MethodKind, f, node, Failed(info), after) {
        FailAtEntry(MethodKind, f, node, table, seen, "returns", child, Failed(info));
      }
    }
  }

  /** A `returns` entry that is present. */
  method BuildResult(v: Value) returns (result: Schema, ok: bool, after: Value)
    ensures ok ==> BuildReturns(v) == Some(result) && after == Normal(ReturnsRole, v)
    ensures !ok ==> BuildReturns(v) == None && Touched(ReturnsRole, v, after)
    decreases v, 5
  {
    var resultNode, good := ConvertTypeMap(v);
    if !good {
      return NoSchema, true, v;
    }
    if "type" !in resultNode {
      resultNode := resultNode["type" := Str("any")];
    }
    var r, node := BuildNodeMap(resultNode, ReturnsRole, v);
    after := if v.Obj? then Obj(node) else v;
    if r.Failed? {
      return NoSchema, false, after;
    }
    return r.schema, true, after;
  }

  /** `convertAttrMapOfMap` on a `properties` entry that is present, and the build of each
      property, each in an arbitrary order. */
  method BuildPropertyTable(v: Value, ghost src: Value) returns (props: map<string, Schema>, ok: bool, after: Value)
    requires v < src
    ensures ok ==> BuildTable(v) == Some(props) && after == Normal(TableRole, v)
    ensures !ok ==> BuildTable(v) == None && Touched(TableRole, v, after)
    decreases src, 1
  {
    props := map[];
    var mm, good := ConvertTypeMap(v);
    if !good {
      return props, true, v;
    }
    if !v.Obj? {
      // a type name: the table has the one property that its synthesised entry spells
      var node, _ := ConvertTypeMap(mm["type"]);
      var r, _ := BuildNodeMap(node, NodeRole, v);
      return map["type" := r.schema], true, v;
    }
    var nodes;
    nodes, ok, after := ConvertTable(v, mm);
    if !ok {
      return;
    }
    props, ok, after := BuildTableNodes(v, nodes, after.fields);
  }

  /** The conversion of every entry of a table; an inserted type entry is not a node. */
  method ConvertTable(v: Value, mm: map<string, Value>)
    returns (nodes: map<string, map<string, Value>>, ok: bool, after: Value)
    requires v.Obj? && Converted(TableRole, v, mm)
    ensures ok ==> Guess(v.fields.Keys).None? && nodes.Keys == v.fields.Keys
    ensures ok ==> forall k | k in nodes :: Convertible(v.fields[k]) && Converted(NodeRole, v.fields[k], nodes[k])
    ensures ok ==> after == Obj(map k | k in v.fields :: Marked(NodeRole, v.fields[k]))
    ensures !ok ==> BuildTable(v) == None && Touched(TableRole, v, after)
  {
    hide BuildSpec.Build, BuildWith, BuildTable, Normal, Touched, Guess, Added, Convertible, Converted, Marked, TableSoFar;
    var f := v.fields;
    TableStart(v, mm);
    nodes := map[];
    var table := mm;
    var todo := mm.Keys;
    while todo != {}
      invariant todo <= mm.Keys && nodes.Keys == mm.Keys - todo && table.Keys == mm.Keys
      invariant TableSoFar(f, mm, nodes, table)
      decreases |todo|
    {
      var name :| name in todo;
      todo := todo - {name};
      var node, good := ConvertTypeMap(mm[name]);
      if !good {
        TableStops(v, mm, nodes, table, name);
        return nodes, false, Obj(table);
      }
      TableStep(f, mm, nodes, table, name, node);
      nodes := nodes[name := node];
      if mm[name].Obj? {
        table := table[name := Obj(node)];
      }
    }
    ok := true;
    after := Obj(table);
    TableConverted(v, mm, nodes, table);
  }

  /** The entries of `mm` in `nodes` are converted, and marked in `table`. */
  ghost predicate TableSoFar(f: map<string, Value>, mm: map<string, Value>, nodes: map<string, map<string, Value>>,
                             table: map<string, Value>)
  {
    && mm == f + Added(TableRole, f.Keys) && table.Keys == mm.Keys && nodes.Keys <= mm.Keys
    && (forall k | k in mm && k !in f :: k !in nodes && table[k] == mm[k])
    && (forall k | k in nodes :: Convertible(mm[k]) && Converted(NodeRole, mm[k], nodes[k]))
    && (forall k | k in f :: table[k] == if k in nodes then Marked(NodeRole, f[k]) else f[k])
  }

  lemma TableStart(v: Value, mm: map<string, Value>)
    requires v.Obj? && Converted(TableRole, v, mm)
    ensures TableSoFar(v.fields, mm, map[], mm)
  {
    hide Guess, Convertible, Marked;
  }

  lemma TableStep(f: map<string, Value>, mm: map<string, Value>, nodes: map<string, map<string, Value>>,
                  table: map<string, Value>, name: string, node: map<string, Value>)
    requires TableSoFar(f, mm, nodes, table) && name in mm && name !in nodes
    requires Convertible(mm[name]) && Converted(NodeRole, mm[name], node)
    ensures TableSoFar(f, mm, nodes[name := node], if mm[name].Obj? then table[name := Obj(node)] else table)
  {
    hide Guess, Added, Convertible, Converted, Marked;
    InsertedTypeIsNoNode(f.Keys);
    assert name in f;
    MarkedIsConverted(f[name], node);
  }

  lemma MarkedIsConverted(v: Value, node: map<string, Value>)
    requires Convertible(v) && Converted(NodeRole, v, node)
    ensures Marked(NodeRole, v) == if v.Obj? then Obj(node) else v
  {
  }

  lemma TableStops(v: Value, mm: map<string, Value>, nodes: map<string, map<string, Value>>, table: map<string, Value>,
                   name: string)
    requires v.Obj? && TableSoFar(v.fields, mm, nodes, table) && name in mm && !Convertible(mm[name])
    ensures BuildTable(v) == None && Touched(TableRole, v, Obj(table))
  {
    hide BuildSpec.Build, BuildTable, Convertible, Converted, Marked, Touched, Guess;
    var f := v.fields;
    InconvertibleDoesNotBuild(mm[name]);
    InsertedTypeIsNoNode(f.Keys);
    forall k | k in f ensures Touched(NodeRole, f[k], table[k]) {
      MarkedIsTouched(NodeRole, f[k]);
      UntouchedIsTouched(NodeRole, f[k]);
    }
    TableFails(v, table, name);
  }

  lemma TableConverted(v: Value, mm: map<string, Value>, nodes: map<string, map<string, Value>>, table: map<string, Value>)
    requires v.Obj? && TableSoFar(v.fields, mm, nodes, table) && nodes.Keys == mm.Keys
    ensures Guess(v.fields.Keys).None? && nodes.Keys == v.fields.Keys
    ensures forall k | k in nodes :: Convertible(v.fields[k]) && Converted(NodeRole, v.fields[k], nodes[k])
    ensures table == map k | k in v.fields :: Marked(NodeRole, v.fields[k])
  {
    hide Convertible, Converted, Marked, Guess;
    InsertedTypeIsNoNode(v.fields.Keys);
  }

  /** The loop of `buildObjectSchema` over the converted properties. */
  method BuildTableNodes(v: Value, nodes: map<string, map<string, Value>>, marked: map<string, Value>)
    returns (props: map<string, Schema>, ok: bool, after: Value)
    requires v.Obj? && Guess(v.fields.Keys).None? && nodes.Keys == v.fields.Keys
    requires forall k | k in nodes :: Convertible(v.fields[k]) && Converted(NodeRole, v.fields[k], nodes[k])
    requires marked == map k | k in v.fields :: Marked(NodeRole, v.fields[k])
    ensures ok ==> BuildTable(v) == Some(props) && after == Normal(TableRole, v)
    ensures !ok ==> BuildTable(v) == None && Touched(TableRole, v, after)
    decreases v, 6
  {
    hide BuildSpec.Build, BuildWith, BuildKind, BuildTable, Normal, Touched, Guess, Added, Marked, Converted, Convertible, TableBuilds;
    var f := v.fields;
    NothingBuilt(f, marked);
    props := map[];
    var table := marked;
    var todo := nodes.Keys;
    while todo != {}
      invariant todo <= f.Keys && table.Keys == f.Keys && props.Keys == f.Keys - todo
      invariant TableBuilds(f, props, table)
      decreases |todo|
    {
      var name :| name in todo;
      todo := todo - {name};
      var r, entry := BuildConverted(nodes[name], f[name]);
      if r.Failed? {
        TableBreaks(v, props, table, name, entry);
        return props, false, Obj(table[name := entry]);
      }
      TableGrows(f, props, table, name, r.schema, entry);
      props := props[name := r.schema];
      table := table[name := entry];
    }
    ok := true;
    after := Obj(table);
    TableBuilt(v, props, table);
  }

  /** The entries in `props` are built, and the others marked. */
  ghost predicate TableBuilds(f: map<string, Value>, props: map<string, Schema>, table: map<string, Value>) {
    && table.Keys == f.Keys && props.Keys <= f.Keys
    && forall k | k in f ::
         if k in props then BuildSpec.Build(f[k]) == Some(props[k]) && table[k] == Normal(NodeRole, f[k])
         else table[k] == Marked(NodeRole, f[k])
  }

  lemma NothingBuilt(f: map<string, Value>, marked: map<string, Value>)
    requires marked == map k | k in f :: Marked(NodeRole, f[k])
    ensures TableBuilds(f, map[], marked)
  {
    hide BuildSpec.Build, Normal, Marked;
  }

  lemma TableBuilt(v: Value, props: map<string, Schema>, table: map<string, Value>)
    requires v.Obj? && Guess(v.fields.Keys).None? && TableBuilds(v.fields, props, table) && props.Keys == v.fields.Keys
    ensures BuildTable(v) == Some(props) && Obj(table) == Normal(TableRole, v)
  {
    hide BuildSpec.Build, BuildTable, Normal, Marked, Guess;
    TableDone(v, props, table);
  }

  lemma TableGrows(f: map<string, Value>, props: map<string, Schema>, table: map<string, Value>, name: string,
                   schema: Schema, entry: Value)
    requires TableBuilds(f, props, table) && name in f
    requires BuildSpec.Build(f[name]) == Some(schema) && entry == Normal(NodeRole, f[name])
    ensures TableBuilds(f, props[name := schema], table[name := entry])
  {
    hide BuildSpec.Build, Normal, Marked;
  }

  lemma TableBreaks(v: Value, props: map<string, Schema>, table: map<string, Value>, name: string, entry: Value)
    requires v.Obj? && Guess(v.fields.Keys).None? && name in v.fields && TableBuilds(v.fields, props, table)
    requires BuildSpec.Build(v.fields[name]) == None && Touched(NodeRole, v.fields[name], entry)
    ensures BuildTable(v) == None && Touched(TableRole, v, Obj(table[name := entry]))
  {
    hide BuildSpec.Build, BuildTable, Touched, Normal, Marked, Guess, Added;
    InsertedTypeIsNoNode(v.fields.Keys);
    var t := table[name := entry];
    forall k | k in v.fields ensures Touched(NodeRole, v.fields[k], t[k]) {
      MarkedIsTouched(NodeRole, v.fields[k]);
      NormalIsTouched(NodeRole, v.fields[k]);
    }
    TableFails(v, t, name);
  }

  /** The build of a node that has been converted, seen as an entry of the tree. */
  method BuildConverted(node: map<string, Value>, v: Value) returns (r: Outcome, after: Value)
    requires Convertible(v) && Converted(NodeRole, v, node)
    ensures Done(NodeRole, v, BuildSpec.Build(v), r, after)
    decreases v, 5
  {
    hide BuildWith, Normal, Touched, Converted;
    var table;
    r, table := BuildNodeMap(node, NodeRole, v);
    NameIsNormal(v);
    after := if v.Obj? then Obj(table) else v;
  }
}
