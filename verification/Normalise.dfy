/** `Build` writes a `type` entry into every node that it finds without one.  This is the
    tree it leaves behind, and why building that tree again changes nothing. */
module Normalise {
  import opened Values
  import opened Schemas
  import opened BuildSpec

  /** What the builder takes a piece of data for. */
  datatype Role =
    | NodeRole      // a schema
    | ReturnsRole   // the schema of a result, `any` by default
    | TableRole     // a `properties` table
    | ItemsRole     // an `items` entry: a schema, or a list of schemas
    | NodesRole     // a list of schemas
    | PlainRole     // anything else: it is read and left alone

  function DefaultOf(role: Role): Default {
    if role == ReturnsRole then DefaultAny else NoDefault
  }

  predicate ReadsTables(role: Role) {
    role != NodesRole && role != PlainRole
  }

  predicate ReadsLists(role: Role) {
    role == NodesRole || role == ItemsRole
  }

  /** The role of one entry of a table. */
  function EntryRole(role: Role, f: map<string, Value>, key: string): Role
    requires key in f
  {
    if role == TableRole then NodeRole
    else
      match KindOf(DefaultOf(role), f)
      case None => PlainRole
      case Some(kind) => KindEntryRole(kind, f, key)
  }

  function KindEntryRole(kind: Kind, f: map<string, Value>, key: string): Role {
    match kind
    case ListKind =>
      if key == "items" then ItemsRole
      else if key == "additionalItems" && "items" in f && f["items"].List? then NodeRole
      else PlainRole
    case AnyOfKind => if key == "anyOf" then NodesRole else PlainRole
    case AllOfKind => if key == "allOf" then NodesRole else PlainRole
    case NotKind => if key == "not" then NodeRole else PlainRole
    case ObjectKind =>
      if key == "properties" then TableRole
      else if key == "additionalProperties" then NodeRole
      else PlainRole
    case MethodKind =>
      if key == "params" then NodesRole
      else if key == "additionalParams" then NodeRole
      else if key == "returns" then ReturnsRole
      else PlainRole
    case _ => PlainRole
  }

  /** The `type` entry that the builder adds to a table, if any. */
  function Added(role: Role, keys: set<string>): (r: map<string, Value>)
    ensures r.Keys <= {"type"} - keys
  {
    var t := Inserted(DefaultOf(role), keys);
    if t.Some? then map["type" := Str(t.value)] else map[]
  }

  /** The tree as a successful build leaves it. */
  function Normal(role: Role, v: Value): Value
    decreases v
  {
    match v
    case Obj(f) =>
      if ReadsTables(role) then
        Obj((map k | k in f :: Normal(EntryRole(role, f, k), f[k])) + Added(role, f.Keys))
      else v
    case List(vs) =>
      if ReadsLists(role) then List(seq(|vs|, i requires 0 <= i < |vs| => Normal(NodeRole, vs[i]))) else v
    case _ => v
  }

  /** A tree as a build may leave it, finished or not: at each table the builder has either
      not been, or has added the type and gone on to some of the entries. */
  ghost predicate Touched(role: Role, v: Value, w: Value)
    decreases v
  {
    || w == v
    || match v
       case Obj(f) =>
         && ReadsTables(role) && w.Obj?
         && var added := Added(role, f.Keys);
            && w.fields.Keys == f.Keys + added.Keys
            && ("type" in added ==> w.fields["type"] == added["type"])
            && forall k | k in f :: Touched(EntryRole(role, f, k), f[k], w.fields[k])
       case List(vs) =>
         && ReadsLists(role) && w.List? && |w.items| == |vs|
         && forall i | 0 <= i < |vs| :: Touched(NodeRole, vs[i], w.items[i])
       case _ => false
  }

  lemma {:induction false} NormalIsTouched(role: Role, v: Value)
    ensures Touched(role, v, Normal(role, v))
    decreases v
  {
    match v {
      case Obj(f) =>
        forall k | k in f ensures Touched(EntryRole(role, f, k), f[k], Normal(EntryRole(role, f, k), f[k])) {
          NormalIsTouched(EntryRole(role, f, k), f[k]);
        }
      case List(vs) =>
        forall i | 0 <= i < |vs| ensures Touched(NodeRole, vs[i], Normal(NodeRole, vs[i])) {
          NormalIsTouched(NodeRole, vs[i]);
        }
      case _ =>
    }
  }

  /** `w` is `v` with some `type` entries added to tables that had none, and no other change. */
  ghost predicate OnlyTypesAdded(v: Value, w: Value) {
    match v
    case Obj(f) =>
      && w.Obj? && f.Keys <= w.fields.Keys <= f.Keys + {"type"}
      && ("type" in w.fields && "type" !in f ==> w.fields["type"].Str?)
      && forall k | k in f :: OnlyTypesAdded(f[k], w.fields[k])
    case List(vs) =>
      w.List? && |w.items| == |vs| && forall i | 0 <= i < |vs| :: OnlyTypesAdded(vs[i], w.items[i])
    case _ => w == v
  }

  lemma {:induction false} UnchangedAddsNothing(v: Value)
    ensures OnlyTypesAdded(v, v)
  {
    match v {
      case Obj(f) =>
        forall k | k in f ensures OnlyTypesAdded(f[k], f[k]) { UnchangedAddsNothing(f[k]); }
      case List(vs) =>
        forall i | 0 <= i < |vs| ensures OnlyTypesAdded(vs[i], vs[i]) { UnchangedAddsNothing(vs[i]); }
      case _ =>
    }
  }

  /** A build, finished or not, changes its input only by adding `type` entries. */
  lemma {:induction false} TouchedAddsOnlyTypes(role: Role, v: Value, w: Value)
    requires Touched(role, v, w)
    ensures OnlyTypesAdded(v, w)
    decreases v
  {
    if w == v {
      UnchangedAddsNothing(v);
    } else {
      match v {
        case Obj(f) =>
          forall k | k in f ensures OnlyTypesAdded(f[k], w.fields[k]) {
            TouchedAddsOnlyTypes(EntryRole(role, f, k), f[k], w.fields[k]);
          }
        case List(vs) =>
          forall i | 0 <= i < |vs| ensures OnlyTypesAdded(vs[i], w.items[i]) {
            TouchedAddsOnlyTypes(NodeRole, vs[i], w.items[i]);
          }
      }
    }
  }

  /** Read in its role, `w` gives what `v` gives. */
  ghost predicate Alike(role: Role, v: Value, w: Value) {
    match role
    case NodeRole => Build(w) == Build(v)
    case ReturnsRole => BuildReturns(w) == BuildReturns(v)
    case TableRole => BuildTable(w) == BuildTable(v)
    case ItemsRole => (w.List? <==> v.List?) && if v.List? then BuildNodes(w) == BuildNodes(v) else Build(w) == Build(v)
    case NodesRole => BuildNodes(w) == BuildNodes(v)
    case PlainRole => SameAttribute(v, w)
  }

  /** Every reader of attributes finds the same in `w` as in `v`. */
  ghost predicate SameAttribute(v: Value, w: Value) {
    && (v.Str? || w.Str? ==> w == v)
    && ReadInt(w) == ReadInt(v) && ReadFloat(w) == ReadFloat(v)
    && ReadBool(w) == ReadBool(v) && ReadStrings(w) == ReadStrings(v)
  }

  /** Building a tree that an earlier build has been through, to the end or part of the way,
      gives what building the tree itself gives. */
  lemma {:induction false} BuildAgain(v: Value, w: Value)
    requires Touched(NodeRole, v, w)
    ensures Build(w) == Build(v)
  {
    TouchedIsAlike(NodeRole, v, w);
  }

  lemma {:induction false} TouchedIsAlike(role: Role, v: Value, w: Value)
    requires Touched(role, v, w)
    ensures Alike(role, v, w)
    decreases v
  {
    if w != v {
      match v {
        case Obj(f) =>
          var g := w.fields;
          forall k | k in f ensures Alike(EntryRole(role, f, k), f[k], g[k]) {
            TouchedIsAlike(EntryRole(role, f, k), f[k], g[k]);
          }
          if role == TableRole {
            TableAlike(f, g);
          } else {
            NodeAlike(role, f, g);
          }
        case List(vs) =>
          forall i | 0 <= i < |vs| ensures Build(w.items[i]) == Build(vs[i]) {
            TouchedIsAlike(NodeRole, vs[i], w.items[i]);
          }
          ListAlike(vs, w.items);
      }
    }
  }

  lemma ListAlike(vs: seq<Value>, ws: seq<Value>)
    requires |vs| == |ws| && forall i | 0 <= i < |vs| :: Build(ws[i]) == Build(vs[i])
    ensures BuildNodes(List(ws)) == BuildNodes(List(vs))
  {
    if BuildNodes(List(vs)).Some? {
      assert forall i | 0 <= i < |ws| :: Build(ws[i]).Some?;
      assert BuildNodes(List(ws)).value == BuildNodes(List(vs)).value;
    } else {
      var i :| 0 <= i < |vs| && Build(vs[i]).None?;
      assert Build(ws[i]).None?;
    }
  }

  lemma TableTypeIsNoNode(keys: set<string>)
    ensures "type" in Added(TableRole, keys) <==> Guess(keys).Some?
    ensures "type" in Added(TableRole, keys) ==> Build(Added(TableRole, keys)["type"]).None?
  {
  }

  lemma TypedTableFails(f: map<string, Value>, g: map<string, Value>)
    requires Guess(f.Keys).Some? && "type" in g && Build(g["type"]).None?
    ensures BuildTable(Obj(f)) == BuildTable(Obj(g)) == None
  {
    hide Build, Guess;
  }

  lemma TableAlike(f: map<string, Value>, g: map<string, Value>)
    requires g.Keys == f.Keys + Added(TableRole, f.Keys).Keys
    requires "type" in Added(TableRole, f.Keys) ==> g["type"] == Added(TableRole, f.Keys)["type"]
    requires forall k | k in f :: Build(g[k]) == Build(f[k])
    ensures BuildTable(Obj(g)) == BuildTable(Obj(f))
  {
    hide Build, Guess;
    TableTypeIsNoNode(f.Keys);
    if Guess(f.Keys).Some? {
      TypedTableFails(f, g);
    } else {
      assert g.Keys == f.Keys;
      if forall k | k in f :: Build(f[k]).Some? {
        assert forall k | k in g :: Build(g[k]).Some?;
        assert BuildTable(Obj(g)).value == BuildTable(Obj(f)).value;
      } else {
        var k :| k in f && Build(f[k]).None?;
        assert Build(g[k]).None?;
      }
    }
  }

  /** The tables `f` and `g` agree as nodes in `role`. */
  ghost predicate Corresponds(role: Role, f: map<string, Value>, g: map<string, Value>) {
    && g.Keys == f.Keys + Added(role, f.Keys).Keys
    && ("type" in Added(role, f.Keys) ==> g["type"] == Added(role, f.Keys)["type"])
    && forall k | k in f :: Alike(EntryRole(role, f, k), f[k], g[k])
  }

  lemma NodeAlike(role: Role, f: map<string, Value>, g: map<string, Value>)
    requires role == NodeRole || role == ItemsRole || role == ReturnsRole
    requires Corresponds(role, f, g)
    ensures Alike(role, Obj(f), Obj(g))
  {
    var def := DefaultOf(role);
    TypeAlike(role, f, g);
    var kind := KindOf(def, f);
    if kind.Some? {
      MixinAlike(role, kind.value, f, g);
      forall k | k != "type" && k in f ensures Alike(KindEntryRole(kind.value, f, k), f[k], g[k]) {
        assert EntryRole(role, f, k) == KindEntryRole(kind.value, f, k);
      }
      KindAlike(kind.value, f, g);
    }
    assert BuildWith(def, Obj(g)) == BuildWith(def, Obj(f));
  }

  lemma TypeAlike(role: Role, f: map<string, Value>, g: map<string, Value>)
    requires role == NodeRole || role == ItemsRole || role == ReturnsRole
    requires Corresponds(role, f, g)
    ensures KindOf(DefaultOf(role), g) == KindOf(DefaultOf(role), f)
  {
    if "type" in f {
      assert EntryRole(role, f, "type") == PlainRole;
    }
  }

  lemma MixinAlike(role: Role, kind: Kind, f: map<string, Value>, g: map<string, Value>)
    requires role == NodeRole || role == ItemsRole || role == ReturnsRole
    requires Corresponds(role, f, g) && KindOf(DefaultOf(role), f) == Some(kind)
    ensures MixinOf(g) == MixinOf(f)
  {
    hide KindOf, BuildWith, Build, BuildReturns, BuildNodes, BuildTable;
    assert "name" in f ==> EntryRole(role, f, "name") == PlainRole;
    assert "description" in f ==> EntryRole(role, f, "description") == PlainRole;
  }

  /** `f` and `g` agree on the entries that a node of this kind reads. */
  ghost predicate EntriesAlike(kind: Kind, f: map<string, Value>, g: map<string, Value>) {
    forall k | k != "type" ::
      (k in g <==> k in f) && (k in f ==> Alike(KindEntryRole(kind, f, k), f[k], g[k]))
  }

  lemma EntryAlike(kind: Kind, f: map<string, Value>, g: map<string, Value>, k: string)
    requires EntriesAlike(kind, f, g) && k != "type"
    ensures (k in g <==> k in f) && (k in f ==> Alike(KindEntryRole(kind, f, k), f[k], g[k]))
  {
  }

  lemma KindAlike(kind: Kind, f: map<string, Value>, g: map<string, Value>)
    requires EntriesAlike(kind, f, g)
    ensures BuildKind(kind, g, Obj(g)) == BuildKind(kind, f, Obj(f))
  {
    match kind {
      case NumberKind => BoundsAlike(kind, f, g);
      case IntegerKind => BoundsAlike(kind, f, g);
      case StringKind =>
        EntryAlike(kind, f, g, "maxLength");
        EntryAlike(kind, f, g, "minLength");
      case AnyOfKind => EntryAlike(kind, f, g, "anyOf");
      case AllOfKind => EntryAlike(kind, f, g, "allOf");
      case NotKind => EntryAlike(kind, f, g, "not");
      case ListKind => ListKindAlike(f, g);
      case ObjectKind => ObjectKindAlike(f, g);
      case MethodKind => MethodKindAlike(f, g);
      case _ =>
    }
  }

  lemma BoundsAlike(kind: Kind, f: map<string, Value>, g: map<string, Value>)
    requires EntriesAlike(kind, f, g) && (kind == NumberKind || kind == IntegerKind)
    ensures BuildKind(kind, g, Obj(g)) == BuildKind(kind, f, Obj(f))
  {
    EntryAlike(kind, f, g, "minimum");
    EntryAlike(kind, f, g, "maximum");
    EntryAlike(kind, f, g, "exclusiveMinimum");
    EntryAlike(kind, f, g, "exclusiveMaximum");
  }

  lemma ListKindAlike(f: map<string, Value>, g: map<string, Value>)
    requires EntriesAlike(ListKind, f, g)
    ensures BuildKind(ListKind, g, Obj(g)) == BuildKind(ListKind, f, Obj(f))
  {
    EntryAlike(ListKind, f, g, "items");
    if "items" in f {
      if f["items"].List? {
        EntryAlike(ListKind, f, g, "additionalItems");
      } else {
        EntryAlike(ListKind, f, g, "minItems");
        EntryAlike(ListKind, f, g, "maxItems");
      }
    }
    assert BuildList(g, Obj(g)) == BuildList(f, Obj(f));
  }

  lemma ObjectKindAlike(f: map<string, Value>, g: map<string, Value>)
    requires EntriesAlike(ObjectKind, f, g)
    ensures BuildKind(ObjectKind, g, Obj(g)) == BuildKind(ObjectKind, f, Obj(f))
  {
    hide EntriesAlike, BuildKind, BuildTable, Build, AssembledObject;
    EntryAlike(ObjectKind, f, g, "properties");
    EntryAlike(ObjectKind, f, g, "requires");
    EntryAlike(ObjectKind, f, g, "additionalProperties");
    ObjectAssembles(f);
    ObjectAssembles(g);
  }

  lemma MethodKindAlike(f: map<string, Value>, g: map<string, Value>)
    requires EntriesAlike(MethodKind, f, g)
    ensures BuildKind(MethodKind, g, Obj(g)) == BuildKind(MethodKind, f, Obj(f))
  {
    hide EntriesAlike, BuildKind, BuildNodes, Build, BuildReturns, AssembledMethod;
    EntryAlike(MethodKind, f, g, "params");
    EntryAlike(MethodKind, f, g, "returns");
    EntryAlike(MethodKind, f, g, "additionalParams");
    MethodAssembles(f);
    MethodAssembles(g);
  }

  /** An `items` entry that is not a list is handled as any other node. */
  lemma ItemsAsNode(v: Value, w: Value)
    requires !v.List?
    ensures Normal(ItemsRole, v) == Normal(NodeRole, v)
    ensures Touched(ItemsRole, v, w) <==> Touched(NodeRole, v, w)
  {
    if v.Obj? {
      forall k | k in v.fields ensures EntryRole(ItemsRole, v.fields, k) == EntryRole(NodeRole, v.fields, k) {
      }
      assert Normal(ItemsRole, v).fields == Normal(NodeRole, v).fields;
    }
  }
}
