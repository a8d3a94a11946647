/** Schemas built from a Go tree, and from the JSON text that `json.Marshal` writes for it.  A
    float that is whole is written without a point, and is then read where an integer is
    expected, which the float was not.  This is when the two schemas differ. */
module Marshalled {
  import opened Values
  import opened Schemas
  import opened BuildSpec
  import opened Normalise

  /** A tree of tables, lists and scalars, as YAML gives. */
  predicate Plain(v: Value) {
    match v
    case Maps(_) => false
    case Strs(_) => false
    case List(vs) => forall i | 0 <= i < |vs| :: Plain(vs[i])
    case Obj(f) => forall k | k in f :: Plain(f[k])
    case _ => true
  }

  /** The integer that a float turns into. */
  function Whole64(v: Value): Option<Int64> {
    if v.Float? then LiteralInt64(FloatText(v.r)) else None
  }

  predicate TurnsInt(f: map<string, Value>, key: string) {
    key in f && Whole64(f[key]).Some?
  }

  predicate TurnsLength(f: map<string, Value>, key: string) {
    key in f && Whole64(f[key]).Some? && Whole64(f[key]).value >= 0
  }

  /** A node of this kind reads an integer that is a whole float in `f`. */
  predicate ReadsWhole(kind: Kind, f: map<string, Value>) {
    match kind
    case IntegerKind => TurnsInt(f, "minimum") || TurnsInt(f, "maximum")
    case StringKind => TurnsLength(f, "maxLength") || TurnsLength(f, "minLength")
    case ListKind => "items" in f && !f["items"].List? && (TurnsLength(f, "minItems") || TurnsLength(f, "maxItems"))
    case _ => false
  }

  /** Somewhere in `v`, read in its role, an integer that the builder looks for is a whole
      float. */
  predicate Turns(role: Role, v: Value)
    decreases v
  {
    match v
    case List(vs) => ReadsLists(role) && exists i | 0 <= i < |vs| :: Turns(NodeRole, vs[i])
    case Obj(f) =>
      if role == TableRole then exists k | k in f :: Turns(NodeRole, f[k])
      else
        && ReadsTables(role)
        && var kind := KindOf(DefaultOf(role), f);
           kind.Some? && (ReadsWhole(kind.value, f) || exists k | k in f && k != "type" :: Turns(KindEntryRole(kind.value, f, k), f[k]))
    case _ => false
  }

  /** Both build or neither, and if both, they differ exactly if `turns`. */
  ghost predicate Tracks<T>(a: Option<T>, b: Option<T>, turns: bool) {
    (a.Some? <==> b.Some?) && (a.Some? ==> (a == b <==> !turns))
  }

  ghost predicate Follows(role: Role, v: Value, w: Value) {
    match role
    case NodeRole => Tracks(Build(v), Build(w), Turns(NodeRole, v))
    case ReturnsRole => Tracks(BuildReturns(v), BuildReturns(w), Turns(ReturnsRole, v))
    case TableRole => Tracks(BuildTable(v), BuildTable(w), Turns(TableRole, v))
    case ItemsRole =>
      if v.List? then Tracks(BuildNodes(v), BuildNodes(w), Turns(ItemsRole, v))
      else Tracks(Build(v), Build(w), Turns(ItemsRole, v))
    case NodesRole => Tracks(BuildNodes(v), BuildNodes(w), Turns(NodesRole, v))
    case PlainRole => true
  }

  /** The readers of attributes, integers apart, find in `w` what they find in `v`; integers
      are found besides where a float has turned into one. */
  ghost predicate ReadsAlike(v: Value, w: Value) {
    && (v.Str? || w.Str? ==> w == v) && (v.List? <==> w.List?) && (v.Obj? <==> w.Obj?)
    && (v.Obj? && w.Obj? ==> w.fields.Keys == v.fields.Keys)
    && ReadInt(w) == (if v.Float? then Whole64(v) else ReadInt(v))
    && ReadFloat(w) == ReadFloat(v) && ReadBool(w) == ReadBool(v) && ReadStrings(w) == ReadStrings(v)
  }

  lemma RereadReads(v: Value)
    requires Plain(v)
    ensures ReadsAlike(v, Reread(v))
  {
    if v.List? {
      assert forall i | 0 <= i < |v.items| :: Reread(v).items[i] == Reread(v.items[i]);
      assert forall i | 0 <= i < |v.items| :: Plain(v.items[i]) && (Reread(v.items[i]).Str? <==> v.items[i].Str?);
      if ReadStrings(v).Some? {
        assert ReadStrings(Reread(v)).value == ReadStrings(v).value;
      } else {
        var i :| 0 <= i < |v.items| && !v.items[i].Str?;
        assert !Reread(v).items[i].Str?;
      }
    }
  }

  // ---- lists and tables ------------------------------------------------------------------------

  lemma NodesTrack(role: Role, vs: seq<Value>, ws: seq<Value>)
    requires ReadsLists(role) && |ws| == |vs|
    requires forall i | 0 <= i < |vs| :: Tracks(Build(vs[i]), Build(ws[i]), Turns(NodeRole, vs[i]))
    ensures Tracks(BuildNodes(List(vs)), BuildNodes(List(ws)), Turns(role, List(vs)))
  {
    hide Build;
    var a, b := BuildNodes(List(vs)), BuildNodes(List(ws));
    if a.Some? {
      assert forall i | 0 <= i < |ws| :: Build(ws[i]).Some?;
      if i :| 0 <= i < |vs| && Turns(NodeRole, vs[i]) {
        assert a.value[i] != b.value[i];
      } else {
        assert a.value == b.value;
      }
    } else {
      var i :| 0 <= i < |vs| && Build(vs[i]).None?;
      assert Build(ws[i]).None?;
    }
  }

  lemma TableTracks(f: map<string, Value>, g: map<string, Value>)
    requires g.Keys == f.Keys && forall k | k in f :: Tracks(Build(f[k]), Build(g[k]), Turns(NodeRole, f[k]))
    ensures Tracks(BuildTable(Obj(f)), BuildTable(Obj(g)), Turns(TableRole, Obj(f)))
  {
    hide Build, Guess;
    var a, b := BuildTable(Obj(f)), BuildTable(Obj(g));
    if a.Some? {
      assert forall k | k in g :: Build(g[k]).Some?;
      if k :| k in f && Turns(NodeRole, f[k]) {
        assert a.value[k] != b.value[k];
      } else {
        assert a.value == b.value;
      }
    } else if Guess(f.Keys).None? {
      var k :| k in f && Build(f[k]).None?;
      assert Build(g[k]).None?;
    }
  }

  // ---- kinds -----------------------------------------------------------------------------------

  /** `g` is `f` reread, entry by entry, and its entries follow in their roles. */
  ghost predicate EntriesFollow(kind: Kind, f: map<string, Value>, g: map<string, Value>) {
    && g.Keys == f.Keys
    && forall k | k in f :: ReadsAlike(f[k], g[k]) && (k != "type" ==> Follows(KindEntryRole(kind, f, k), f[k], g[k]))
  }

  lemma EntryFollows(kind: Kind, f: map<string, Value>, g: map<string, Value>, k: string)
    requires EntriesFollow(kind, f, g) && k != "type"
    ensures k in g <==> k in f
    ensures k in f ==> Follows(KindEntryRole(kind, f, k), f[k], g[k]) && (f[k].List? <==> g[k].List?)
    ensures AttrFloat(g, k) == AttrFloat(f, k) && AttrBool(g, k) == AttrBool(f, k) && AttrStrings(g, k) == AttrStrings(f, k)
    ensures Tracks(Some(AttrInt(f, k)), Some(AttrInt(g, k)), TurnsInt(f, k))
    ensures Tracks(Some(AttrLength(f, k)), Some(AttrLength(g, k)), TurnsLength(f, k))
  {
    if k in f {
      assert ReadsAlike(f[k], g[k]);
    }
  }

  /** A part of `f` in its role turns. */
  predicate PartTurns(kind: Kind, f: map<string, Value>, k: string) {
    k in f && Turns(KindEntryRole(kind, f, k), f[k])
  }

  /** Only the entries with a role can turn. */
  predicate KindTurns(kind: Kind, f: map<string, Value>) {
    ReadsWhole(kind, f) || exists k | k in f && k != "type" :: Turns(KindEntryRole(kind, f, k), f[k])
  }

  lemma PlainNeverTurns(v: Value)
    ensures !Turns(PlainRole, v)
  {
  }

  lemma PartsThatTurn(kind: Kind, f: map<string, Value>, a: string, b: string, c: string)
    requires a != "type" && b != "type" && c != "type"
    requires forall k | k in f && k != a && k != b && k != c :: KindEntryRole(kind, f, k) == PlainRole
    ensures KindTurns(kind, f) <==> ReadsWhole(kind, f) || PartTurns(kind, f, a) || PartTurns(kind, f, b) || PartTurns(kind, f, c)
  {
    hide Turns, ReadsWhole, KindEntryRole;
    forall k | k in f && k != a && k != b && k != c ensures !Turns(KindEntryRole(kind, f, k), f[k]) {
      PlainNeverTurns(f[k]);
    }
    if KindTurns(kind, f) && !ReadsWhole(kind, f) {
      var k :| k in f && k != "type" && Turns(KindEntryRole(kind, f, k), f[k]);
      assert k == a || k == b || k == c;
    }
  }

  ghost predicate KindTracks(kind: Kind, f: map<string, Value>, g: map<string, Value>) {
    Tracks(BuildKind(kind, f, Obj(f)), BuildKind(kind, g, Obj(g)), KindTurns(kind, f))
  }

  lemma BoundsTrack(kind: Kind, f: map<string, Value>, g: map<string, Value>)
    requires EntriesFollow(kind, f, g) && (kind == NumberKind || kind == IntegerKind)
    ensures KindTracks(kind, f, g)
  {
    PartsThatTurn(kind, f, "", "", "");
    PlainParts(kind, f);
    hide EntriesFollow, Follows, KindTurns, PartTurns, AttrInt, AttrFloat, AttrBool, TurnsInt;
    EntryFollows(kind, f, g, "minimum");
    EntryFollows(kind, f, g, "maximum");
    EntryFollows(kind, f, g, "exclusiveMinimum");
    EntryFollows(kind, f, g, "exclusiveMaximum");
  }

  lemma PlainParts(kind: Kind, f: map<string, Value>)
    requires kind in {NumberKind, IntegerKind, StringKind, BoolKind, AnyKind, NullKind}
    ensures !PartTurns(kind, f, "")
  {
    if "" in f {
      PlainNeverTurns(f[""]);
    }
  }

  lemma LeafTracks(kind: Kind, f: map<string, Value>, g: map<string, Value>)
    requires EntriesFollow(kind, f, g) && kind in {StringKind, BoolKind, AnyKind, NullKind}
    ensures KindTracks(kind, f, g)
  {
    PartsThatTurn(kind, f, "", "", "");
    PlainParts(kind, f);
    hide EntriesFollow, Follows, KindTurns, PartTurns, AttrLength, TurnsLength;
    EntryFollows(kind, f, g, "minLength");
    EntryFollows(kind, f, g, "maxLength");
  }

  lemma ChoicesTrack(kind: Kind, f: map<string, Value>, g: map<string, Value>)
    requires EntriesFollow(kind, f, g) && kind in {AnyOfKind, AllOfKind, NotKind}
    ensures KindTracks(kind, f, g)
  {
    var key := if kind == AnyOfKind then "anyOf" else if kind == AllOfKind then "allOf" else "not";
    PartsThatTurn(kind, f, key, key, key);
    hide EntriesFollow, KindTurns, BuildKind, BuildNodes, Build, BuildTable, BuildReturns, Turns, AttrInt, AttrLength, AttrFloat,
         AttrBool, AttrStrings, TurnsInt, TurnsLength;
    EntryFollows(kind, f, g, key);
    ChoicesAssemble(f);
    ChoicesAssemble(g);
  }

  /** An optional child. */
  lemma ExtraTracks(kind: Kind, f: map<string, Value>, g: map<string, Value>, key: string)
    requires EntriesFollow(kind, f, g) && key != "type" && (key in f ==> KindEntryRole(kind, f, key) == NodeRole)
    ensures Tracks(BuildExtra(f, key, Obj(f)), BuildExtra(g, key, Obj(g)), PartTurns(kind, f, key))
  {
    hide EntriesFollow, Build, Turns, KindEntryRole, AttrInt, AttrLength, AttrFloat, AttrBool, AttrStrings, TurnsInt, TurnsLength;
    EntryFollows(kind, f, g, key);
  }

  lemma ListTracks(f: map<string, Value>, g: map<string, Value>)
    requires EntriesFollow(ListKind, f, g)
    ensures KindTracks(ListKind, f, g)
  {
    hide EntriesFollow, KindTurns, KindTracks, BuildKind, BuildNodes, Build, BuildExtra, Turns, AttrInt, AttrLength, AttrFloat,
         AttrBool, AttrStrings, TurnsInt, TurnsLength, Follows;
    if "items" in f && f["items"].List? {
      TupleTracks(f, g);
    } else {
      PlainListTracks(f, g);
    }
  }

  lemma TupleTracks(f: map<string, Value>, g: map<string, Value>)
    requires EntriesFollow(ListKind, f, g) && "items" in f && f["items"].List?
    ensures KindTracks(ListKind, f, g)
  {
    PartsThatTurn(ListKind, f, "items", "items", "additionalItems");
    hide EntriesFollow, KindTurns, BuildKind, BuildNodes, Build, BuildExtra, Turns, AttrInt, AttrLength, AttrFloat, AttrBool,
         AttrStrings, TurnsInt, TurnsLength;
    EntryFollows(ListKind, f, g, "items");
    ExtraTracks(ListKind, f, g, "additionalItems");
    ListAssembles(f);
    ListAssembles(g);
  }

  lemma PlainListTracks(f: map<string, Value>, g: map<string, Value>)
    requires EntriesFollow(ListKind, f, g) && !("items" in f && f["items"].List?)
    ensures KindTracks(ListKind, f, g)
  {
    PartsThatTurn(ListKind, f, "items", "items", "items");
    hide EntriesFollow, KindTurns, BuildKind, BuildNodes, Build, BuildExtra, Turns, AttrInt, AttrLength, AttrFloat, AttrBool,
         AttrStrings, TurnsInt, TurnsLength;
    EntryFollows(ListKind, f, g, "items");
    EntryFollows(ListKind, f, g, "minItems");
    EntryFollows(ListKind, f, g, "maxItems");
    ListAssembles(f);
    ListAssembles(g);
  }

  /** Properties, a `properties` entry that is missing included. */
  lemma PropertiesTrack(f: map<string, Value>, g: map<string, Value>)
    requires EntriesFollow(ObjectKind, f, g)
    ensures Tracks(Properties(f), Properties(g), PartTurns(ObjectKind, f, "properties"))
    ensures Properties(f).Some? && Properties(g).Some? ==> Properties(f).value.Keys == Properties(g).value.Keys
  {
    if "properties" in f {
      assert ReadsAlike(f["properties"], g["properties"]);
      TableKeys(f["properties"], g["properties"]);
    }
    hide EntriesFollow, BuildTable, Turns, AttrInt, AttrLength, AttrFloat, AttrBool, AttrStrings, TurnsInt, TurnsLength;
    EntryFollows(ObjectKind, f, g, "properties");
  }

  /** A table that builds has the properties that it names. */
  lemma TableKeys(v: Value, w: Value)
    requires v.Obj? <==> w.Obj?
    requires v.Obj? ==> v.fields.Keys == w.fields.Keys
    requires v.Str? || w.Str? ==> v == w
    ensures BuildTable(v).Some? && BuildTable(w).Some? ==> BuildTable(v).value.Keys == BuildTable(w).value.Keys
  {
    hide Build;
  }

  lemma ObjectTracks(f: map<string, Value>, g: map<string, Value>)
    requires EntriesFollow(ObjectKind, f, g)
    ensures KindTracks(ObjectKind, f, g)
  {
    PartsThatTurn(ObjectKind, f, "properties", "additionalProperties", "additionalProperties");
    hide EntriesFollow, KindTurns, BuildKind, Properties, BuildExtra, PartTurns, AttrInt, AttrLength, AttrFloat, AttrBool,
         AttrStrings, TurnsInt, TurnsLength, Follows;
    PropertiesTrack(f, g);
    EntryFollows(ObjectKind, f, g, "requires");
    ExtraTracks(ObjectKind, f, g, "additionalProperties");
    ObjectAssembles(f);
    ObjectAssembles(g);
  }

  lemma ReturnsTrack(f: map<string, Value>, g: map<string, Value>)
    requires EntriesFollow(MethodKind, f, g)
    ensures Tracks(Returns(f), Returns(g), PartTurns(MethodKind, f, "returns"))
  {
    hide EntriesFollow, BuildReturns, Turns, AttrInt, AttrLength, AttrFloat, AttrBool, AttrStrings, TurnsInt, TurnsLength;
    EntryFollows(MethodKind, f, g, "returns");
  }

  lemma ParamsTrack(f: map<string, Value>, g: map<string, Value>)
    requires EntriesFollow(MethodKind, f, g)
    ensures "params" in g <==> "params" in f
    ensures "params" in f ==> Tracks(BuildNodes(f["params"]), BuildNodes(g["params"]), PartTurns(MethodKind, f, "params"))
  {
    hide EntriesFollow, BuildNodes, Turns, AttrInt, AttrLength, AttrFloat, AttrBool, AttrStrings, TurnsInt, TurnsLength;
    EntryFollows(MethodKind, f, g, "params");
  }

  lemma ExtraOfMethod(f: map<string, Value>)
    ensures KindEntryRole(MethodKind, f, "additionalParams") == NodeRole
  {
  }

  lemma MethodTracks(f: map<string, Value>, g: map<string, Value>)
    requires EntriesFollow(MethodKind, f, g)
    ensures KindTracks(MethodKind, f, g)
  {
    PartsThatTurn(MethodKind, f, "params", "returns", "additionalParams");
    hide EntriesFollow, KindTurns, BuildKind, BuildExtra, BuildNodes, BuildReturns, Turns, AttrInt, AttrLength, AttrFloat, AttrBool,
         AttrStrings, TurnsInt, TurnsLength;
    hide Returns, PartTurns, KindEntryRole;
    ParamsTrack(f, g);
    ReturnsTrack(f, g);
    ExtraOfMethod(f);
    ExtraTracks(MethodKind, f, g, "additionalParams");
    MethodAssembles(f);
    MethodAssembles(g);
  }

  lemma EveryKindTracks(kind: Kind, f: map<string, Value>, g: map<string, Value>)
    requires EntriesFollow(kind, f, g)
    ensures KindTracks(kind, f, g)
  {
    hide EntriesFollow, KindTracks;
    match kind {
      case NumberKind => BoundsTrack(kind, f, g);
      case IntegerKind => BoundsTrack(kind, f, g);
      case AnyOfKind => ChoicesTrack(kind, f, g);
      case AllOfKind => ChoicesTrack(kind, f, g);
      case NotKind => ChoicesTrack(kind, f, g);
      case ListKind => ListTracks(f, g);
      case ObjectKind => ObjectTracks(f, g);
      case MethodKind => MethodTracks(f, g);
      case _ => LeafTracks(kind, f, g);
    }
  }

  // ---- nodes -------------------------------------------------------------------------------------

  lemma KindIsUnnamed(kind: Kind, f: map<string, Value>)
    ensures BuildKind(kind, f, Obj(f)).Some? ==> BuildKind(kind, f, Obj(f)).value.mixin == PLAIN
  {
    hide Build, BuildNodes, BuildTable, BuildReturns, BuildExtra;
  }

  /** Naming tells unnamed schemas apart. */
  lemma NamesTellApart(a: Schema, b: Schema, m: Mixin)
    requires a != NoSchema && b != NoSchema && a.mixin == b.mixin
    ensures WithMixin(a, m) == WithMixin(b, m) <==> a == b
  {
    if WithMixin(a, m) == WithMixin(b, m) {
      NamedBack(a, m);
      NamedBack(b, m);
    }
  }

  lemma NamedBack(a: Schema, m: Mixin)
    requires a != NoSchema
    ensures WithMixin(WithMixin(a, m), a.mixin) == a
  {
  }

  /** The type and the name of a node are reread as they are. */
  lemma HeadersAlike(def: Default, f: map<string, Value>, g: map<string, Value>)
    requires g.Keys == f.Keys && forall k | k in f :: ReadsAlike(f[k], g[k])
    ensures KindOf(def, g) == KindOf(def, f) && MixinOf(g) == MixinOf(f)
  {
    hide KindNamed, Guess, ReadInt, ReadFloat, ReadBool, ReadStrings, Whole64;
    assert "type" in f ==> ReadsAlike(f["type"], g["type"]);
    assert "name" in f ==> ReadsAlike(f["name"], g["name"]);
    assert "description" in f ==> ReadsAlike(f["description"], g["description"]);
  }

  lemma NodeTracks(def: Default, f: map<string, Value>, g: map<string, Value>)
    requires g.Keys == f.Keys && forall k | k in f :: ReadsAlike(f[k], g[k])
    requires var kind := KindOf(def, f); kind.Some? ==> EntriesFollow(kind.value, f, g)
    ensures var kind := KindOf(def, f);
      Tracks(BuildWith(def, Obj(f)), BuildWith(def, Obj(g)), kind.Some? && KindTurns(kind.value, f))
  {
    hide KindOf, MixinOf, BuildKind, KindTurns, EntriesFollow, ReadsAlike, WithMixin;
    HeadersAlike(def, f, g);
    var kind := KindOf(def, f);
    if kind.Some? {
      EveryKindTracks(kind.value, f, g);
      KindIsUnnamed(kind.value, f);
      KindIsUnnamed(kind.value, g);
      var a, b := BuildKind(kind.value, f, Obj(f)), BuildKind(kind.value, g, Obj(g));
      if a.Some? && MixinOf(f).Some? {
        NamesTellApart(a.value, b.value, MixinOf(f).value);
      }
    }
  }

  lemma {:induction false} RereadFollows(role: Role, v: Value)
    requires Plain(v)
    ensures Follows(role, v, Reread(v))
    decreases v
  {
    match v {
      case Obj(f) =>
        var g := Reread(v).fields;
        forall k | k in f ensures ReadsAlike(f[k], g[k]) {
          RereadReads(f[k]);
        }
        forall r: Role, k | k in f ensures Follows(r, f[k], g[k]) {
          RereadFollows(r, f[k]);
        }
        TableFollows(role, f, g);
      case List(vs) =>
        var ws := Reread(v).items;
        forall i | 0 <= i < |vs| ensures Tracks(Build(vs[i]), Build(ws[i]), Turns(NodeRole, vs[i])) {
          RereadFollows(NodeRole, vs[i]);
        }
        SequenceFollows(role, vs, ws);
      case _ => ScalarFollows(role, v);
    }
  }

  lemma TableFollows(role: Role, f: map<string, Value>, g: map<string, Value>)
    requires g.Keys == f.Keys && forall k | k in f :: ReadsAlike(f[k], g[k])
    requires forall r: Role, k | k in f :: Follows(r, f[k], g[k])
    ensures Follows(role, Obj(f), Obj(g))
  {
    hide ReadsAlike, KindOf;
    if role == TableRole {
      forall k | k in f ensures Tracks(Build(f[k]), Build(g[k]), Turns(NodeRole, f[k])) {
        assert Follows(NodeRole, f[k], g[k]);
      }
      TableTracks(f, g);
    } else if ReadsTables(role) {
      hide Follows;
      NodeTracks(DefaultOf(role), f, g);
      NodeTurns(role, f);
      hide Turns;
      NodeFollows(role, f, g);
    } else {
      NoNode(role, f, g);
    }
  }

  lemma NodeTurns(role: Role, f: map<string, Value>)
    requires role == NodeRole || role == ItemsRole || role == ReturnsRole
    ensures var kind := KindOf(DefaultOf(role), f);
      Turns(role, Obj(f)) <==> kind.Some? && KindTurns(kind.value, f)
  {
    hide KindOf, ReadsWhole, KindEntryRole;
  }

  lemma NodeFollows(role: Role, f: map<string, Value>, g: map<string, Value>)
    requires role == NodeRole || role == ItemsRole || role == ReturnsRole
    requires Tracks(BuildWith(DefaultOf(role), Obj(f)), BuildWith(DefaultOf(role), Obj(g)), Turns(role, Obj(f)))
    ensures Follows(role, Obj(f), Obj(g))
  {
    hide Turns, BuildWith;
  }

  lemma NoNode(role: Role, f: map<string, Value>, g: map<string, Value>)
    requires role == NodesRole || role == PlainRole
    ensures Follows(role, Obj(f), Obj(g))
  {
  }

  lemma SequenceFollows(role: Role, vs: seq<Value>, ws: seq<Value>)
    requires |ws| == |vs|
    requires forall i | 0 <= i < |vs| :: Tracks(Build(vs[i]), Build(ws[i]), Turns(NodeRole, vs[i]))
    ensures Follows(role, List(vs), List(ws))
  {
    if ReadsLists(role) {
      NodesTrack(role, vs, ws);
    }
  }

  lemma ScalarFollows(role: Role, v: Value)
    requires Plain(v) && !v.Obj? && !v.List?
    ensures Follows(role, v, Reread(v))
  {
  }

  /** The schema of the marshalled tree: it builds exactly when the tree does, and is then the
      same schema exactly unless a whole float stands where an integer is read. */
  lemma {:induction false} MarshalledBuildsAlike(v: Value)
    ensures Plain(v) ==> (Build(Reread(v)).Some? <==> Build(v).Some?)
    ensures Plain(v) ==> (Build(Reread(v)) == Build(v) <==> Build(v).None? || !Turns(NodeRole, v))
  {
    if Plain(v) {
      RereadFollows(NodeRole, v);
    }
  }
}
