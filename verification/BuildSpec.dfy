/** What `SchemaBuilder.Build` makes of a tree, and what it does to the tree on the way. */
module BuildSpec {
  import opened Values
  import opened Schemas

  // ---- the schema built -------------------------------------------------------------

  /** The type names that stand for a whole schema node. */
  predicate SimpleType(t: string) {
    t in ["string", "number", "integer", "bool", "null"]
  }

  /** The type guessed for a node that names none. */
  function Guess(keys: set<string>): Option<string> {
    if "type" in keys then None
    else if "params" in keys then Some("method")
    else if "properties" in keys then Some("object")
    else if "anyOf" in keys then Some("anyOf")
    else if "allOf" in keys then Some("allOf")
    else if "not" in keys then Some("not")
    else None
  }

  /** Whether a node stands where a missing type means `any`. */
  datatype Default = NoDefault | DefaultAny

  /** The type entry written into a node that has none. */
  function Inserted(def: Default, keys: set<string>): Option<string> {
    if "type" in keys then None
    else if Guess(keys).Some? then Guess(keys)
    else if def == DefaultAny then Some("any")
    else None
  }

  function TypeOf(def: Default, f: map<string, Value>): Option<Value> {
    if "type" in f then Some(f["type"])
    else
      var t := Inserted(def, f.Keys);
      if t.Some? then Some(Str(t.value)) else None
  }

  /** The names that the switch of `buildNodeMap` knows. */
  datatype Kind =
    | NumberKind | IntegerKind | BoolKind | AnyKind | NullKind | StringKind
    | AnyOfKind | AllOfKind | NotKind | ListKind | ObjectKind | MethodKind

  function KindNamed(t: string): Option<Kind> {
    match t
    case "number" => Some(NumberKind)
    case "integer" => Some(IntegerKind)
    case "bool" => Some(BoolKind)
    case "any" => Some(AnyKind)
    case "null" => Some(NullKind)
    case "string" => Some(StringKind)
    case "anyOf" => Some(AnyOfKind)
    case "allOf" => Some(AllOfKind)
    case "not" => Some(NotKind)
    case "list" => Some(ListKind)
    case "object" => Some(ObjectKind)
    case "method" => Some(MethodKind)
    case _ => None
  }

  /** The kind a node has, if its type is a known name. */
  function KindOf(def: Default, f: map<string, Value>): Option<Kind> {
    var t := TypeOf(def, f);
    if t.Some? && t.value.Str? then KindNamed(t.value.s) else None
  }

  // How a value is read where an attribute is expected.

  function ReadInt(v: Value): Option<Int64> {
    match v
    case Int(i) => Some(i)
    case Number(lit) => LiteralInt64(lit)
    case _ => None
  }

  function ReadFloat(v: Value): Option<real> {
    match v
    case Int(i) => Some(i as real)
    case Float(r) => Some(r)
    case Number(lit) => Some(LiteralFloat64(lit))
    case _ => None
  }

  function ReadBool(v: Value): Option<bool> {
    if v.Bool? then Some(v.b) else None
  }

  function ReadStrings(v: Value): Option<seq<string>> {
    if v.List? && forall i | 0 <= i < |v.items| :: v.items[i].Str? then
      Some(seq(|v.items|, i requires 0 <= i < |v.items| => v.items[i].s))
    else None
  }

  function AttrInt(f: map<string, Value>, key: string): Option<Int64> {
    if key in f then ReadInt(f[key]) else None
  }

  function AttrLength(f: map<string, Value>, key: string): Option<Int64> {
    var n := AttrInt(f, key);
    if n.Some? && n.value >= 0 then n else None
  }

  function AttrFloat(f: map<string, Value>, key: string): Option<real> {
    if key in f then ReadFloat(f[key]) else None
  }

  function AttrBool(f: map<string, Value>, key: string): Option<bool> {
    if key in f then ReadBool(f[key]) else None
  }

  function AttrStrings(f: map<string, Value>, key: string): Option<seq<string>> {
    if key in f then ReadStrings(f[key]) else Some([])
  }

  /** The name and description of a node, which must be strings if present. */
  function MixinOf(f: map<string, Value>): Option<Mixin> {
    if ("name" in f && !f["name"].Str?) || ("description" in f && !f["description"].Str?) then None
    else Some(Mixin(if "name" in f then f["name"].s else "",
                    if "description" in f then f["description"].s else ""))
  }

  function Simple(t: string): Schema
    requires SimpleType(t)
  {
    match t
    case "string" => StringSchema(PLAIN, None, None)
    case "number" => NumberSchema(PLAIN, None, None, None, None)
    case "integer" => IntegerSchema(PLAIN, None, None, None, None)
    case "bool" => BoolSchema(PLAIN)
    case _ => NullSchema(PLAIN)
  }

  function Named(s: Option<Schema>, f: map<string, Value>): Option<Schema>
    requires s.Some? ==> s.value != NoSchema
  {
    var m := MixinOf(f);
    if s.Some? && m.Some? then Some(WithMixin(s.value, m.value)) else None
  }

  /** The schema of a node, if it builds. */
  ghost function Build(v: Value): (r: Option<Schema>)
    ensures r.Some? ==> r.value != NoSchema
    decreases v, 5
  {
    BuildWith(NoDefault, v)
  }

  /** A node that is a table, or a type name; anything else does not build. */
  ghost function BuildWith(def: Default, v: Value): (r: Option<Schema>)
    ensures r.Some? ==> r.value != NoSchema
    decreases v, 4
  {
    match v
    case Str(t) => if SimpleType(t) then Some(Simple(t)) else None
    case Obj(f) =>
      var kind := KindOf(def, f);
      if kind.Some? then Named(BuildKind(kind.value, f, v), f) else None
    case _ => None
  }

  /** The schema of one kind from the entries `f` of the node `v`. */
  ghost function BuildKind(kind: Kind, f: map<string, Value>, v: Value): (r: Option<Schema>)
    requires v == Obj(f)
    ensures r.Some? ==> r.value != NoSchema
    decreases v, 3
  {
    match kind
    case NumberKind =>
      Some(NumberSchema(PLAIN, AttrFloat(f, "minimum"), AttrFloat(f, "maximum"),
                        AttrBool(f, "exclusiveMinimum"), AttrBool(f, "exclusiveMaximum")))
    case IntegerKind =>
      Some(IntegerSchema(PLAIN, AttrInt(f, "minimum"), AttrInt(f, "maximum"),
                         AttrBool(f, "exclusiveMinimum"), AttrBool(f, "exclusiveMaximum")))
    case BoolKind => Some(BoolSchema(PLAIN))
    case AnyKind => Some(AnySchema(PLAIN))
    case NullKind => Some(NullSchema(PLAIN))
    case StringKind => Some(StringSchema(PLAIN, AttrLength(f, "maxLength"), AttrLength(f, "minLength")))
    case AnyOfKind =>
      if "anyOf" in f && BuildNodes(f["anyOf"]).Some? then
        Some(AnyOfSchema(PLAIN, BuildNodes(f["anyOf"]).value))
      else None
    case AllOfKind =>
      if "allOf" in f && BuildNodes(f["allOf"]).Some? then
        Some(AllOfSchema(PLAIN, BuildNodes(f["allOf"]).value))
      else None
    case NotKind =>
      if "not" in f && Build(f["not"]).Some? then Some(NotSchema(PLAIN, Build(f["not"]).value)) else None
    case ListKind => BuildList(f, v)
    case ObjectKind => BuildObject(f, v)
    case MethodKind => BuildMethod(f, v)
  }

  ghost function BuildList(f: map<string, Value>, v: Value): (r: Option<Schema>)
    requires v == Obj(f)
    ensures r.Some? ==> r.value != NoSchema
    decreases v, 2
  {
    if "items" !in f then None
    else if f["items"].List? then
      if BuildNodes(f["items"]).Some? && BuildExtra(f, "additionalItems", v).Some? then
        Some(TupleSchema(PLAIN, BuildNodes(f["items"]).value, BuildExtra(f, "additionalItems", v).value))
      else None
    else if Build(f["items"]).Some? then
      Some(ListSchema(PLAIN, Build(f["items"]).value, AttrLength(f, "minItems"), AttrLength(f, "maxItems")))
    else None
  }

  ghost function BuildObject(f: map<string, Value>, v: Value): (r: Option<Schema>)
    requires v == Obj(f)
    ensures r.Some? ==> r.value != NoSchema
    decreases v, 2
  {
    var props := if "properties" in f then BuildTable(f["properties"]) else Some(map[]);
    var names := AttrStrings(f, "requires");
    var extra := BuildExtra(f, "additionalProperties", v);
    if && props.Some? && names.Some? && extra.Some?
       && forall k | k in names.value :: k in props.value
    then Some(ObjectSchema(PLAIN, props.value, map k | k in names.value :: true, extra.value))
    else None
  }

  ghost function BuildMethod(f: map<string, Value>, v: Value): (r: Option<Schema>)
    requires v == Obj(f)
    ensures r.Some? ==> r.value != NoSchema
    decreases v, 2
  {
    if "params" !in f then None
    else
      var params := BuildNodes(f["params"]);
      var extra := BuildExtra(f, "additionalParams", v);
      var result := if "returns" in f then BuildReturns(f["returns"]) else Some(AnySchema(PLAIN));
      if params.Some? && extra.Some? && result.Some? then
        Some(MethodSchema(PLAIN, params.value, result.value, extra.value))
      else None
  }

  /** An optional child: absent, or a node that builds. */
  ghost function BuildExtra(f: map<string, Value>, key: string, v: Value): Option<Schema>
    requires v == Obj(f)
    decreases v, 1
  {
    if key in f then Build(f[key]) else Some(NoSchema)
  }

  /** A `returns` entry that is neither a table nor a type name leaves the result unset. */
  ghost function BuildReturns(v: Value): Option<Schema>
    decreases v, 5
  {
    if v.Obj? || (v.Str? && SimpleType(v.s)) then BuildWith(DefaultAny, v) else Some(NoSchema)
  }

  /** A list all of whose members build. */
  ghost function BuildNodes(v: Value): (r: Option<seq<Schema>>)
    ensures r.Some? ==> v.List? && |r.value| == |v.items|
    decreases v, 0
  {
    if v.List? && forall i | 0 <= i < |v.items| :: Build(v.items[i]).Some? then
      Some(seq(|v.items|, i requires 0 <= i < |v.items| => Build(v.items[i]).value))
    else None
  }

  /** A `properties` entry.  A type name is read as the table `{"type": name}`, anything
      else that is not a table as an empty one.  A table that looks like a node has a type
      name inserted that is not a node, and does not build. */
  ghost function BuildTable(v: Value): Option<map<string, Schema>>
    decreases v, 0
  {
    match v
    case Obj(f) =>
      if Guess(f.Keys).None? && forall k | k in f :: Build(f[k]).Some? then
        Some(map k | k in f :: Build(f[k]).value)
      else None
    case Str(t) => if SimpleType(t) then Some(map["type" := Simple(t)]) else Some(map[])
    case _ => Some(map[])
  }

  // ---- the composite kinds, part by part --------------------------------------------

  ghost function AssembledTuple(children: Option<seq<Schema>>, extra: Option<Schema>): Option<Schema> {
    if children.Some? && extra.Some? then Some(TupleSchema(PLAIN, children.value, extra.value)) else None
  }

  ghost function AssembledList(item: Option<Schema>, min: Option<Int64>, max: Option<Int64>): Option<Schema> {
    if item.Some? then Some(ListSchema(PLAIN, item.value, min, max)) else None
  }

  ghost function AssembledObject(props: Option<map<string, Schema>>, names: Option<seq<string>>, extra: Option<Schema>)
    : Option<Schema>
  {
    if props.Some? && names.Some? && extra.Some? && (forall k | k in names.value :: k in props.value)
    then Some(ObjectSchema(PLAIN, props.value, map k | k in names.value :: true, extra.value))
    else None
  }

  ghost function AssembledMethod(params: Option<seq<Schema>>, result: Option<Schema>, extra: Option<Schema>): Option<Schema> {
    if params.Some? && result.Some? && extra.Some?
    then Some(MethodSchema(PLAIN, params.value, result.value, extra.value))
    else None
  }

  ghost function Properties(f: map<string, Value>): Option<map<string, Schema>> {
    if "properties" in f then BuildTable(f["properties"]) else Some(map[])
  }

  ghost function Returns(f: map<string, Value>): Option<Schema> {
    if "returns" in f then BuildReturns(f["returns"]) else Some(AnySchema(PLAIN))
  }

  lemma KindsUnfold(f: map<string, Value>)
    ensures BuildKind(ListKind, f, Obj(f)) == BuildList(f, Obj(f))
    ensures BuildKind(ObjectKind, f, Obj(f)) == BuildObject(f, Obj(f))
    ensures BuildKind(MethodKind, f, Obj(f)) == BuildMethod(f, Obj(f))
  {
  }

  lemma ListAssembles(f: map<string, Value>)
    ensures BuildKind(ListKind, f, Obj(f)) ==
      if "items" !in f then None
      else if f["items"].List? then
        AssembledTuple(BuildNodes(f["items"]), BuildExtra(f, "additionalItems", Obj(f)))
      else
        AssembledList(Build(f["items"]), AttrLength(f, "minItems"), AttrLength(f, "maxItems"))
  {
    KindsUnfold(f);
  }

  lemma ObjectAssembles(f: map<string, Value>)
    ensures BuildKind(ObjectKind, f, Obj(f)) ==
      AssembledObject(Properties(f), AttrStrings(f, "requires"), BuildExtra(f, "additionalProperties", Obj(f)))
  {
    KindsUnfold(f);
  }

  lemma MethodAssembles(f: map<string, Value>)
    ensures BuildKind(MethodKind, f, Obj(f)) ==
      if "params" !in f then None
      else AssembledMethod(BuildNodes(f["params"]), Returns(f), BuildExtra(f, "additionalParams", Obj(f)))
  {
    KindsUnfold(f);
  }

  lemma ChoicesAssemble(f: map<string, Value>)
    ensures BuildKind(AnyOfKind, f, Obj(f)) ==
      if "anyOf" in f && BuildNodes(f["anyOf"]).Some? then Some(AnyOfSchema(PLAIN, BuildNodes(f["anyOf"]).value)) else None
    ensures BuildKind(AllOfKind, f, Obj(f)) ==
      if "allOf" in f && BuildNodes(f["allOf"]).Some? then Some(AllOfSchema(PLAIN, BuildNodes(f["allOf"]).value)) else None
    ensures BuildKind(NotKind, f, Obj(f)) ==
      if "not" in f && Build(f["not"]).Some? then Some(NotSchema(PLAIN, Build(f["not"]).value)) else None
  {
  }

  // ---- every schema built is safe to use -----------------------------------------------

  ghost predicate Safe(s: Schema) {
    Whole(s) && Tidy(s)
  }

  /** Every schema that `Build` returns can be scanned, printed and compared without meeting
      a nil child, declares what it requires, and has no negative length bound. */
  lemma {:induction false} BuiltIsSafe(v: Value)
    requires Build(v).Some?
    ensures Whole(Build(v).value) && Tidy(Build(v).value)
  {
    NodeIsSafe(NoDefault, v);
  }

  lemma {:induction false} NodeIsSafe(def: Default, v: Value)
    requires BuildWith(def, v).Some?
    ensures Safe(BuildWith(def, v).value)
    decreases v, 1
  {
    if v.Obj? {
      var kind := KindOf(def, v.fields).value;
      forall k | k in v.fields ensures PartsSafe(v.fields[k]) {
        PartIsSafe(v.fields[k], v);
      }
      KindIsSafe(kind, v.fields, v);
      RenamedIsSafe(BuildKind(kind, v.fields, v).value, MixinOf(v.fields).value);
    }
  }

  lemma {:induction false} RenamedIsSafe(s: Schema, m: Mixin)
    requires s != NoSchema && Safe(s)
    ensures Safe(WithMixin(s, m))
  {
  }

  /** What a node needs to know of one of its entries. */
  ghost predicate PartsSafe(c: Value) {
    && (Build(c).Some? ==> Safe(Build(c).value))
    && (BuildReturns(c).Some? && BuildReturns(c).value != NoSchema ==> Safe(BuildReturns(c).value))
    && (BuildNodes(c).Some? ==> forall i | 0 <= i < |c.items| :: Safe(BuildNodes(c).value[i]))
    && (BuildTable(c).Some? ==> forall k | k in BuildTable(c).value :: Safe(BuildTable(c).value[k]))
  }

  lemma {:induction false} PartIsSafe(c: Value, v: Value)
    requires c < v
    ensures PartsSafe(c)
    decreases v, 0
  {
    if Build(c).Some? { NodeIsSafe(NoDefault, c); }
    if BuildWith(DefaultAny, c).Some? { NodeIsSafe(DefaultAny, c); }
    if BuildNodes(c).Some? {
      forall i | 0 <= i < |c.items| ensures Safe(BuildNodes(c).value[i]) {
        assert Build(c.items[i]).Some?;
        NodeIsSafe(NoDefault, c.items[i]);
      }
    }
    if c.Obj? && BuildTable(c).Some? {
      forall k | k in c.fields ensures Safe(BuildTable(c).value[k]) {
        assert Build(c.fields[k]).Some?;
        NodeIsSafe(NoDefault, c.fields[k]);
      }
    }
  }

  lemma {:induction false} KindIsSafe(kind: Kind, f: map<string, Value>, v: Value)
    requires v == Obj(f) && BuildKind(kind, f, v).Some?
    requires forall k | k in f :: PartsSafe(f[k])
    ensures Safe(BuildKind(kind, f, v).value)
  {
    hide BuildNodes, Build, BuildReturns, BuildTable, BuildMethod, BuildObject, BuildList;
    match kind {
      case AnyOfKind => assert PartsSafe(f["anyOf"]);
      case AllOfKind => assert PartsSafe(f["allOf"]);
      case NotKind => assert PartsSafe(f["not"]);
      case ListKind => ListIsSafe(f, v);
      case ObjectKind => ObjectIsSafe(f, v);
      case MethodKind => MethodIsSafe(f, v);
      case _ =>
    }
  }

  lemma ObjectIsSafe(f: map<string, Value>, v: Value)
    requires v == Obj(f) && BuildObject(f, v).Some?
    requires forall k | k in f :: PartsSafe(f[k])
    ensures Safe(BuildObject(f, v).value)
  {
    assert "properties" in f ==> PartsSafe(f["properties"]);
    assert "additionalProperties" in f ==> PartsSafe(f["additionalProperties"]);
    var s := BuildObject(f, v).value;
    forall k | k in s.properties ensures Safe(s.properties[k]) {
      assert "properties" in f && s.properties == BuildTable(f["properties"]).value;
    }
  }

  lemma MethodIsSafe(f: map<string, Value>, v: Value)
    requires v == Obj(f) && BuildMethod(f, v).Some?
    requires forall k | k in f :: PartsSafe(f[k])
    ensures Safe(BuildMethod(f, v).value)
  {
    assert PartsSafe(f["params"]);
    assert "returns" in f ==> PartsSafe(f["returns"]);
    assert "additionalParams" in f ==> PartsSafe(f["additionalParams"]);
  }

  lemma ListIsSafe(f: map<string, Value>, v: Value)
    requires v == Obj(f) && BuildList(f, v).Some?
    requires forall k | k in f :: PartsSafe(f[k])
    ensures Safe(BuildList(f, v).value)
  {
    assert PartsSafe(f["items"]);
    if f["items"].List? {
      assert "additionalItems" in f ==> PartsSafe(f["additionalItems"]);
    }
  }
}
