/** Printing a schema and building the printed text. */
module RoundTrip {
  import opened Values
  import opened Schemas
  import opened Printer
  import opened BuildSpec

  /** What a schema needs for its print to build: no printed property table is mistaken for
      a node, and every required name is declared.  Tuple extras are not printed. */
  ghost predicate Printable(s: Schema) {
    match s
    case AnyOfSchema(_, cs) => forall i | 0 <= i < |cs| :: Printable(cs[i])
    case AllOfSchema(_, cs) => forall i | 0 <= i < |cs| :: Printable(cs[i])
    case NotSchema(_, c) => Printable(c)
    case ListSchema(_, item, _, _) => Printable(item)
    case TupleSchema(_, cs, _) => forall i | 0 <= i < |cs| :: Printable(cs[i])
    case ObjectSchema(_, props, req, extra) =>
      && Guess(props.Keys).None?
      && req.Keys <= props.Keys
      && (forall k | k in props :: Printable(props[k]))
      && Printable(extra)
    case MethodSchema(_, ps, res, extra) =>
      && (forall i | 0 <= i < |ps| :: Printable(ps[i]))
      && Printable(res) && Printable(extra)
    case _ => true
  }

  ghost function Rebuilt(s: Schema): Option<Schema> {
    if Printable(s) then Some(Erase(s)) else None
  }

  /** The rebuilt schema before it is given its name and description. */
  ghost function Unnamed(s: Schema): Option<Schema>
    requires s != NoSchema
  {
    if Printable(s) then Some(WithMixin(Erase(s), PLAIN)) else None
  }

  /** The text of a printed schema builds exactly when the schema is printable, and then it
      builds the erased schema, whatever the order of the printed `requires` lists. */
  lemma {:induction false} PrintedTextBuilds(s: Schema, j: Value)
    requires Whole(s) && PrintsAs(s, j)
    ensures Build(Reread(j)) == if Printable(s) then Some(Erase(s)) else None
  {
    NodeBuilds(s, j);
  }

  lemma {:induction false} NodeBuilds(s: Schema, j: Value)
    requires Whole(s) && PrintsAs(s, j)
    ensures Build(Reread(j)) == Rebuilt(s)
    decreases s, 3
  {
    RereadFields(j.fields);
    var g := Reread(j).fields;
    HeaderBuilds(s, j.fields, g);
    BodyBuilds(s, j.fields, g);
  }

  function KindOfSchema(s: Schema): Kind
    requires s != NoSchema
  {
    match s
    case AnySchema(_) => AnyKind
    case NullSchema(_) => NullKind
    case BoolSchema(_) => BoolKind
    case NumberSchema(_, _, _, _, _) => NumberKind
    case IntegerSchema(_, _, _, _, _) => IntegerKind
    case StringSchema(_, _, _) => StringKind
    case AnyOfSchema(_, _) => AnyOfKind
    case AllOfSchema(_, _) => AllOfKind
    case NotSchema(_, _) => NotKind
    case ListSchema(_, _, _, _) => ListKind
    case TupleSchema(_, _, _) => ListKind
    case ObjectSchema(_, _, _, _) => ObjectKind
    case MethodSchema(_, _, _, _) => MethodKind
  }

  lemma TypeNameKind(s: Schema)
    requires s != NoSchema
    ensures KindNamed(TypeName(s)) == Some(KindOfSchema(s))
  {
  }

  /** The printed header selects the kind of the node and names it. */
  lemma HeaderBuilds(s: Schema, f: map<string, Value>, g: map<string, Value>)
    requires s != NoSchema && HasHeader(f, TypeName(s), s.mixin) && Rereads(f, g)
    ensures
      var k := BuildKind(KindOfSchema(s), g, Obj(g));
      Build(Obj(g)) == if k.Some? then Some(WithMixin(k.value, s.mixin)) else None
  {
    assert g["type"] == Str(TypeName(s));
    TypeNameKind(s);
    assert "name" in f ==> g["name"] == f["name"];
    assert "description" in f ==> g["description"] == f["description"];
    assert MixinOf(g) == Some(s.mixin);
  }

  lemma {:induction false} BodyBuilds(s: Schema, f: map<string, Value>, g: map<string, Value>)
    requires Whole(s) && PrintsBody(s, f) && Rereads(f, g)
    ensures BuildKind(KindOfSchema(s), g, Obj(g)) == Unnamed(s)
    decreases s, 2
  {
    match s {
      case AnySchema(_) => PrintedLeafBuilds(s, f, g);
      case NullSchema(_) => PrintedLeafBuilds(s, f, g);
      case BoolSchema(_) => PrintedLeafBuilds(s, f, g);
      case StringSchema(_, _, _) => PrintedStringBuilds(s, f, g);
      case NumberSchema(_, _, _, _, _) => PrintedNumberBuilds(s, f, g);
      case IntegerSchema(_, _, _, _, _) => PrintedIntegerBuilds(s, f, g);
      case AnyOfSchema(_, _) => PrintedChoicesBuild(s, f, g);
      case AllOfSchema(_, _) => PrintedChoicesBuild(s, f, g);
      case NotSchema(_, _) => PrintedNotBuilds(s, f, g);
      case ListSchema(_, _, _, _) => PrintedArrayBuilds(s, f, g);
      case TupleSchema(_, _, _) => PrintedTupleBuilds(s, f, g);
      case ObjectSchema(_, _, _, _) => PrintedObjectBuilds(s, f, g);
      case MethodSchema(_, _, _, _) => PrintedMethodBuilds(s, f, g);
    }
  }

  lemma PrintedLeafBuilds(s: Schema, f: map<string, Value>, g: map<string, Value>)
    requires s.AnySchema? || s.NullSchema? || s.BoolSchema?
    requires PrintsBody(s, f) && Rereads(f, g)
    ensures BuildKind(KindOfSchema(s), g, Obj(g)) == Unnamed(s)
  {
  }

  lemma PrintedStringBuilds(s: Schema, f: map<string, Value>, g: map<string, Value>)
    requires s.StringSchema? && PrintsBody(s, f) && Rereads(f, g)
    ensures BuildKind(KindOfSchema(s), g, Obj(g)) == Unnamed(s)
  {
    assert "maxLength" !in Body(f) && "minLength" !in Body(f);
  }

  lemma {:induction false} PrintedChoicesBuild(s: Schema, f: map<string, Value>, g: map<string, Value>)
    requires s.AnyOfSchema? || s.AllOfSchema?
    requires Whole(s) && PrintsBody(s, f) && Rereads(f, g)
    ensures BuildKind(KindOfSchema(s), g, Obj(g)) == Unnamed(s)
    decreases s, 1
  {
    hide BuildKind, BuildNodes, Build, Reread, Erase, Printable;
    if s.AnyOfSchema? {
      PrintedListBuilds(s.choices, f["anyOf"], s);
    } else {
      PrintedListBuilds(s.choices, f["allOf"], s);
    }
    ChoicesFromParts(s, g);
  }

  lemma ChoicesFromParts(s: Schema, g: map<string, Value>)
    requires s.AnyOfSchema? || s.AllOfSchema?
    requires var key := if s.AnyOfSchema? then "anyOf" else "allOf";
      key in g && BuildNodes(g[key]) == RebuiltAll(s.choices)
    ensures BuildKind(KindOfSchema(s), g, Obj(g)) == Unnamed(s)
  {
    hide BuildKind, BuildNodes, Build;
    ChoicesAssemble(g);
    if RebuiltAll(s.choices).Some? {
      assert Erase(s).choices == RebuiltAll(s.choices).value;
    }
  }

  lemma {:induction false} PrintedNotBuilds(s: Schema, f: map<string, Value>, g: map<string, Value>)
    requires s.NotSchema? && Whole(s) && PrintsBody(s, f) && Rereads(f, g)
    ensures BuildKind(KindOfSchema(s), g, Obj(g)) == Unnamed(s)
    decreases s, 1
  {
    NodeBuilds(s.child, f["not"]);
    assert Build(g["not"]) == Rebuilt(s.child);
  }

  lemma PrintedNumberBuilds(s: Schema, f: map<string, Value>, g: map<string, Value>)
    requires s.NumberSchema? && PrintsBody(s, f) && Rereads(f, g)
    ensures BuildKind(KindOfSchema(s), g, Obj(g)) == Unnamed(s)
  {
    assert AttrFloat(g, "maximum") == s.fMaximum;
    assert AttrFloat(g, "minimum") == s.fMinimum;
  }

  lemma PrintedIntegerBuilds(s: Schema, f: map<string, Value>, g: map<string, Value>)
    requires s.IntegerSchema? && PrintsBody(s, f) && Rereads(f, g)
    ensures BuildKind(KindOfSchema(s), g, Obj(g)) == Unnamed(s)
  {
    assert AttrInt(g, "maximum") == s.iMaximum;
    assert AttrInt(g, "minimum") == s.iMinimum;
  }

  lemma {:induction false} PrintedArrayBuilds(s: Schema, f: map<string, Value>, g: map<string, Value>)
    requires s.ListSchema? && Whole(s) && PrintsBody(s, f) && Rereads(f, g)
    ensures BuildKind(KindOfSchema(s), g, Obj(g)) == Unnamed(s)
    decreases s, 1
  {
    NodeBuilds(s.item, f["items"]);
    assert "minItems" !in Body(f) && "maxItems" !in Body(f);
    ListFromParts(s, g);
  }

  lemma ListFromParts(s: Schema, g: map<string, Value>)
    requires s.ListSchema? && "items" in g && g["items"].Obj? && Build(g["items"]) == Rebuilt(s.item)
    requires "minItems" !in g && "maxItems" !in g
    ensures BuildKind(KindOfSchema(s), g, Obj(g)) == Unnamed(s)
  {
    hide Build, BuildWith, BuildKind, BuildList, BuildNodes, BuildTable, BuildReturns;
    ListAssembles(g);
  }

  lemma {:induction false} PrintedTupleBuilds(s: Schema, f: map<string, Value>, g: map<string, Value>)
    requires s.TupleSchema? && Whole(s) && PrintsBody(s, f) && Rereads(f, g)
    ensures BuildKind(KindOfSchema(s), g, Obj(g)) == Unnamed(s)
    decreases s, 1
  {
    PrintedListBuilds(s.children, f["items"], s);
    assert "additionalItems" !in Body(f);
    TupleFromParts(s, g);
  }

  lemma TupleFromParts(s: Schema, g: map<string, Value>)
    requires s.TupleSchema? && "items" in g && g["items"].List? && BuildNodes(g["items"]) == RebuiltAll(s.children)
    requires "additionalItems" !in g
    ensures BuildKind(KindOfSchema(s), g, Obj(g)) == Unnamed(s)
  {
    hide Build, BuildWith, BuildKind, BuildList, BuildNodes, BuildTable, BuildReturns;
    ListAssembles(g);
    if RebuiltAll(s.children).Some? {
      assert Erase(s).children == RebuiltAll(s.children).value;
    }
  }

  /** Printing and building a list of schemas. */
  ghost function RebuiltAll(cs: seq<Schema>): Option<seq<Schema>> {
    if forall i | 0 <= i < |cs| :: Printable(cs[i])
    then Some(seq(|cs|, i requires 0 <= i < |cs| => Erase(cs[i])))
    else None
  }

  lemma {:induction false} PrintedListBuilds(cs: seq<Schema>, arr: Value, parent: Schema)
    requires PrintsAllAs(cs, arr)
    requires forall i | 0 <= i < |cs| :: cs[i] < parent && Whole(cs[i])
    ensures BuildNodes(Reread(arr)) == RebuiltAll(cs)
    decreases parent, 0
  {
    var vs := Reread(arr).items;
    assert |vs| == |cs|;
    forall i | 0 <= i < |cs| ensures Build(vs[i]) == Rebuilt(cs[i]) {
      assert vs[i] == Reread(arr.maps[i]);
      NodeBuilds(cs[i], arr.maps[i]);
    }
    ListOfNodesBuilds(cs, vs);
  }

  lemma ListOfNodesBuilds(cs: seq<Schema>, vs: seq<Value>)
    requires |vs| == |cs| && forall i | 0 <= i < |cs| :: Build(vs[i]) == Rebuilt(cs[i])
    ensures BuildNodes(List(vs)) == RebuiltAll(cs)
  {
    assert (forall i | 0 <= i < |vs| :: Build(vs[i]).Some?) <==> (forall i | 0 <= i < |cs| :: Printable(cs[i]));
    if forall i | 0 <= i < |cs| :: Printable(cs[i]) {
      assert BuildNodes(List(vs)).value == RebuiltAll(cs).value;
    }
  }

  ghost function RebuiltTable(props: map<string, Schema>): Option<map<string, Schema>> {
    if Guess(props.Keys).None? && forall k | k in props :: Printable(props[k])
    then Some(map k | k in props :: Erase(props[k]))
    else None
  }

  lemma {:induction false} PrintedTableBuilds(s: Schema, table: Value)
    requires s.ObjectSchema? && Whole(s) && PrintsTable(s, table)
    ensures BuildTable(Reread(table)) == RebuiltTable(s.properties)
    decreases s, 0
  {
    var props := s.properties;
    RereadFields(table.fields);
    var g := Reread(table).fields;
    forall k | k in props ensures Build(g[k]) == Rebuilt(props[k]) {
      NodeBuilds(props[k], table.fields[k]);
    }
    TableOfNodesBuilds(props, g);
  }

  lemma TableOfNodesBuilds(props: map<string, Schema>, g: map<string, Value>)
    requires g.Keys == props.Keys && forall k | k in props :: Build(g[k]) == Rebuilt(props[k])
    ensures BuildTable(Obj(g)) == RebuiltTable(props)
  {
    hide Build, Guess, Erase, Printable;
    if k :| k in props && !Printable(props[k]) {
      assert Build(g[k]).None?;
    } else {
      forall k | k in g ensures Build(g[k]) == Some(Erase(props[k])) {
        assert Build(g[k]) == Rebuilt(props[k]);
      }
      assert (map k | k in g :: Build(g[k]).value) == map k | k in props :: Erase(props[k]);
    }
  }

  lemma {:induction false} PrintedObjectBuilds(s: Schema, f: map<string, Value>, g: map<string, Value>)
    requires s.ObjectSchema? && Whole(s) && PrintsBody(s, f) && Rereads(f, g)
    ensures BuildKind(KindOfSchema(s), g, Obj(g)) == Unnamed(s)
    decreases s, 1
  {
    var names := PrintedNamesBuild(s, f, g);
    PrintedTableBuilds(s, f["properties"]);
    BodyKey(f, "additionalProperties");
    PrintedExtraBuilds(s.additionalProperties, "additionalProperties", f, g, s);
    ObjectFromParts(s, g, names);
  }

  lemma ObjectFromParts(s: Schema, g: map<string, Value>, names: seq<string>)
    requires s.ObjectSchema?
    requires "properties" in g && BuildTable(g["properties"]) == RebuiltTable(s.properties)
    requires AttrStrings(g, "requires") == Some(names)
    requires (map k | k in names :: true) == (map k | k in s.required :: true)
    requires BuildExtra(g, "additionalProperties", Obj(g)) == Rebuilt(s.additionalProperties)
    ensures BuildKind(KindOfSchema(s), g, Obj(g)) == Unnamed(s)
  {
    hide Build, BuildWith, BuildKind, BuildList, BuildNodes, BuildTable, BuildReturns, BuildExtra, Printable, Erase, Rebuilt, RebuiltAll, RebuiltTable, Unnamed;
    ObjectAssembles(g);
    ObjectUnnamed(s, names);
  }

  lemma BodyKey(f: map<string, Value>, key: string)
    requires key !in {"type", "name", "description"}
    ensures key in f <==> key in Body(f)
  {
  }

  lemma ObjectUnnamed(s: Schema, names: seq<string>)
    requires s.ObjectSchema?
    requires (map k | k in names :: true) == (map k | k in s.required :: true)
    ensures Unnamed(s) ==
      AssembledObject(RebuiltTable(s.properties), Some(names), Rebuilt(s.additionalProperties))
  {
    hide Build, BuildWith;
    var req: map<string, bool> := map k | k in names :: true;
    assert req.Keys == s.required.Keys;
    assert s.required.Keys <= s.properties.Keys <==> forall k | k in names :: k in s.properties;
    var e := Erase(s);
    assert WithMixin(e, PLAIN) == ObjectSchema(PLAIN, e.properties, e.required, e.additionalProperties);
    assert e.required == req;
    if RebuiltTable(s.properties).Some? {
      assert e.properties == RebuiltTable(s.properties).value;
    }
  }

  lemma PrintedNamesBuild(s: Schema, f: map<string, Value>, g: map<string, Value>) returns (names: seq<string>)
    requires s.ObjectSchema? && "requires" in f && f["requires"].Strs? && Lists(f["requires"].strs, s.required)
    requires Rereads(f, g)
    ensures AttrStrings(g, "requires") == Some(names)
    ensures (map k | k in names :: true) == (map k | k in s.required :: true)
  {
    names := f["requires"].strs;
    var vs := seq(|names|, i requires 0 <= i < |names| => Str(names[i]));
    assert g["requires"] == List(vs);
    assert AttrStrings(g, "requires").Some? && AttrStrings(g, "requires").value == names;
  }

  lemma {:induction false} PrintedExtraBuilds(extra: Schema, key: string, f: map<string, Value>,
                                              g: map<string, Value>, parent: Schema)
    requires extra < parent
    requires Rereads(f, g)
    requires if extra != NoSchema then Whole(extra) && key in f && PrintsAs(extra, f[key]) else key !in f
    ensures BuildExtra(g, key, Obj(g)) == Rebuilt(extra)
    decreases parent, 0
  {
    if extra != NoSchema {
      NodeBuilds(extra, f[key]);
    }
  }

  lemma {:induction false} PrintedMethodBuilds(s: Schema, f: map<string, Value>, g: map<string, Value>)
    requires s.MethodSchema? && Whole(s) && PrintsBody(s, f) && Rereads(f, g)
    ensures BuildKind(KindOfSchema(s), g, Obj(g)) == Unnamed(s)
    decreases s, 1
  {
    PrintedListBuilds(s.params, f["params"], s);
    BodyKey(f, "additionalParams");
    PrintedExtraBuilds(s.additionalParams, "additionalParams", f, g, s);
    BodyKey(f, "returns");
    if s.result != NoSchema {
      NodeBuilds(s.result, f["returns"]);
      PrintedResultBuilds(s.result, f["returns"]);
      assert BuildReturns(g["returns"]) == Rebuilt(s.result);
    } else {
      assert "returns" !in g;
    }
    MethodFromParts(s, g);
  }

  lemma MethodFromParts(s: Schema, g: map<string, Value>)
    requires s.MethodSchema?
    requires "params" in g && BuildNodes(g["params"]) == RebuiltAll(s.params)
    requires BuildExtra(g, "additionalParams", Obj(g)) == Rebuilt(s.additionalParams)
    requires if s.result != NoSchema then "returns" in g && BuildReturns(g["returns"]) == Rebuilt(s.result)
             else "returns" !in g
    ensures BuildKind(KindOfSchema(s), g, Obj(g)) == Unnamed(s)
  {
    hide Build, BuildWith, BuildKind, BuildList, BuildNodes, BuildTable, BuildReturns, BuildExtra, Printable, Erase, Rebuilt, RebuiltAll, RebuiltTable, Unnamed;
    MethodAssembles(g);
    MethodUnnamed(s);
  }

  lemma MethodUnnamed(s: Schema)
    requires s.MethodSchema?
    ensures Unnamed(s) ==
      AssembledMethod(RebuiltAll(s.params),
                      if s.result == NoSchema then Some(AnySchema(PLAIN)) else Rebuilt(s.result),
                      Rebuilt(s.additionalParams))
  {
    var e := Erase(s);
    assert WithMixin(e, PLAIN) == MethodSchema(PLAIN, e.params, e.result, e.additionalParams);
    assert Printable(s) <==> RebuiltAll(s.params).Some? && Printable(s.result) && Printable(s.additionalParams);
    assert e.result == if s.result == NoSchema then AnySchema(PLAIN) else Erase(s.result);
    if RebuiltAll(s.params).Some? {
      assert e.params == RebuiltAll(s.params).value;
    }
  }

  /** A printed node names its type, so it builds alike wherever it stands. */
  lemma PrintedResultBuilds(s: Schema, j: Value)
    requires PrintsAs(s, j)
    ensures BuildReturns(Reread(j)) == Build(Reread(j))
  {
    assert "type" in Reread(j).fields;
  }

  /** What every printed schema begins with, and what entries it has besides. */
  lemma PrintedEntries(s: Schema, j: Value)
    requires PrintsAs(s, j)
    ensures j.Obj? && s != NoSchema && "type" in j.fields && j.fields["type"] == Str(PrintedType(s))
    ensures if s.mixin.name == "" then "name" !in j.fields else "name" in j.fields && j.fields["name"] == Str(s.mixin.name)
    ensures if s.mixin.description == "" then "description" !in j.fields
            else "description" in j.fields && j.fields["description"] == Str(s.mixin.description)
    ensures j.fields.Keys - {"type", "name", "description"} ==
      match s
      case NumberSchema(_, min, max, exmin, exmax) => BoundKeys(min.Some?, max.Some?, exmin.Some?, exmax.Some?)
      case IntegerSchema(_, min, max, exmin, exmax) => BoundKeys(min.Some?, max.Some?, exmin.Some?, exmax.Some?)
      case AnyOfSchema(_, _) => {"anyOf"}
      case AllOfSchema(_, _) => {"allOf"}
      case NotSchema(_, _) => {"not"}
      case ListSchema(_, _, _, _) => {"items"}
      case TupleSchema(_, _, _) => {"items"}
      case ObjectSchema(_, _, _, extra) => {"properties", "requires"} + (if extra == NoSchema then {} else {"additionalProperties"})
      case MethodSchema(_, _, res, extra) =>
        {"params"} + (if res == NoSchema then {} else {"returns"}) + (if extra == NoSchema then {} else {"additionalParams"})
      case _ => {}
  {
    hide PrintsAllAs, PrintsTable, Lists;
  }

  function BoundKeys(min: bool, max: bool, exmin: bool, exmax: bool): set<string> {
    (if max then {"maximum"} else {}) + (if max && exmax then {"exclusiveMaximum"} else {})
    + (if min then {"minimum"} else {}) + (if min && exmin then {"exclusiveMinimum"} else {})
  }

  function PrintedType(s: Schema): string
    requires s != NoSchema
  {
    match s
    case AnySchema(_) => "any"
    case NullSchema(_) => "null"
    case BoolSchema(_) => "bool"
    case NumberSchema(_, _, _, _, _) => "number"
    case IntegerSchema(_, _, _, _, _) => "integer"
    case StringSchema(_, _, _) => "string"
    case AnyOfSchema(_, _) => "anyOf"
    case AllOfSchema(_, _) => "allOf"
    case NotSchema(_, _) => "not"
    case ListSchema(_, _, _, _) => "list"
    case TupleSchema(_, _, _) => "list"
    case ObjectSchema(_, _, _, _) => "object"
    case MethodSchema(_, _, _, _) => "method"
  }

  /** What printing forgets of a schema, and that it forgets nothing else of it. */
  lemma WhatIsErased(s: Schema)
    requires s != NoSchema
    ensures Erase(s) != NoSchema && Erase(s).mixin == s.mixin && PrintedType(Erase(s)) == PrintedType(s)
    ensures s.StringSchema? ==> Erase(s).maxLength == None && Erase(s).minLength == None
    ensures s.ListSchema? ==> Erase(s).minItems == None && Erase(s).maxItems == None && Erase(s).item == Erase(s.item)
    ensures s.TupleSchema? ==> Erase(s).additionalItems == NoSchema
    ensures s.NumberSchema? ==> Erase(s).fMinimum == s.fMinimum && Erase(s).fMaximum == s.fMaximum
    ensures s.IntegerSchema? ==> Erase(s).iMinimum == s.iMinimum && Erase(s).iMaximum == s.iMaximum
    ensures s.NumberSchema? ==> Erase(s).exclusiveMinimum == (if s.fMinimum == None then None else s.exclusiveMinimum)
    ensures s.NumberSchema? ==> Erase(s).exclusiveMaximum == (if s.fMaximum == None then None else s.exclusiveMaximum)
    ensures s.IntegerSchema? ==> Erase(s).exclusiveMinimum == (if s.iMinimum == None then None else s.exclusiveMinimum)
    ensures s.IntegerSchema? ==> Erase(s).exclusiveMaximum == (if s.iMaximum == None then None else s.exclusiveMaximum)
    ensures s.MethodSchema? ==> Erase(s).result == (if s.result == NoSchema then AnySchema(PLAIN) else Erase(s.result))
    ensures s.MethodSchema? ==> Erase(s).additionalParams == Erase(s.additionalParams)
    ensures s.ObjectSchema? ==> Erase(s).required.Keys == s.required.Keys && Erase(s).properties.Keys == s.properties.Keys
    ensures s.ObjectSchema? ==> Erase(s).additionalProperties == Erase(s.additionalProperties)
    ensures Erase(NoSchema) == NoSchema
  {
  }

  /** Without the trip through text, a print that holds a Go list of tables or of strings
      does not build. */
  lemma DirectPrintDoesNotBuild(s: Schema, j: Value)
    requires PrintsAs(s, j)
    requires s.AnyOfSchema? || s.AllOfSchema? || s.TupleSchema? || s.ObjectSchema? || s.MethodSchema?
    ensures Build(j).None?
  {
    TypeNameKind(s);
    DirectBodyDoesNotBuild(s, j.fields);
  }

  lemma DirectBodyDoesNotBuild(s: Schema, f: map<string, Value>)
    requires PrintsBody(s, f)
    requires s.AnyOfSchema? || s.AllOfSchema? || s.TupleSchema? || s.ObjectSchema? || s.MethodSchema?
    ensures BuildKind(KindOfSchema(s), f, Obj(f)).None?
  {
    hide Build, BuildKind, PrintsAs, BuildNodes, BuildReturns, BuildTable, BuildExtra;
    if s.AnyOfSchema? || s.AllOfSchema? || s.MethodSchema? {
      var key := if s.AnyOfSchema? then "anyOf" else if s.AllOfSchema? then "allOf" else "params";
      TypedListIsNoNode(f[key]);
    }
    ChoicesAssemble(f);
    ListAssembles(f);
    ObjectAssembles(f);
    MethodAssembles(f);
    if s.TupleSchema? {
      TypedListIsNoNode(f["items"]);
    }
  }

  lemma TypedListIsNoNode(v: Value)
    requires v.Maps?
    ensures Build(v).None? && BuildNodes(v).None?
  {
  }

  /** With every result set, the rebuilt schema prints exactly as the original did. */
  ghost predicate ResultsSet(s: Schema) {
    match s
    case AnyOfSchema(_, cs) => forall i | 0 <= i < |cs| :: ResultsSet(cs[i])
    case AllOfSchema(_, cs) => forall i | 0 <= i < |cs| :: ResultsSet(cs[i])
    case NotSchema(_, c) => ResultsSet(c)
    case ListSchema(_, item, _, _) => ResultsSet(item)
    case TupleSchema(_, cs, _) => forall i | 0 <= i < |cs| :: ResultsSet(cs[i])
    case ObjectSchema(_, props, _, extra) => (forall k | k in props :: ResultsSet(props[k])) && ResultsSet(extra)
    case MethodSchema(_, ps, res, extra) =>
      && (forall i | 0 <= i < |ps| :: ResultsSet(ps[i]))
      && res != NoSchema && ResultsSet(res) && ResultsSet(extra)
    case _ => true
  }

  /** The rebuilt schema prints as the original did exactly when every result is set. */
  lemma {:induction false} ErasedPrintsAlike(s: Schema, j: Value)
    requires Whole(s) && PrintsAs(s, j)
    ensures PrintsAs(Erase(s), j) <==> ResultsSet(s)
  {
    if ResultsSet(s) {
      SetResultsPrintAlike(s, j);
    }
    if PrintsAs(Erase(s), j) {
      AlikeSetsResults(s, j);
    }
  }

  lemma {:induction false} SetResultsPrintAlike(s: Schema, j: Value)
    requires Whole(s) && ResultsSet(s) && PrintsAs(s, j)
    ensures PrintsAs(Erase(s), j)
    decreases s, 2
  {
    ErasedBodyPrintsAlike(s, j.fields);
  }

  lemma {:induction false} ErasedBodyPrintsAlike(s: Schema, f: map<string, Value>)
    requires Whole(s) && ResultsSet(s) && PrintsBody(s, f)
    ensures PrintsBody(Erase(s), f)
    decreases s, 1
  {
    match s {
      case AnyOfSchema(_, cs) => ErasedListPrintsAlike(cs, f["anyOf"], s);
      case AllOfSchema(_, cs) => ErasedListPrintsAlike(cs, f["allOf"], s);
      case NotSchema(_, c) => SetResultsPrintAlike(c, f["not"]);
      case ListSchema(_, item, _, _) => SetResultsPrintAlike(item, f["items"]);
      case TupleSchema(_, cs, _) => ErasedListPrintsAlike(cs, f["items"], s);
      case ObjectSchema(_, _, _, _) => ErasedObjectPrintsAlike(s, f);
      case MethodSchema(_, ps, res, extra) =>
        ErasedListPrintsAlike(ps, f["params"], s);
        SetResultsPrintAlike(res, f["returns"]);
        if extra != NoSchema {
          SetResultsPrintAlike(extra, f["additionalParams"]);
        }
      case _ =>
    }
  }

  lemma {:induction false} ErasedObjectPrintsAlike(s: Schema, f: map<string, Value>)
    requires s.ObjectSchema? && Whole(s) && ResultsSet(s) && PrintsBody(s, f)
    ensures PrintsBody(Erase(s), f)
    decreases s, 0
  {
    var props, table := s.properties, f["properties"];
    forall k | k in props ensures PrintsAs(Erase(props[k]), table.fields[k]) {
      SetResultsPrintAlike(props[k], table.fields[k]);
    }
    if s.additionalProperties != NoSchema {
      SetResultsPrintAlike(s.additionalProperties, f["additionalProperties"]);
    }
    assert PrintsTable(Erase(s), table);
    assert Lists(f["requires"].strs, Erase(s).required) by {
      assert Erase(s).required.Keys == s.required.Keys;
      assert |Erase(s).required| == |s.required|;
    }
  }

  lemma {:induction false} ErasedListPrintsAlike(cs: seq<Schema>, arr: Value, parent: Schema)
    requires PrintsAllAs(cs, arr)
    requires forall i | 0 <= i < |cs| :: cs[i] < parent && Whole(cs[i]) && ResultsSet(cs[i])
    ensures PrintsAllAs(seq(|cs|, i requires 0 <= i < |cs| => Erase(cs[i])), arr)
    decreases parent, 0
  {
    forall i | 0 <= i < |cs| ensures PrintsAs(Erase(cs[i]), arr.maps[i]) {
      SetResultsPrintAlike(cs[i], arr.maps[i]);
    }
  }

  lemma {:induction false} AlikeSetsResults(s: Schema, j: Value)
    requires Whole(s) && PrintsAs(s, j) && PrintsAs(Erase(s), j)
    ensures ResultsSet(s)
    decreases s, 3
  {
    AlikeBodySetsResults(s, j.fields);
  }

  lemma {:induction false} AlikeBodySetsResults(s: Schema, f: map<string, Value>)
    requires Whole(s) && PrintsBody(s, f) && PrintsBody(Erase(s), f)
    ensures ResultsSet(s)
    decreases s, 2
  {
    match s {
      case AnyOfSchema(_, cs) => AlikeListSetsResults(cs, Erase(s).choices, f["anyOf"], s);
      case AllOfSchema(_, cs) => AlikeListSetsResults(cs, Erase(s).choices, f["allOf"], s);
      case NotSchema(_, c) => AlikeSetsResults(c, f["not"]);
      case ListSchema(_, item, _, _) => AlikeSetsResults(item, f["items"]);
      case TupleSchema(_, cs, _) => AlikeListSetsResults(cs, Erase(s).children, f["items"], s);
      case ObjectSchema(_, _, _, _) => AlikeObjectSetsResults(s, f);
      case MethodSchema(_, _, _, _) => AlikeMethodSetsResults(s, f);
      case _ =>
    }
  }

  lemma {:induction false} AlikeMethodSetsResults(s: Schema, f: map<string, Value>)
    requires s.MethodSchema? && Whole(s) && PrintsBody(s, f) && PrintsBody(Erase(s), f)
    ensures ResultsSet(s)
    decreases s, 1
  {
    AlikeListSetsResults(s.params, Erase(s).params, f["params"], s);
    AlikeSetsResults(s.result, f["returns"]);
    if s.additionalParams != NoSchema {
      AlikeSetsResults(s.additionalParams, f["additionalParams"]);
    }
  }

  lemma {:induction false} AlikeObjectSetsResults(s: Schema, f: map<string, Value>)
    requires s.ObjectSchema? && Whole(s) && PrintsBody(s, f) && PrintsBody(Erase(s), f)
    ensures ResultsSet(s)
    decreases s, 1
  {
    var props, table := s.properties, f["properties"];
    forall k | k in props ensures ResultsSet(props[k]) {
      assert Erase(s).properties[k] == Erase(props[k]);
      AlikeSetsResults(props[k], table.fields[k]);
    }
    if s.additionalProperties != NoSchema {
      AlikeSetsResults(s.additionalProperties, f["additionalProperties"]);
    }
  }

  lemma {:induction false} AlikeListSetsResults(cs: seq<Schema>, es: seq<Schema>, arr: Value, parent: Schema)
    requires PrintsAllAs(cs, arr) && PrintsAllAs(es, arr)
    requires |es| == |cs| && forall i | 0 <= i < |cs| :: cs[i] < parent && Whole(cs[i]) && es[i] == Erase(cs[i])
    ensures forall i | 0 <= i < |cs| :: ResultsSet(cs[i])
    decreases parent, 0
  {
    forall i | 0 <= i < |cs| ensures ResultsSet(cs[i]) {
      AlikeSetsResults(cs[i], arr.maps[i]);
    }
  }
}
