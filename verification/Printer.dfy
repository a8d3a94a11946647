/** `Schema.Map`: printing a schema as a tree of Go maps, and what printing forgets. */
module Printer {
  import opened Values
  import opened Schemas

  /** `rebuildType`: the entries every printed schema starts with. */
  function Header(typeName: string, m: Mixin): (h: map<string, Value>)
    ensures HasHeader(h, typeName, m) && Body(h) == {}
  {
    var h := map["type" := Str(typeName)];
    var h := if m.name != "" then h["name" := Str(m.name)] else h;
    if m.description != "" then h["description" := Str(m.description)] else h
  }

  function FloatBound(b: Option<real>): Option<Value> {
    if b.Some? then Some(Float(b.value)) else None
  }

  function IntBound(b: Option<Int64>): Option<Value> {
    if b.Some? then Some(Int(b.value)) else None
  }

  /** `names` lists the keys of `req`, each once, in some order. */
  ghost predicate Lists(names: seq<string>, req: map<string, bool>) {
    |names| == |req| && (forall k | k in names :: k in req) && (forall k | k in req :: k in names)
  }

  ghost predicate PrintsAllAs(cs: seq<Schema>, j: Value)
  {
    j.Maps? && |j.maps| == |cs| && forall i | 0 <= i < |cs| :: PrintsAs(cs[i], j.maps[i])
  }

  ghost predicate PrintsTable(s: Schema, j: Value)
    requires s.ObjectSchema?
    decreases s, 0
  {
    && j.Obj? && j.fields.Keys == s.properties.Keys
    && forall k | k in s.properties :: PrintsAs(s.properties[k], j.fields[k])
  }

  /** The header entries of a printed node are those of type `t` and mixin `m`. */
  ghost predicate HasHeader(f: map<string, Value>, t: string, m: Mixin) {
    && "type" in f && f["type"] == Str(t)
    && (if m.name != "" then "name" in f && f["name"] == Str(m.name) else "name" !in f)
    && (if m.description != "" then "description" in f && f["description"] == Str(m.description)
        else "description" !in f)
  }

  /** The entries of a printed node besides its header. */
  ghost function Body(f: map<string, Value>): set<string> {
    f.Keys - {"type", "name", "description"}
  }

  lemma AddedToBody(f: map<string, Value>, t: string, m: Mixin, key: string, v: Value)
    requires HasHeader(f, t, m) && key !in {"type", "name", "description"}
    ensures HasHeader(f[key := v], t, m) && Body(f[key := v]) == Body(f) + {key}
  {
  }

  /** The trees that `Map` may give for `s`: they differ in the order of `requires` lists. */
  ghost predicate PrintsAs(s: Schema, j: Value)
    decreases s, 2
  {
    j.Obj? && s != NoSchema && HasHeader(j.fields, TypeName(s), s.mixin) && PrintsBody(s, j.fields)
  }

  ghost predicate PrintsBody(s: Schema, f: map<string, Value>)
    decreases s, 1
  {
    match s
    case NumberSchema(_, min, max, exmin, exmax) =>
      PrintsBounds(f, FloatBound(max), exmax, FloatBound(min), exmin)
    case IntegerSchema(_, min, max, exmin, exmax) =>
      PrintsBounds(f, IntBound(max), exmax, IntBound(min), exmin)
    case AnyOfSchema(_, cs) => Body(f) == {"anyOf"} && "anyOf" in f && PrintsAllAs(cs, f["anyOf"])
    case AllOfSchema(_, cs) => Body(f) == {"allOf"} && "allOf" in f && PrintsAllAs(cs, f["allOf"])
    case NotSchema(_, c) => Body(f) == {"not"} && "not" in f && PrintsAs(c, f["not"])
    case ListSchema(_, item, _, _) => Body(f) == {"items"} && "items" in f && PrintsAs(item, f["items"])
    case TupleSchema(_, cs, _) => Body(f) == {"items"} && "items" in f && PrintsAllAs(cs, f["items"])
    case ObjectSchema(_, props, req, extra) =>
      && Body(f) == {"properties", "requires"} + (if extra == NoSchema then {} else {"additionalProperties"})
      && "properties" in f && PrintsTable(s, f["properties"])
      && "requires" in f && f["requires"].Strs? && Lists(f["requires"].strs, req)
      && (extra != NoSchema ==> "additionalProperties" in f && PrintsAs(extra, f["additionalProperties"]))
    case MethodSchema(_, ps, res, extra) =>
      && Body(f) == {"params"} + (if res == NoSchema then {} else {"returns"})
                    + (if extra == NoSchema then {} else {"additionalParams"})
      && "params" in f && PrintsAllAs(ps, f["params"])
      && (res != NoSchema ==> "returns" in f && PrintsAs(res, f["returns"]))
      && (extra != NoSchema ==> "additionalParams" in f && PrintsAs(extra, f["additionalParams"]))
    case _ => Body(f) == {}
  }

  /** An exclusive flag is printed only beside its bound. */
  ghost predicate PrintsBounds(f: map<string, Value>, max: Option<Value>, exmax: Option<bool>,
                               min: Option<Value>, exmin: Option<bool>)
  {
    && Body(f) <= {"maximum", "exclusiveMaximum", "minimum", "exclusiveMinimum"}
    && (if max.Some? then "maximum" in f && f["maximum"] == max.value else "maximum" !in f)
    && (if min.Some? then "minimum" in f && f["minimum"] == min.value else "minimum" !in f)
    && (if max.Some? && exmax.Some? then "exclusiveMaximum" in f && f["exclusiveMaximum"] == Bool(exmax.value)
        else "exclusiveMaximum" !in f)
    && (if min.Some? && exmin.Some? then "exclusiveMinimum" in f && f["exclusiveMinimum"] == Bool(exmin.value)
        else "exclusiveMinimum" !in f)
  }

  /** What is left of a schema once printed: string and list bounds, tuple extras and
      exclusive flags without a bound are gone; an absent result reads as `any`. */
  ghost function Erase(s: Schema): Schema {
    match s
    case NumberSchema(m, min, max, exmin, exmax) =>
      NumberSchema(m, min, max, if min.Some? then exmin else None, if max.Some? then exmax else None)
    case IntegerSchema(m, min, max, exmin, exmax) =>
      IntegerSchema(m, min, max, if min.Some? then exmin else None, if max.Some? then exmax else None)
    case StringSchema(m, _, _) => StringSchema(m, None, None)
    case AnyOfSchema(m, cs) => AnyOfSchema(m, seq(|cs|, i requires 0 <= i < |cs| => Erase(cs[i])))
    case AllOfSchema(m, cs) => AllOfSchema(m, seq(|cs|, i requires 0 <= i < |cs| => Erase(cs[i])))
    case NotSchema(m, c) => NotSchema(m, Erase(c))
    case ListSchema(m, item, _, _) => ListSchema(m, Erase(item), None, None)
    case TupleSchema(m, cs, _) =>
      TupleSchema(m, seq(|cs|, i requires 0 <= i < |cs| => Erase(cs[i])), NoSchema)
    case ObjectSchema(m, props, req, extra) =>
      ObjectSchema(m, map k | k in props :: Erase(props[k]), map k | k in req :: true, Erase(extra))
    case MethodSchema(m, ps, res, extra) =>
      MethodSchema(m, seq(|ps|, i requires 0 <= i < |ps| => Erase(ps[i])),
                   if res == NoSchema then AnySchema(PLAIN) else Erase(res), Erase(extra))
    case _ => s
  }

  method Map(s: Schema) returns (j: Value)
    requires Whole(s)
    ensures PrintsAs(s, j)
    decreases s, 1
  {
    var tp := Header(TypeName(s), s.mixin);
    match s {
      case AnySchema(_) =>
      case NullSchema(_) =>
      case BoolSchema(_) =>
      case StringSchema(_, _, _) =>
      case NumberSchema(_, min, max, exmin, exmax) =>
        tp := MapBounds(tp, FloatBound(max), exmax, FloatBound(min), exmin);
      case IntegerSchema(_, min, max, exmin, exmax) =>
        tp := MapBounds(tp, IntBound(max), exmax, IntBound(min), exmin);
      case AnyOfSchema(_, cs) =>
        var arr := MapAll(cs, s);
        AddedToBody(tp, TypeName(s), s.mixin, "anyOf", arr);
        tp := tp["anyOf" := arr];
      case AllOfSchema(_, cs) =>
        var arr := MapAll(cs, s);
        AddedToBody(tp, TypeName(s), s.mixin, "allOf", arr);
        tp := tp["allOf" := arr];
      case NotSchema(_, c) =>
        var child := Map(c);
        AddedToBody(tp, TypeName(s), s.mixin, "not", child);
        tp := tp["not" := child];
      case ListSchema(_, item, _, _) =>
        var child := Map(item);
        AddedToBody(tp, TypeName(s), s.mixin, "items", child);
        tp := tp["items" := child];
      case TupleSchema(_, cs, _) =>
        var arr := MapAll(cs, s);
        AddedToBody(tp, TypeName(s), s.mixin, "items", arr);
        tp := tp["items" := arr];
      case ObjectSchema(_, _, _, _) => tp := MapObject(s, tp);
      case MethodSchema(_, _, _, _) => tp := MapMethod(s, tp);
    }
    j := Obj(tp);
  }

  method MapBounds(tp: map<string, Value>, max: Option<Value>, exmax: Option<bool>,
                   min: Option<Value>, exmin: Option<bool>) returns (r: map<string, Value>)
    requires Body(tp) == {}
    ensures PrintsBounds(r, max, exmax, min, exmin)
    ensures forall t, m :: HasHeader(tp, t, m) ==> HasHeader(r, t, m)
  {
    r := tp;
    assert forall k | k in r && k !in {"type", "name", "description"} :: k in Body(tp);
    if max.Some? {
      r := r["maximum" := max.value];
      if exmax.Some? {
        r := r["exclusiveMaximum" := Bool(exmax.value)];
      }
    }
    if min.Some? {
      r := r["minimum" := min.value];
      if exmin.Some? {
        r := r["exclusiveMinimum" := Bool(exmin.value)];
      }
    }
  }

  method MapAll(cs: seq<Schema>, ghost parent: Schema) returns (arr: Value)
    requires forall i | 0 <= i < |cs| :: cs[i] < parent && Whole(cs[i])
    ensures PrintsAllAs(cs, arr)
    decreases parent, 0, 0
  {
    var maps: seq<Value> := [];
    for i := 0 to |cs|
      invariant |maps| == i
      invariant forall k | 0 <= k < i :: PrintsAs(cs[k], maps[k])
    {
      var child := Map(cs[i]);
      maps := maps + [child];
    }
    arr := Maps(maps);
  }

  method MapObject(s: Schema, header: map<string, Value>) returns (tp: map<string, Value>)
    requires Whole(s) && s.ObjectSchema?
    requires HasHeader(header, TypeName(s), s.mixin) && Body(header) == {}
    ensures HasHeader(tp, TypeName(s), s.mixin) && PrintsBody(s, tp)
    decreases s, 0
  {
    var props := MapTable(s);
    var names := NamesOf(s.required);
    tp := header["properties" := props];
    AddedToBody(header, "object", s.mixin, "properties", props);
    AddedToBody(tp, "object", s.mixin, "requires", Strs(names));
    tp := tp["requires" := Strs(names)];
    assert tp["properties"] == props;
    if s.additionalProperties != NoSchema {
      var child := Map(s.additionalProperties);
      AddedToBody(tp, "object", s.mixin, "additionalProperties", child);
      tp := tp["additionalProperties" := child];
      assert tp["properties"] == props && tp["requires"] == Strs(names);
    }
  }

  /** The loop of `ObjectSchema.Map` over the properties, in any order. */
  method MapTable(s: Schema) returns (table: Value)
    requires Whole(s) && s.ObjectSchema?
    ensures PrintsTable(s, table)
    decreases s, 0, 0
  {
    var props: map<string, Value> := map[];
    var todo := s.properties.Keys;
    while todo != {}
      invariant todo <= s.properties.Keys && props.Keys == s.properties.Keys - todo
      invariant forall k | k in props :: PrintsAs(s.properties[k], props[k])
      decreases |todo|
    {
      var name :| name in todo;
      todo := todo - {name};
      var child := Map(s.properties[name]);
      props := props[name := child];
    }
    table := Obj(props);
  }

  method MapMethod(s: Schema, header: map<string, Value>) returns (tp: map<string, Value>)
    requires Whole(s) && s.MethodSchema?
    requires HasHeader(header, TypeName(s), s.mixin) && Body(header) == {}
    ensures HasHeader(tp, TypeName(s), s.mixin) && PrintsBody(s, tp)
    decreases s, 0
  {
    var arr := MapAll(s.params, s);
    AddedToBody(header, "method", s.mixin, "params", arr);
    tp := header["params" := arr];
    if s.result != NoSchema {
      var child := Map(s.result);
      AddedToBody(tp, "method", s.mixin, "returns", child);
      tp := tp["returns" := child];
    }
    if s.additionalParams != NoSchema {
      var child := Map(s.additionalParams);
      AddedToBody(tp, "method", s.mixin, "additionalParams", child);
      tp := tp["additionalParams" := child];
    }
  }

  method NamesOf(req: map<string, bool>) returns (names: seq<string>)
    ensures Lists(names, req)
  {
    names := [];
    var todo := req.Keys;
    while todo != {}
      invariant todo <= req.Keys && |names| + |todo| == |req|
      invariant forall k | k in names :: k in req
      invariant forall k | k in req :: k in todo || k in names
      decreases |todo|
    {
      var name :| name in todo;
      todo := todo - {name};
      names := names + [name];
    }
  }
}
