/** What a schema means, said without a validator: which data it accepts, and which
    positions in rejected data are at fault. */
module Meaning {
  import opened Values
  import opened Schemas

  // ---- acceptance -------------------------------------------------------------------

  predicate BelowReal(v: real, max: Option<real>, exclusive: Option<bool>) {
    max.Some? ==> if exclusive == Some(true) then v < max.value else v <= max.value
  }

  predicate AboveReal(v: real, min: Option<real>, exclusive: Option<bool>) {
    min.Some? ==> if exclusive == Some(true) then min.value < v else min.value <= v
  }

  predicate BelowInt(v: int, max: Option<Int64>, exclusive: Option<bool>) {
    max.Some? ==> if exclusive == Some(true) then v < max.value else v <= max.value
  }

  predicate AboveInt(v: int, min: Option<Int64>, exclusive: Option<bool>) {
    min.Some? ==> if exclusive == Some(true) then min.value < v else min.value <= v
  }

  function FloatOf(d: Value): Option<real> {
    match d
    case Number(lit) => Some(LiteralFloat64(lit))
    case Int(i) => Some(i as real)
    case Float(r) => Some(r)
    case _ => None
  }

  function IntOf(d: Value): Option<Int64> {
    match d
    case Number(lit) => LiteralInt64(lit)
    case Int(i) => Some(i)
    case _ => None
  }

  predicate FitsLength(n: nat, min: Option<Int64>, max: Option<Int64>) {
    (max.Some? ==> n <= max.value) && (min.Some? ==> min.value <= n)
  }

  /** The declarative reading of every schema kind.  An absent schema accepts nothing. */
  ghost predicate Accepts(s: Schema, d: Value) {
    match s
    case NoSchema => false
    case AnySchema(_) => true
    case NullSchema(_) => d.Null?
    case BoolSchema(_) => d.Bool?
    case NumberSchema(_, min, max, exmin, exmax) =>
      var v := FloatOf(d);
      v.Some? && BelowReal(v.value, max, exmax) && AboveReal(v.value, min, exmin)
    case IntegerSchema(_, min, max, exmin, exmax) =>
      var v := IntOf(d);
      v.Some? && BelowInt(v.value, max, exmax) && AboveInt(v.value, min, exmin)
    case StringSchema(_, max, min) => d.Str? && FitsLength(|d.s|, min, max)
    case AnyOfSchema(_, cs) => exists i | 0 <= i < |cs| :: Accepts(cs[i], d)
    case AllOfSchema(_, cs) => forall i | 0 <= i < |cs| :: Accepts(cs[i], d)
    case NotSchema(_, c) => !Accepts(c, d)
    case ListSchema(_, item, min, max) =>
      && d.List?
      && FitsLength(|d.items|, min, max)
      && forall i | 0 <= i < |d.items| :: Accepts(item, d.items[i])
    case TupleSchema(_, cs, extra) =>
      && d.List?
      && |cs| <= |d.items|
      && (extra == NoSchema ==> |d.items| == |cs|)
      && (forall i | 0 <= i < |cs| :: Accepts(cs[i], d.items[i]))
      && (forall i | |cs| <= i < |d.items| :: Accepts(extra, d.items[i]))
    case ObjectSchema(_, props, req, extra) =>
      && d.Obj?
      && (forall k | k in props :: if k in d.fields then Accepts(props[k], d.fields[k]) else k !in req)
      && (extra == NoSchema || forall k | k in d.fields && k !in props :: Accepts(extra, d.fields[k]))
    case MethodSchema(_, ps, res, extra) =>
      && d.Obj?
      && if HasParams(d) then
           var vs := d.fields["params"].items;
           && |ps| <= |vs|
           && (extra == NoSchema ==> |vs| == |ps|)
           && (forall i | 0 <= i < |ps| :: Accepts(ps[i], vs[i]))
           && (forall i | |ps| <= i < |vs| :: Accepts(extra, vs[i]))
         else
           "result" in d.fields && (res == NoSchema || Accepts(res, d.fields["result"]))
  }

  /** Data with a `params` list is a call; a `params` that is not a list is ignored. */
  predicate HasParams(d: Value) {
    d.Obj? && "params" in d.fields && d.fields["params"].List?
  }

  // ---- path segments ----------------------------------------------------------------

  function Digit(n: nat): char
    requires n < 10
  {
    ('0' as int + n) as char
  }

  /** `fmt.Sprintf("%d", n)`. */
  function DecimalText(n: nat): (s: string)
    ensures s != []
  {
    if n < 10 then [Digit(n)] else DecimalText(n / 10) + [Digit(n % 10)]
  }

  function IndexSegment(i: nat): (s: string)
    ensures |s| > 2 && s[0] == '[' && s[|s| - 1] == ']' && s[1..|s| - 1] == DecimalText(i)
  {
    var s := "[" + DecimalText(i) + "]";
    assert s[1..|s| - 1] == DecimalText(i);
    s
  }

  function NameSegment(name: string): (s: string)
    ensures |s| > 0 && s[0] == '.' && s[1..] == name
  {
    "." + name
  }

  function DecimalValue(s: string): int {
    if s == [] then 0 else 10 * DecimalValue(s[..|s| - 1]) + (s[|s| - 1] as int - '0' as int)
  }

  /** The text of an index reads back as the index, and has digits only and no leading zero. */
  lemma {:induction false} DecimalTextReads(n: nat)
    ensures DecimalValue(DecimalText(n)) == n
    ensures forall i | 0 <= i < |DecimalText(n)| :: '0' <= DecimalText(n)[i] <= '9'
    ensures n > 0 ==> DecimalText(n)[0] != '0'
  {
    if n >= 10 {
      DecimalTextReads(n / 10);
      assert DecimalText(n)[..|DecimalText(n)| - 1] == DecimalText(n / 10);
    } else {
      assert [Digit(n)][..0] == [];
    }
  }

  /** Where one segment of an error path leads in a piece of data. */
  datatype Place = Found(v: Value) | Absent | Lost

  function Step(d: Value, seg: string): Place {
    if seg == [] then Lost
    else if seg[0] == '.' && d.Obj? then
      if seg[1..] in d.fields then Found(d.fields[seg[1..]]) else Absent
    else if seg[0] == '[' && |seg| > 2 && d.List? then
      var i := DecimalValue(seg[1..|seg| - 1]);
      if 0 <= i < |d.items| then Found(d.items[i]) else Lost
    else Lost
  }

  /** A walk by the segments of an error path; only its last step may miss. */
  function Walk(d: Value, path: seq<string>): Place
    decreases |path|
  {
    if path == [] then Found(d)
    else
      var next := Step(d, path[0]);
      if next.Found? then Walk(next.v, path[1..])
      else if |path| == 1 then next
      else Lost
  }

  // ---- fault ------------------------------------------------------------------------

  /** What is asked of the place an error path reaches. */
  datatype Demand =
    | Satisfy(s: Schema)                                // the value there must not itself fail
    | ParamCount(params: seq<Schema>, extra: Schema)    // the list there must have the right length
    | Present                                           // there must be a value there

  /** The element schema for position `i` of a tuple or of call parameters. */
  function ElementSchema(cs: seq<Schema>, extra: Schema, i: int): Schema {
    if 0 <= i < |cs| then cs[i] else extra
  }

  /** The demand that schema `s` makes of datum `d` at the end of `path`, without entering
      a `not` or an `anyOf`. */
  ghost predicate Leads(s: Schema, d: Value, path: seq<string>, demand: Demand)
    decreases s
  {
    || (path == [] && demand == Satisfy(s))
    || match s
       case AllOfSchema(_, cs) => exists i | 0 <= i < |cs| :: Leads(cs[i], d, path, demand)
       case ListSchema(_, item, _, _) =>
         && path != [] && IsIndex(path[0]) && Step(d, path[0]).Found?
         && Leads(item, Step(d, path[0]).v, path[1..], demand)
       case TupleSchema(_, cs, extra) =>
         && path != [] && IsIndex(path[0]) && Step(d, path[0]).Found?
         && Leads(ElementSchema(cs, extra, IndexIn(path[0])), Step(d, path[0]).v, path[1..], demand)
       case ObjectSchema(_, props, req, extra) =>
         && path != [] && IsName(path[0])
         && var name := path[0][1..];
            || (|path| == 1 && name in props && name in req && demand == Present)
            || (&& Step(d, path[0]).Found?
                && if name in props then Leads(props[name], Step(d, path[0]).v, path[1..], demand)
                   else extra != NoSchema && Leads(extra, Step(d, path[0]).v, path[1..], demand))
       case MethodSchema(_, ps, res, extra) =>
         || (path == [".params"] && demand == ParamCount(ps, extra))
         || (&& |path| > 1 && path[0] == ".params" && HasParams(d)
             && IsIndex(path[1]) && Step(d.fields["params"], path[1]).Found?
             && Leads(ElementSchema(ps, extra, IndexIn(path[1])), Step(d.fields["params"], path[1]).v, path[2..], demand))
         || (&& path != [] && path[0] == ".result" && !HasParams(d) && res != NoSchema
             && Step(d, path[0]).Found?
             && Leads(res, Step(d, path[0]).v, path[1..], demand))
       case _ => false
  }

  predicate IsIndex(seg: string) {
    |seg| > 2 && seg[0] == '['
  }

  function IndexIn(seg: string): int
    requires IsIndex(seg)
  {
    DecimalValue(seg[1..|seg| - 1])
  }

  predicate IsName(seg: string) {
    |seg| > 0 && seg[0] == '.'
  }

  /** `s` rejects `d` for what `d` is, and not for a part of it: a list or a tuple for its
      kind or its length, an object for its kind, a message for being no message.  A part
      that is a choice of an `allOf` is a part; what a `not` or an `anyOf` says is not. */
  ghost predicate FailsItself(s: Schema, d: Value) {
    match s
    case NoSchema => false
    case AllOfSchema(_, _) => false
    case ListSchema(_, _, min, max) => !d.List? || !FitsLength(|d.items|, min, max)
    case TupleSchema(_, cs, extra) => !d.List? || |d.items| < |cs| || (extra == NoSchema && |d.items| != |cs|)
    case ObjectSchema(_, _, _, _) => !d.Obj?
    case MethodSchema(_, _, _, _) => !d.Obj? || (!HasParams(d) && "result" !in d.fields)
    case _ => !Accepts(s, d)
  }

  /** What a composite fails for itself has nothing to do with its parts. */
  lemma FailureIgnoresParts(s: Schema, t: Schema, d: Value)
    ensures s.ListSchema? && t.ListSchema? && t.minItems == s.minItems && t.maxItems == s.maxItems ==>
      (FailsItself(s, d) <==> FailsItself(t, d))
    ensures s.TupleSchema? && t.TupleSchema? && |t.children| == |s.children| && (t.additionalItems == NoSchema <==> s.additionalItems == NoSchema)
      ==> (FailsItself(s, d) <==> FailsItself(t, d))
    ensures (s.ObjectSchema? && t.ObjectSchema?) || (s.MethodSchema? && t.MethodSchema?) ==> (FailsItself(s, d) <==> FailsItself(t, d))
    ensures s.AllOfSchema? ==> !FailsItself(s, d)
  {
  }

  /** The place reached fails the demand made there. */
  ghost predicate Refuses(demand: Demand, place: Place) {
    match demand
    case Satisfy(s) => place.Found? && FailsItself(s, place.v)
    case ParamCount(ps, extra) =>
      && place.Found? && place.v.List?
      && (|place.v.items| < |ps| || (|place.v.items| > |ps| && extra == NoSchema))
    case Present => place.Absent?
  }

  /** `path` is a genuine walk in `d` to a place that fails what `s` demands of it. */
  ghost predicate AtFault(s: Schema, d: Value, path: seq<string>) {
    exists demand :: Leads(s, d, path, demand) && Refuses(demand, Walk(d, path))
  }

  // How a fault in a part is a fault in the whole.

  lemma FaultHere(s: Schema, d: Value)
    requires FailsItself(s, d)
    ensures AtFault(s, d, [])
  {
    assert Leads(s, d, [], Satisfy(s)) && Refuses(Satisfy(s), Walk(d, []));
  }

  lemma FaultInChoice(s: Schema, i: nat, d: Value, path: seq<string>)
    requires s.AllOfSchema? && i < |s.choices| && AtFault(s.choices[i], d, path)
    ensures AtFault(s, d, path)
  {
    var demand :| Leads(s.choices[i], d, path, demand) && Refuses(demand, Walk(d, path));
    assert Leads(s, d, path, demand);
  }

  lemma FaultAtIndex(s: Schema, d: Value, i: nat, path: seq<string>)
    requires s.ListSchema? || s.TupleSchema?
    requires d.List? && i < |d.items|
    requires var c := if s.ListSchema? then s.item else ElementSchema(s.children, s.additionalItems, i);
             AtFault(c, d.items[i], path)
    ensures AtFault(s, d, [IndexSegment(i)] + path)
  {
    var c := if s.ListSchema? then s.item else ElementSchema(s.children, s.additionalItems, i);
    var demand :| Leads(c, d.items[i], path, demand) && Refuses(demand, Walk(d.items[i], path));
    var whole := [IndexSegment(i)] + path;
    DecimalTextReads(i);
    assert whole[1..] == path;
    assert Step(d, whole[0]) == Found(d.items[i]);
    assert Leads(s, d, whole, demand);
  }

  lemma FaultAtName(s: Schema, d: Value, name: string, path: seq<string>)
    requires s.ObjectSchema? && d.Obj? && name in d.fields
    requires name !in s.properties ==> s.additionalProperties != NoSchema
    requires var c := if name in s.properties then s.properties[name] else s.additionalProperties;
             AtFault(c, d.fields[name], path)
    ensures AtFault(s, d, [NameSegment(name)] + path)
  {
    var c := if name in s.properties then s.properties[name] else s.additionalProperties;
    var demand :| Leads(c, d.fields[name], path, demand) && Refuses(demand, Walk(d.fields[name], path));
    var whole := [NameSegment(name)] + path;
    assert whole[1..] == path;
    assert Step(d, whole[0]) == Found(d.fields[name]);
    assert Leads(s, d, whole, demand);
  }

  lemma FaultMissing(s: Schema, d: Value, name: string)
    requires s.ObjectSchema? && d.Obj? && name !in d.fields && name in s.properties && name in s.required
    ensures AtFault(s, d, [NameSegment(name)])
  {
    assert Leads(s, d, [NameSegment(name)], Present);
    assert Walk(d, [NameSegment(name)]) == Absent;
  }

  lemma FaultInParams(s: Schema, d: Value, i: nat, path: seq<string>)
    requires s.MethodSchema? && HasParams(d) && i < |d.fields["params"].items|
    requires AtFault(ElementSchema(s.params, s.additionalParams, i), d.fields["params"].items[i], path)
    ensures AtFault(s, d, [".params", IndexSegment(i)] + path)
  {
    var c := ElementSchema(s.params, s.additionalParams, i);
    var vs := d.fields["params"];
    var demand :| Leads(c, vs.items[i], path, demand) && Refuses(demand, Walk(vs.items[i], path));
    var whole := [".params", IndexSegment(i)] + path;
    DecimalTextReads(i);
    assert whole[2..] == path && whole[1..][1..] == path;
    assert Step(d, whole[0]) == Found(vs);
    assert Step(vs, whole[1..][0]) == Found(vs.items[i]);
    assert Leads(s, d, whole, demand);
    assert Walk(d, whole) == Walk(vs, whole[1..]) == Walk(vs.items[i], path);
  }

  lemma FaultParamCount(s: Schema, d: Value)
    requires s.MethodSchema? && HasParams(d)
    requires var n := |d.fields["params"].items|;
             n < |s.params| || (n > |s.params| && s.additionalParams == NoSchema)
    ensures AtFault(s, d, [".params"])
  {
    var demand := ParamCount(s.params, s.additionalParams);
    assert Leads(s, d, [".params"], demand);
    assert Step(d, ".params") == Found(d.fields["params"]);
    assert Walk(d, [".params"]) == Walk(d.fields["params"], [".params"][1..]);
  }

  lemma FaultInResult(s: Schema, d: Value, path: seq<string>)
    requires s.MethodSchema? && d.Obj? && !HasParams(d) && s.result != NoSchema && "result" in d.fields
    requires AtFault(s.result, d.fields["result"], path)
    ensures AtFault(s, d, [".result"] + path)
  {
    var demand :| Leads(s.result, d.fields["result"], path, demand) && Refuses(demand, Walk(d.fields["result"], path));
    var whole := [".result"] + path;
    assert whole[1..] == path;
    assert Step(d, whole[0]) == Found(d.fields["result"]);
    assert Leads(s, d, whole, demand);
  }

  lemma FaultInParamList(s: Schema, d: Value)
    requires s.MethodSchema? && Whole(s) && HasParams(d) && !Accepts(s, d)
    requires forall c: Schema, v: Value | c < s && Whole(c) && !Accepts(c, v) :: exists path :: AtFault(c, v, path)
    ensures exists path :: AtFault(s, d, path)
  {
    var vs := d.fields["params"].items;
    var ps, extra := s.params, s.additionalParams;
    if |vs| < |ps| || (|vs| > |ps| && extra == NoSchema) {
      FaultParamCount(s, d);
    } else {
      var i :| 0 <= i < |vs| && !Accepts(ElementSchema(ps, extra, i), vs[i]);
      var path :| AtFault(ElementSchema(ps, extra, i), vs[i], path);
      FaultInParams(s, d, i, path);
    }
  }

  lemma FaultInItems(s: Schema, d: Value)
    requires (s.ListSchema? || s.TupleSchema?) && Whole(s) && !Accepts(s, d)
    requires forall c: Schema, v: Value | c < s && Whole(c) && !Accepts(c, v) :: exists path :: AtFault(c, v, path)
    ensures exists path :: AtFault(s, d, path)
  {
    if FailsItself(s, d) {
      FaultHere(s, d);
    } else {
      var i :| 0 <= i < |d.items| &&
        !Accepts(if s.ListSchema? then s.item else ElementSchema(s.children, s.additionalItems, i), d.items[i]);
      var c := if s.ListSchema? then s.item else ElementSchema(s.children, s.additionalItems, i);
      var path :| AtFault(c, d.items[i], path);
      FaultAtIndex(s, d, i, path);
    }
  }

  lemma FaultInFields(s: Schema, d: Value)
    requires s.ObjectSchema? && Whole(s) && d.Obj? && !Accepts(s, d)
    requires forall c: Schema, v: Value | c < s && Whole(c) && !Accepts(c, v) :: exists path :: AtFault(c, v, path)
    ensures exists path :: AtFault(s, d, path)
  {
    var props, extra := s.properties, s.additionalProperties;
    if k :| k in props && if k in d.fields then !Accepts(props[k], d.fields[k]) else k in s.required {
      if k in d.fields {
        var path :| AtFault(props[k], d.fields[k], path);
        FaultAtName(s, d, k, path);
      } else {
        FaultMissing(s, d, k);
      }
    } else {
      var k :| k in d.fields && k !in props && !Accepts(extra, d.fields[k]);
      var path :| AtFault(extra, d.fields[k], path);
      FaultAtName(s, d, k, path);
    }
  }

  /** Whatever is rejected is at fault somewhere, so that with `FaultIsReason` the faults are
      exactly the reasons. */
  lemma {:induction false} RejectedIsAtFault(s: Schema, d: Value)
    requires Whole(s) && !Accepts(s, d)
    ensures exists path :: AtFault(s, d, path)
    decreases s
  {
    forall c: Schema, v: Value | c < s && Whole(c) && !Accepts(c, v) ensures exists path :: AtFault(c, v, path) {
      RejectedIsAtFault(c, v);
    }
    hide AtFault;
    match s {
      case AllOfSchema(_, cs) =>
        var i :| 0 <= i < |cs| && !Accepts(cs[i], d);
        var path :| AtFault(cs[i], d, path);
        FaultInChoice(s, i, d, path);
      case ListSchema(_, _, _, _) => FaultInItems(s, d);
      case TupleSchema(_, _, _) => FaultInItems(s, d);
      case ObjectSchema(_, _, _, _) =>
        if d.Obj? {
          FaultInFields(s, d);
        } else {
          FaultHere(s, d);
        }
      case MethodSchema(_, _, res, _) =>
        if FailsItself(s, d) {
          FaultHere(s, d);
        } else if HasParams(d) {
          FaultInParamList(s, d);
        } else {
          var path :| AtFault(res, d.fields["result"], path);
          FaultInResult(s, d, path);
        }
      case _ => FaultHere(s, d);
    }
  }

  /** A fault anywhere is a reason to reject the whole: a reported position is never noise. */
  lemma {:induction false} FaultIsReason(s: Schema, d: Value, path: seq<string>)
    requires AtFault(s, d, path)
    ensures !Accepts(s, d)
  {
    var demand :| Leads(s, d, path, demand) && Refuses(demand, Walk(d, path));
    FaultIsReasonFor(s, d, path, demand);
  }

  lemma FailureIsReason(s: Schema, d: Value)
    requires FailsItself(s, d)
    ensures !Accepts(s, d)
  {
  }

  lemma {:induction false} FaultIsReasonFor(s: Schema, d: Value, path: seq<string>, demand: Demand)
    requires Leads(s, d, path, demand) && Refuses(demand, Walk(d, path))
    ensures !Accepts(s, d)
    decreases s
  {
    if path == [] && demand == Satisfy(s) {
      FailureIsReason(s, d);
      return;
    }
    match s {
      case AllOfSchema(_, cs) =>
        var i :| 0 <= i < |cs| && Leads(cs[i], d, path, demand);
        FaultIsReasonFor(cs[i], d, path, demand);
      case ListSchema(_, item, _, _) =>
        FaultIsReasonFor(item, Step(d, path[0]).v, path[1..], demand);
      case TupleSchema(_, cs, extra) =>
        FaultIsReasonFor(ElementSchema(cs, extra, IndexIn(path[0])), Step(d, path[0]).v, path[1..], demand);
      case ObjectSchema(_, props, req, extra) =>
        var name := path[0][1..];
        if Step(d, path[0]).Found? {
          assert Walk(d, path) == Walk(Step(d, path[0]).v, path[1..]);
          if |path| > 1 || demand != Present {
            FaultIsReasonFor(if name in props then props[name] else extra, Step(d, path[0]).v, path[1..], demand);
          }
        }
      case MethodSchema(_, ps, res, extra) =>
        if path == [".params"] && demand == ParamCount(ps, extra) {
          assert Step(d, ".params") == Walk(d, path);
        } else if |path| > 1 && path[0] == ".params" {
          var vs := d.fields["params"];
          assert Step(d, path[0]) == Found(vs);
          assert path[1..][1..] == path[2..] && path[1..][0] == path[1];
          assert Walk(d, path) == Walk(vs, path[1..]) == Walk(Step(vs, path[1]).v, path[2..]);
          FaultIsReasonFor(ElementSchema(ps, extra, IndexIn(path[1])), Step(vs, path[1]).v, path[2..], demand);
        } else {
          FaultIsReasonFor(res, Step(d, path[0]).v, path[1..], demand);
        }
    }
  }
}
