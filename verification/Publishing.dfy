/** `Actor.PublicSchemas`: what a server tells of its methods. */
module Publishing {
  import opened Values
  import opened Schemas
  import opened Meaning
  import opened Messages
  import opened Printer
  import opened BuildSpec
  import opened Dispatch
  import opened Actors
  import opened Relaxation
  import RoundTrip

  predicate AlphaNumeric(c: char) {
    '0' <= c <= '9' || 'a' <= c <= 'z' || 'A' <= c <= 'Z'
  }

  /** `IsPublicMethod`. */
  predicate IsPublicMethod(name: string) {
    && !("rpc." <= name)
    && name != "" && AlphaNumeric(name[0])
    && forall i | 1 <= i < |name| :: AlphaNumeric(name[i]) || name[i] in "-_:+./\\&#"
  }

  /** Which names are public: no name that begins with `rpc.`, no empty name, and otherwise a letter
      or a digit, and then any number of letters, digits and the characters `- _ : + . / \ & #`. */
  lemma PublicNamesAre(name: string, c: char)
    ensures !IsPublicMethod("") && !IsPublicMethod("rpc." + name)
    ensures IsPublicMethod([c]) <==>
      var n := c as int; 48 <= n <= 57 || 65 <= n <= 90 || 97 <= n <= 122
    ensures IsPublicMethod(name) && !("rpc." <= name + [c]) ==>
      (IsPublicMethod(name + [c]) <==>
        var n := c as int; 48 <= n <= 57 || 65 <= n <= 90 || 97 <= n <= 122 || n in {45, 95, 58, 43, 46, 47, 92, 38, 35})
    ensures |name| > 0 && IsPublicMethod(name + [c]) ==> IsPublicMethod(name)
  {
    assert ("rpc." + name)[..4] == "rpc.";
    TailCharacter(c);
    if |name| > 0 {
      var long := name + [c];
      assert long[|name|] == c && forall i | 0 <= i < |name| :: long[i] == name[i];
      if "rpc." <= name {
        assert long[..4] == name[..4];
      }
    }
  }

  lemma TailCharacter(c: char)
    ensures AlphaNumeric(c) || c in "-_:+./\\&#" <==>
      var n := c as int; 48 <= n <= 57 || 65 <= n <= 90 || 97 <= n <= 122 || n in {45, 95, 58, 43, 46, 47, 92, 38, 35}
    ensures AlphaNumeric(c) <==> var n := c as int; 48 <= n <= 57 || 65 <= n <= 90 || 97 <= n <= 122
  {
    var tail := "-_:+./\\&#";
    assert |tail| == 9 && tail[0] as int == 45 && tail[1] as int == 95 && tail[2] as int == 58 && tail[3] as int == 43;
    assert tail[4] as int == 46 && tail[5] as int == 47 && tail[6] as int == 92 && tail[7] as int == 38 && tail[8] as int == 35;
    if c in tail {
      var i :| 0 <= i < 9 && tail[i] == c;
    }
    if c as int in {45, 95, 58, 43, 46, 47, 92, 38, 35} {
      assert exists i :: 0 <= i < 9 && tail[i] as int == c as int;
    }
  }

  /** The entry of a method without a schema. */
  function DefaultEntry(name: string): Value {
    Obj(map["name" := Str(name), "description" := Str(""), "params" := List([]), "returns" := Obj(map["type" := Str("any")])])
  }

  /** `entry` is what is published of `name`. */
  ghost predicate IsEntry(t: ActorTree, name: string, entry: Value) {
    match GetSchema(t, name)
    case Some(s) => exists j :: PrintsAs(s, j) && entry == Published(j, name)
    case None => entry == DefaultEntry(name)
  }

  function PublicNames(names: seq<string>): seq<string> {
    if names == [] then []
    else (if IsPublicMethod(names[0]) then [names[0]] else []) + PublicNames(names[1..])
  }

  lemma {:induction false} PublicNamesAppend(names: seq<string>, name: string)
    ensures PublicNames(names + [name]) == PublicNames(names) + (if IsPublicMethod(name) then [name] else [])
  {
    hide IsPublicMethod;
    if names == [] {
      assert names + [name] == [name] && [name][1..] == [];
    } else {
      assert (names + [name])[1..] == names[1..] + [name];
      PublicNamesAppend(names[1..], name);
    }
  }

  /** The public names of a list are those in it that are public, as often as they are there and in
      its order. */
  lemma {:induction false} PublicNamesOf(a: seq<string>, b: seq<string>, name: string)
    ensures PublicNames(a + b) == PublicNames(a) + PublicNames(b)
    ensures multiset(PublicNames(a))[name] == if IsPublicMethod(name) then multiset(a)[name] else 0
  {
    hide IsPublicMethod;
    if a == [] {
      assert a + b == b;
    } else {
      assert (a + b)[1..] == a[1..] + b;
      assert a == [a[0]] + a[1..];
      PublicNamesOf(a[1..], b, name);
    }
  }

  /** `names` is the list of methods that the entries were made from, in its order. */
  method PublicSchemas(a: Actor) returns (methods: seq<Value>, names: seq<string>)
    requires a.Valid()
    ensures IsListOf(a.View(), names) && multiset(names) == Registered(a.View())
    ensures |methods| == |PublicNames(names)|
    ensures forall i | 0 <= i < |methods| :: IsEntry(a.View(), PublicNames(names)[i], methods[i])
  {
    hide Registered, GetSchema, IsPublicMethod, PrintsAs, Whole, Published, IsListOf, IsEntry, Actor.View;
    ghost var t := a.View();
    methods := [];
    names := a.MethodList();
    for i := 0 to |names|
      invariant a.Valid() && a.View() == t
      invariant |methods| == |PublicNames(names[..i])|
      invariant forall k | 0 <= k < |methods| :: IsEntry(t, PublicNames(names[..i])[k], methods[k])
    {
      PublicNamesAppend(names[..i], names[i]);
      assert names[..i + 1] == names[..i] + [names[i]];
      if IsPublicMethod(names[i]) {
        var entry := EntryOf(a, names[i]);
        methods := methods + [entry];
      }
    }
    assert names[..|names|] == names;
  }

  method EntryOf(a: Actor, name: string) returns (entry: Value)
    requires a.Valid()
    ensures IsEntry(a.View(), name, entry)
  {
    hide GetSchema, PrintsAs, Whole;
    var s := a.GetSchema(name);
    if s.Some? {
      var j := Map(s.value);
      PrintIsTable(s.value, j);
      entry := Published(j, name);
    } else {
      entry := DefaultEntry(name);
    }
  }

  lemma PrintIsTable(s: Schema, j: Value)
    requires PrintsAs(s, j)
    ensures j.Obj?
  {
  }

  /** What a client makes of the published entry of a method accepts every call that the
      server's schema accepts, where what `Map` forgets only loosens it. */
  lemma EntryIsRelaxed(t: ActorTree, name: string, entry: Value, d: Value)
    requires IsEntry(t, name, entry) && GetSchema(t, name).Some? && name != ""
    requires var s := GetSchema(t, name).value; Whole(s) && RoundTripable(s) && Accepts(s, d)
    ensures Build(Reread(entry)).Some? && Accepts(Build(Reread(entry)).value, d)
  {
    var s := GetSchema(t, name).value;
    var j :| PrintsAs(s, j) && entry == Published(j, name);
    PublishedSchemaIsRelaxed(s, j, name, d);
  }

  ghost predicate RoundTripable(s: Schema) {
    RoundTrip.Printable(s) && OneWay(s, Loosens)
  }

  /** A method without a schema takes any parameters, but what a client makes of its entry
      accepts a call exactly when it has none. */
  lemma DefaultEntryIsStrict(name: string, d: Value)
    ensures Build(Reread(DefaultEntry(name))) == Some(MethodSchema(Mixin(name, ""), [], AnySchema(PLAIN), NoSchema))
    ensures HasParams(d) ==>
      (Accepts(MethodSchema(Mixin(name, ""), [], AnySchema(PLAIN), NoSchema), d) <==> d.fields["params"].items == [])
  {
    DefaultEntryBuilds(name);
  }

  lemma DefaultEntryBuilds(name: string)
    ensures Build(Reread(DefaultEntry(name))) == Some(MethodSchema(Mixin(name, ""), [], AnySchema(PLAIN), NoSchema))
  {
    hide Build, BuildKind, BuildReturns, BuildNodes, IsJson, Reread, KindOf;
    var e := DefaultEntry(name);
    EntryIsJson(name);
    RereadIsJson(e);
    DefaultKind(e.fields);
    ResultBuilds(e.fields["returns"]);
    NoParams();
    MethodAssembles(e.fields);
    NodeOfKind(e.fields, MethodKind);
  }

  lemma EntryIsJson(name: string)
    ensures IsJson(DefaultEntry(name))
  {
    assert IsJson(Obj(map["type" := Str("any")]));
  }

  lemma DefaultKind(f: map<string, Value>)
    requires "type" !in f && "params" in f
    ensures KindOf(NoDefault, f) == Some(MethodKind)
  {
  }

  lemma ResultBuilds(v: Value)
    requires v == Obj(map["type" := Str("any")])
    ensures BuildReturns(v) == Some(AnySchema(PLAIN))
  {
    assert KindOf(DefaultAny, v.fields) == Some(AnyKind);
  }

  lemma NoParams()
    ensures BuildNodes(List([])) == Some([])
  {
  }

  lemma NodeOfKind(f: map<string, Value>, kind: Kind)
    requires KindOf(NoDefault, f) == Some(kind)
    ensures Build(Obj(f)) == Named(BuildKind(kind, f, Obj(f)), f)
  {
    hide KindOf, BuildKind, Named;
  }
}
