/** What a build leaves of a tree, entry by entry. */
module TreesLeft {
  import opened Values
  import opened Schemas
  import opened BuildSpec
  import opened SchemaDocuments
  import Normalise

  /** The type that a build writes into a table that has none. */
  lemma TypeWritten(f: map<string, Value>)
    ensures Normalise.Added(Normalise.NodeRole, f.Keys) == TypeGuessed(f, map[])
    ensures Normalise.Added(Normalise.TableRole, f.Keys) == TypeGuessed(f, map[])
    ensures Normalise.Added(Normalise.ItemsRole, f.Keys) == TypeGuessed(f, map[])
    ensures Normalise.Added(Normalise.ReturnsRole, f.Keys) == TypeGuessed(f, map["type" := Str("any")])
  {
  }

  function TypeGuessed(f: map<string, Value>, otherwise: map<string, Value>): map<string, Value> {
    if "type" in f then map[]
    else if "params" in f then map["type" := Str("method")]
    else if "properties" in f then map["type" := Str("object")]
    else if "anyOf" in f then map["type" := Str("anyOf")]
    else if "allOf" in f then map["type" := Str("allOf")]
    else if "not" in f then map["type" := Str("not")]
    else otherwise
  }

  /** The table has the type `t`, or has none and it is guessed. */
  predicate ReadAs(f: map<string, Value>, t: string) {
    HasType(f, t) || ("type" !in f && TypeGuessed(f, map[]) == map["type" := Str(t)])
  }

  /** What a build leaves of a list of nodes, and of a table of properties. */
  function NodesLeft(v: Value): Value {
    if v.List? then List(seq(|v.items|, i requires 0 <= i < |v.items| => Normalise.Normal(Normalise.NodeRole, v.items[i]))) else v
  }

  function TableLeft(v: Value): Value {
    if v.Obj? then Obj((map k | k in v.fields :: Normalise.Normal(Normalise.NodeRole, v.fields[k])) + TypeGuessed(v.fields, map[])) else v
  }

  function NodeLeft(v: Value): Value {
    Normalise.Normal(Normalise.NodeRole, v)
  }

  /** What a build leaves of the entry `k` of a node of type `t`: it goes into every part that is
      a node, a list of nodes or a table of them, and leaves everything else alone. */
  function EntryLeft(t: string, f: map<string, Value>, k: string): Value
    requires k in f
  {
    if t in {"anyOf", "allOf"} && k == t then NodesLeft(f[k])
    else if t == "not" && k == "not" then NodeLeft(f[k])
    else if t == "list" && k == "items" then (if f[k].List? then NodesLeft(f[k]) else NodeLeft(f[k]))
    else if t == "list" && k == "additionalItems" && "items" in f && f["items"].List? then NodeLeft(f[k])
    else if t == "object" && k == "properties" then TableLeft(f[k])
    else if t == "object" && k == "additionalProperties" then NodeLeft(f[k])
    else if t == "method" && k == "params" then NodesLeft(f[k])
    else if t == "method" && k == "additionalParams" then NodeLeft(f[k])
    else if t == "method" && k == "returns" then Normalise.Normal(Normalise.ReturnsRole, f[k])
    else f[k]
  }

  /** The tree that a build leaves of a node, entry by entry, with its type. */
  lemma TreeLeft(f: map<string, Value>, t: string)
    requires ReadAs(f, t) && KindNamed(t).Some?
    ensures Normalise.Normal(Normalise.NodeRole, Obj(f)) == Obj((map k | k in f :: EntryLeft(t, f, k)) + TypeGuessed(f, map[]))
  {
    TypeWritten(f);
    TypeIsRead(f, t);
    forall k | k in f ensures Normalise.Normal(Normalise.EntryRole(Normalise.NodeRole, f, k), f[k]) == EntryLeft(t, f, k) {
      EntryIsLeft(f, t, k);
    }
    hide Normalise.EntryRole, EntryLeft, TypeGuessed, KindNamed, Normalise.Added;
    assert Normalise.Normal(Normalise.NodeRole, Obj(f)).fields == (map k | k in f :: EntryLeft(t, f, k)) + TypeGuessed(f, map[]);
  }

  lemma TypeIsRead(f: map<string, Value>, t: string)
    requires ReadAs(f, t)
    ensures KindOf(NoDefault, f) == KindNamed(t)
  {
    hide KindNamed;
    if "type" !in f {
      assert map["type" := Str(t)]["type"] == Str(t);
    }
  }

  lemma EntryIsLeft(f: map<string, Value>, t: string, k: string)
    requires k in f && KindNamed(t).Some? && KindOf(NoDefault, f) == KindNamed(t)
    ensures Normalise.Normal(Normalise.EntryRole(Normalise.NodeRole, f, k), f[k]) == EntryLeft(t, f, k)
  {
    RoleIs(f, t, k);
    TypeParts(f[k]);
    hide KindNamed, KindOf, Normalise.Normal;
  }

  lemma RoleIs(f: map<string, Value>, t: string, k: string)
    requires k in f && KindNamed(t).Some? && KindOf(NoDefault, f) == KindNamed(t)
    ensures Normalise.EntryRole(Normalise.NodeRole, f, k) ==
      if t in {"anyOf", "allOf"} && k == t then Normalise.NodesRole
      else if t == "not" && k == "not" then Normalise.NodeRole
      else if t == "list" && k == "items" then Normalise.ItemsRole
      else if t == "list" && k == "additionalItems" && "items" in f && f["items"].List? then Normalise.NodeRole
      else if t == "object" && k == "properties" then Normalise.TableRole
      else if t == "object" && k == "additionalProperties" then Normalise.NodeRole
      else if t == "method" && k == "params" then Normalise.NodesRole
      else if t == "method" && k == "additionalParams" then Normalise.NodeRole
      else if t == "method" && k == "returns" then Normalise.ReturnsRole
      else Normalise.PlainRole
  {
    hide KindOf;
  }

  lemma TypeParts(v: Value)
    ensures Normalise.Normal(Normalise.PlainRole, v) == v && Normalise.Normal(Normalise.NodesRole, v) == NodesLeft(v)
    ensures Normalise.Normal(Normalise.ItemsRole, v) == if v.List? then NodesLeft(v) else NodeLeft(v)
    ensures Normalise.Normal(Normalise.TableRole, v) == TableLeft(v)
  {
    if v.List? {
      ItemsLeft(v);
    } else {
      Normalise.ItemsAsNode(v, v);
    }
    TableIsLeft(v);
    hide Normalise.Normal, NodesLeft, TableLeft;
    PlainIsLeft(v);
  }

  lemma ItemsLeft(v: Value)
    requires v.List?
    ensures Normalise.Normal(Normalise.ItemsRole, v) == NodesLeft(v)
  {
  }

  lemma PlainIsLeft(v: Value)
    ensures Normalise.Normal(Normalise.PlainRole, v) == v && Normalise.Normal(Normalise.NodesRole, v) == NodesLeft(v)
  {
  }

  lemma TableIsLeft(v: Value)
    ensures Normalise.Normal(Normalise.TableRole, v) == TableLeft(v)
  {
    if v.Obj? {
      TypeWritten(v.fields);
      hide Normalise.Added, TypeGuessed;
      assert Normalise.Normal(Normalise.TableRole, v).fields == TableLeft(v).fields;
    }
  }
}
