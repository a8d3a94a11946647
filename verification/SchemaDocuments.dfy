/** The schema language, from its documents: when a table with a given type builds, and what the
    schema then accepts, in terms of the entries of the table.  Types without parts. */
module SchemaDocuments {
  import opened Values
  import opened Schemas
  import opened Meaning
  import opened BuildSpec
  import opened Verdicts
  import Normalise

  // ---- types, names and attributes -----------------------------------------------------------

  predicate HasType(f: map<string, Value>, t: string) {
    "type" in f && f["type"] == Str(t)
  }

  /** The name and the description, if there are any, are strings. */
  predicate Titled(f: map<string, Value>) {
    ("name" in f ==> f["name"].Str?) && ("description" in f ==> f["description"].Str?)
  }

  function Title(f: map<string, Value>): Mixin
    requires Titled(f)
  {
    Mixin(if "name" in f then f["name"].s else "", if "description" in f then f["description"].s else "")
  }

  /** The entry under `key` is the integer `n`. */
  predicate EntryIs(f: map<string, Value>, key: string, n: Int64) {
    key in f && IsInteger(f[key], n)
  }

  predicate EntryIsReal(f: map<string, Value>, key: string, r: real) {
    key in f && IsReal(f[key], r)
  }

  predicate Flag(f: map<string, Value>, key: string) {
    key in f && f[key] == Bool(true)
  }

  lemma LengthReads(f: map<string, Value>, key: string, n: Int64)
    ensures AttrLength(f, key) == Some(n) <==> EntryIs(f, key, n) && 0 <= n
    ensures AttrInt(f, key) == Some(n) <==> EntryIs(f, key, n)
  {
  }

  lemma RealReads(f: map<string, Value>, key: string, r: real)
    ensures AttrFloat(f, key) == Some(r) <==> EntryIsReal(f, key, r)
  {
  }

  lemma FlagReads(f: map<string, Value>, key: string)
    ensures AttrBool(f, key) == Some(true) <==> Flag(f, key)
  {
  }

  /** The twelve types, and no others. */
  lemma TypesAreKnown(t: string)
    ensures KindNamed(t).Some? <==> t in {"number", "integer", "bool", "any", "null", "string", "anyOf", "allOf", "not", "list",
                                          "object", "method"}
    ensures KindNamed("number") == Some(NumberKind) && KindNamed("integer") == Some(IntegerKind)
    ensures KindNamed("bool") == Some(BoolKind) && KindNamed("any") == Some(AnyKind) && KindNamed("null") == Some(NullKind)
    ensures KindNamed("string") == Some(StringKind) && KindNamed("anyOf") == Some(AnyOfKind)
    ensures KindNamed("allOf") == Some(AllOfKind) && KindNamed("not") == Some(NotKind)
    ensures KindNamed("list") == Some(ListKind) && KindNamed("object") == Some(ObjectKind)
    ensures KindNamed("method") == Some(MethodKind)
  {
  }

  /** A table with a type builds what its kind does, under its title. */
  lemma TypedBuilds(f: map<string, Value>, t: string, kind: Kind)
    requires HasType(f, t) && KindNamed(t) == Some(kind)
    ensures var k := BuildKind(kind, f, Obj(f));
      && (Build(Obj(f)).Some? <==> Titled(f) && k.Some?)
      && (Build(Obj(f)).Some? ==> Build(Obj(f)).value == WithMixin(k.value, Title(f)))
  {
    hide KindNamed, BuildKind, WithMixin;
    assert KindOf(NoDefault, f) == Some(kind);
  }

  lemma UnknownTypeFails(f: map<string, Value>)
    requires "type" in f
    requires f["type"].Str? ==> f["type"].s !in {"number", "integer", "bool", "any", "null", "string", "anyOf", "allOf", "not", "list",
                                                  "object", "method"}
    ensures Build(Obj(f)).None?
  {
    hide KindNamed;
    if f["type"].Str? {
      TypesAreKnown(f["type"].s);
    }
    assert KindOf(NoDefault, f) == None;
  }

  /** A table without a type is read as if it had one, by what else it has: the first of these.
      One that has none of them does not build. */
  lemma UntypedBuilds(f: map<string, Value>)
    requires "type" !in f
    ensures Build(Obj(f)) ==
      if "params" in f then Build(Obj(f["type" := Str("method")]))
      else if "properties" in f then Build(Obj(f["type" := Str("object")]))
      else if "anyOf" in f then Build(Obj(f["type" := Str("anyOf")]))
      else if "allOf" in f then Build(Obj(f["type" := Str("allOf")]))
      else if "not" in f then Build(Obj(f["type" := Str("not")]))
      else None
  {
    hide Build;
    if t :| t in {"params", "properties", "anyOf", "allOf", "not"} && t in f {
      TypedAlike(f, Guessed(f));
    } else {
      NothingToGuess(f);
    }
  }

  function Guessed(f: map<string, Value>): string {
    if "params" in f then "method"
    else if "properties" in f then "object"
    else if "anyOf" in f then "anyOf"
    else if "allOf" in f then "allOf"
    else "not"
  }

  lemma NothingToGuess(f: map<string, Value>)
    requires "type" !in f && "params" !in f && "properties" !in f && "anyOf" !in f && "allOf" !in f && "not" !in f
    ensures Build(Obj(f)).None?
  {
    assert Guess(f.Keys) == None;
    assert KindOf(NoDefault, f) == None;
  }

  lemma TypedAlike(f: map<string, Value>, t: string)
    requires "type" !in f && Guess(f.Keys) == Some(t)
    ensures Build(Obj(f)) == Build(Obj(f["type" := Str(t)]))
  {
    var g := f["type" := Str(t)];
    assert Normalise.Touched(Normalise.NodeRole, Obj(f), Obj(g)) by {
      TypeIsTouch(f, t);
    }
    Normalise.BuildAgain(Obj(f), Obj(g));
  }

  lemma TypeIsTouch(f: map<string, Value>, t: string)
    requires "type" !in f && Guess(f.Keys) == Some(t)
    ensures Normalise.Touched(Normalise.NodeRole, Obj(f), Obj(f["type" := Str(t)]))
  {
    hide Guess, KindOf;
    forall k | k in f ensures Normalise.Touched(Normalise.EntryRole(Normalise.NodeRole, f, k), f[k], f[k]) {
    }
  }

  /** A type name alone is the schema of that type without attributes, for the scalar types. */
  lemma TypeNameBuilds(t: string)
    ensures Build(Str(t)) ==
      if t == "string" then Some(StringSchema(PLAIN, None, None))
      else if t == "number" then Some(NumberSchema(PLAIN, None, None, None, None))
      else if t == "integer" then Some(IntegerSchema(PLAIN, None, None, None, None))
      else if t == "bool" then Some(BoolSchema(PLAIN))
      else if t == "null" then Some(NullSchema(PLAIN))
      else None
  {
    assert Build(Str(t)) == BuildWith(NoDefault, Str(t));
    assert SimpleType(t) <==> t in {"string", "number", "integer", "bool", "null"};
    if SimpleType(t) {
      assert Build(Str(t)) == Some(Simple(t));
    }
  }

  /** Nothing but tables and type names builds. */
  lemma OnlyTablesBuild(v: Value)
    ensures Build(v).Some? ==> v.Obj? || v.Str?
  {
    assert Build(v) == BuildWith(NoDefault, v);
  }

  // ---- scalars -------------------------------------------------------------------------------

  lemma ScalarDocument(f: map<string, Value>, d: Value)
    ensures HasType(f, "any") ==> (Build(Obj(f)).Some? <==> Titled(f)) && (Titled(f) ==> Accepts(Build(Obj(f)).value, d))
    ensures HasType(f, "null") ==>
      (Build(Obj(f)).Some? <==> Titled(f)) && (Titled(f) ==> (Accepts(Build(Obj(f)).value, d) <==> d == Null))
    ensures HasType(f, "bool") ==>
      (Build(Obj(f)).Some? <==> Titled(f)) && (Titled(f) ==> (Accepts(Build(Obj(f)).value, d) <==> d.Bool?))
  {
    TypesAreKnown("");
    hide KindNamed, Build;
    if HasType(f, "any") {
      TypedBuilds(f, "any", AnyKind);
    } else if HasType(f, "null") {
      TypedBuilds(f, "null", NullKind);
    } else if HasType(f, "bool") {
      TypedBuilds(f, "bool", BoolKind);
    }
  }

  /** A string node accepts the strings whose length is not over `maxLength` nor under
      `minLength`, where these are integers that are not negative. */
  lemma StringDocument(f: map<string, Value>, d: Value)
    requires HasType(f, "string")
    ensures Build(Obj(f)).Some? <==> Titled(f)
    ensures Titled(f) ==> (Accepts(Build(Obj(f)).value, d) <==>
      && d.Str?
      && (forall n: Int64 | 0 <= n && EntryIs(f, "maxLength", n) :: |d.s| <= n)
      && (forall n: Int64 | 0 <= n && EntryIs(f, "minLength", n) :: n <= |d.s|))
  {
    TypesAreKnown("");
    hide KindNamed, Build, AttrLength;
    TypedBuilds(f, "string", StringKind);
    forall n: Int64 ensures AttrLength(f, "maxLength") == Some(n) <==> EntryIs(f, "maxLength", n) && 0 <= n {
      LengthReads(f, "maxLength", n);
    }
    forall n: Int64 ensures AttrLength(f, "minLength") == Some(n) <==> EntryIs(f, "minLength", n) && 0 <= n {
      LengthReads(f, "minLength", n);
    }
  }

  /** An integer node accepts an integer that is under `maximum`, or is `maximum` where that is
      not exclusive, and so with `minimum`; and nothing else. */
  lemma IntegerDocument(f: map<string, Value>, d: Value)
    requires HasType(f, "integer")
    ensures Build(Obj(f)).Some? <==> Titled(f)
    ensures Titled(f) && Accepts(Build(Obj(f)).value, d) ==> exists k: Int64 :: IsInteger(d, k)
    ensures forall k: Int64 | Titled(f) && IsInteger(d, k) ::
      Accepts(Build(Obj(f)).value, d) <==>
        && (forall n: Int64 | EntryIs(f, "maximum", n) :: k < n || (k == n && !Flag(f, "exclusiveMaximum")))
        && (forall n: Int64 | EntryIs(f, "minimum", n) :: n < k || (k == n && !Flag(f, "exclusiveMinimum")))
  {
    TypesAreKnown("");
    hide KindNamed, Build, AttrInt, AttrBool, Accepts;
    TypedBuilds(f, "integer", IntegerKind);
    var lo, hi := AttrInt(f, "minimum"), AttrInt(f, "maximum");
    var exlo, exhi := AttrBool(f, "exclusiveMinimum"), AttrBool(f, "exclusiveMaximum");
    forall n: Int64 ensures (hi == Some(n) <==> EntryIs(f, "maximum", n)) && (lo == Some(n) <==> EntryIs(f, "minimum", n)) {
      LengthReads(f, "maximum", n);
      LengthReads(f, "minimum", n);
    }
    FlagReads(f, "exclusiveMaximum");
    FlagReads(f, "exclusiveMinimum");
    if Titled(f) {
      var m := Title(f);
      if Accepts(IntegerSchema(m, lo, hi, exlo, exhi), d) {
        OnlyIntegers(m, lo, hi, exlo, exhi, d);
      }
      forall k: Int64 | IsInteger(d, k)
        ensures Accepts(IntegerSchema(m, lo, hi, exlo, exhi), d) <==>
          && (lo.Some? ==> lo.value < k || (lo.value == k && exlo != Some(true)))
          && (hi.Some? ==> k < hi.value || (k == hi.value && exhi != Some(true)))
      {
        IntegerVerdict(m, lo, hi, exlo, exhi, d, k);
      }
    }
  }

  /** So with a number node and the real numbers. */
  lemma NumberDocument(f: map<string, Value>, d: Value)
    requires HasType(f, "number")
    ensures Build(Obj(f)).Some? <==> Titled(f)
    ensures Titled(f) && Accepts(Build(Obj(f)).value, d) ==> exists k: real :: IsReal(d, k)
    ensures forall k: real | Titled(f) && IsReal(d, k) ::
      Accepts(Build(Obj(f)).value, d) <==>
        && (forall r: real | EntryIsReal(f, "maximum", r) :: k < r || (k == r && !Flag(f, "exclusiveMaximum")))
        && (forall r: real | EntryIsReal(f, "minimum", r) :: r < k || (k == r && !Flag(f, "exclusiveMinimum")))
  {
    TypesAreKnown("");
    hide KindNamed, Build, AttrFloat, AttrBool, Accepts, IsReal;
    TypedBuilds(f, "number", NumberKind);
    var lo, hi := AttrFloat(f, "minimum"), AttrFloat(f, "maximum");
    var exlo, exhi := AttrBool(f, "exclusiveMinimum"), AttrBool(f, "exclusiveMaximum");
    forall r: real ensures (hi == Some(r) <==> EntryIsReal(f, "maximum", r)) && (lo == Some(r) <==> EntryIsReal(f, "minimum", r)) {
      RealReads(f, "maximum", r);
      RealReads(f, "minimum", r);
    }
    FlagReads(f, "exclusiveMaximum");
    FlagReads(f, "exclusiveMinimum");
    if Titled(f) {
      var m := Title(f);
      if Accepts(NumberSchema(m, lo, hi, exlo, exhi), d) {
        OnlyNumbers(m, lo, hi, exlo, exhi, d);
      }
      forall k: real | IsReal(d, k)
        ensures Accepts(NumberSchema(m, lo, hi, exlo, exhi), d) <==>
          && (lo.Some? ==> lo.value < k || (lo.value == k && exlo != Some(true)))
          && (hi.Some? ==> k < hi.value || (k == hi.value && exhi != Some(true)))
      {
        NumberVerdict(m, lo, hi, exlo, exhi, d, k);
      }
    }
  }
}
