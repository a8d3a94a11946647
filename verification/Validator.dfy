/** `SchemaValidator`: running a schema against data, with a path stack kept in a growing
    array that several error reports could share, but must not. */
module Validator {
  import opened Values
  import opened Schemas
  import opened Meaning

  /** A rejection: its own copy of the path, and a hint. */
  class ErrorPos {
    const paths: array<string>
    const hint: string

    constructor (paths: array<string>, hint: string)
      ensures this.paths == paths && this.hint == hint
    {
      this.paths := paths;
      this.hint := hint;
    }

    /** The report says: under `entry`, there is a fault that makes `s` reject `d`. */
    ghost predicate Reports(entry: seq<string>, s: Schema, d: Value)
      reads paths
    {
      entry <= paths[..] && AtFault(s, d, paths[..][|entry|..])
    }
  }

  function Segments(path: string): seq<string> {
    if path == "" then [] else [path]
  }

  class SchemaValidator {
    var buf: array<string>
    var len: nat

    ghost predicate Valid()
      reads this
    {
      len <= buf.Length
    }

    /** The path stack, bottom first. */
    ghost function Paths(): seq<string>
      requires Valid()
      reads this, buf
    {
      buf[..len]
    }

    /** The stack is as it was at the start, in the same array or in one made since. */
    twostate predicate Balanced()
      requires old(Valid())
      reads this, buf
    {
      Valid() && Paths() == old(Paths()) && (buf == old(buf) || fresh(buf))
    }

    constructor ()
      ensures Valid() && Paths() == [] && fresh(buf)
    {
      buf := new string[0];
      len := 0;
    }

    /** Go's `append`: in place while there is room, otherwise into a larger array. */
    method PushPath(path: string)
      requires Valid()
      modifies this, buf
      ensures Valid() && Paths() == old(Paths()) + Segments(path)
      ensures buf == old(buf) || fresh(buf)
    {
      if path != "" {
        if len == buf.Length {
          var larger := new string[2 * len + 1];
          forall i | 0 <= i < len {
            larger[i] := buf[i];
          }
          buf := larger;
        }
        buf[len] := path;
        len := len + 1;
      }
    }

    /** The precondition is the absence of the panic "pop path is different from stack top". */
    method PopPath(path: string)
      requires Valid()
      requires path != "" ==> Paths() != [] && Paths()[|Paths()| - 1] == path
      modifies this`len
      ensures Valid() && Paths() == old(Paths())[..|old(Paths())| - |Segments(path)|]
    {
      if path != "" {
        len := len - 1;
      }
    }

    method NewErrorPos(hint: string) returns (err: ErrorPos)
      requires Valid()
      ensures fresh(err) && fresh(err.paths) && err.paths != buf && err.hint == hint
      ensures err.paths[..] == Paths()
    {
      var copy := new string[len];
      forall i | 0 <= i < len {
        copy[i] := buf[i];
      }
      err := new ErrorPos(copy, hint);
    }

    /** The report of a datum that is rejected for what it is itself. */
    method Reject(hint: string, ghost s: Schema, ghost d: Value) returns (err: ErrorPos?)
      requires Valid() && FailsItself(s, d)
      ensures err != null && fresh(err) && fresh(err.paths) && err.paths[..] == Paths() && err.Reports(Paths(), s, d)
    {
      err := NewErrorPos(hint);
      FaultHere(s, d);
      assert err.paths[..][|Paths()|..] == [];
    }

    method Validate(schema: Schema, data: Value) returns (err: ErrorPos?)
      requires Valid() && Whole(schema)
      modifies this, buf
      ensures Balanced()
      ensures err == null <==> Accepts(schema, data)
      ensures err != null ==> fresh(err) && fresh(err.paths) && err.paths != buf && err.Reports(old(Paths()), schema, data)
    {
      hide Accepts, AtFault, Whole;
      err := Scan(schema, "", data);
    }

    /** A report given out earlier, which is not in the stack's array, is not changed by
        validating again, and the new report is apart from it. */
    method ValidateAgain(earlier: ErrorPos, schema: Schema, data: Value) returns (err: ErrorPos?)
      requires Valid() && Whole(schema) && earlier.paths != buf
      modifies this, buf
      ensures Balanced() && earlier.paths != buf
      ensures earlier.paths[..] == old(earlier.paths[..])
      ensures err == null <==> Accepts(schema, data)
      ensures err != null ==> err.paths != earlier.paths && err.paths != buf
    {
      hide Accepts, AtFault, Whole;
      err := Validate(schema, data);
    }

    method Scan(schema: Schema, path: string, data: Value) returns (err: ErrorPos?)
      requires Valid() && Whole(schema)
      modifies this, buf
      ensures Balanced()
      ensures err == null <==> Accepts(schema, data)
      ensures err != null ==>
        fresh(err) && fresh(err.paths) && err.paths != buf && err.Reports(old(Paths()) + Segments(path), schema, data)
      decreases schema, 5
    {
      hide Accepts, AtFault, Whole;
      ghost var entry := Paths();
      PushPath(path);
      err := ScanSchema(schema, data);
      PopPath(path);
      assert Paths() == entry;
    }

    method ScanSchema(s: Schema, data: Value) returns (err: ErrorPos?)
      requires Valid() && Whole(s)
      modifies this, buf
      ensures Balanced()
      ensures err == null <==> Accepts(s, data)
      ensures err != null ==> fresh(err) && fresh(err.paths) && err.paths != buf && err.Reports(old(Paths()), s, data)
      decreases s, 4
    {
      err := null;
      match s {
        case AnySchema(_) =>
        case NullSchema(_) =>
          if !data.Null? {
            err := Reject("data is not null", s, data);
          }
        case BoolSchema(_) =>
          if !data.Bool? {
            err := Reject("data is not bool", s, data);
          }
        case NumberSchema(_, _, _, _, _) => err := ScanNumber(s, data);
        case IntegerSchema(_, _, _, _, _) => err := ScanInteger(s, data);
        case StringSchema(_, max, min) =>
          if !data.Str? {
            err := Reject("data is not string", s, data);
          } else if max.Some? && |data.s| > max.value {
            err := Reject("len(str) > maxLength", s, data);
          } else if min.Some? && |data.s| < min.value {
            err := Reject("len(str) < minLength", s, data);
          }
        case AnyOfSchema(_, _) => err := ScanAnyOf(s, data);
        case AllOfSchema(_, _) => err := ScanAllOf(s, data);
        case NotSchema(_, child) =>
          var inner := ScanSchema(child, data);
          if inner == null {
            err := Reject("not validator failed", s, data);
          }
        case ListSchema(_, _, _, _) => err := ScanList(s, data);
        case TupleSchema(_, _, _) => err := ScanTuple(s, data);
        case MethodSchema(_, _, _, _) => err := ScanMethod(s, data);
        case ObjectSchema(_, _, _, _) => err := ScanObject(s, data);
      }
    }

    method ScanNumber(s: Schema, data: Value) returns (err: ErrorPos?)
      requires Valid() && s.NumberSchema?
      ensures err == null <==> Accepts(s, data)
      ensures err != null ==> fresh(err) && fresh(err.paths) && err.paths != buf && err.Reports(Paths(), s, data)
    {
      var v: real;
      match data {
        case Number(lit) => v := LiteralFloat64(lit);
        case Int(i) => v := i as real;
        case Float(r) => v := r;
        case _ =>
          err := Reject("data is not number", s, data);
          return;
      }
      if s.fMaximum.Some? {
        var exmax := false;
        if s.exclusiveMaximum.Some? {
          exmax := s.exclusiveMaximum.value;
        }
        if exmax && s.fMaximum.value <= v {
          err := Reject("value >= maximum", s, data);
          return;
        }
        if !exmax && s.fMaximum.value < v {
          err := Reject("value > maximum", s, data);
          return;
        }
      }
      if s.fMinimum.Some? {
        var exmin := false;
        if s.exclusiveMinimum.Some? {
          exmin := s.exclusiveMinimum.value;
        }
        if !exmin && s.fMinimum.value > v {
          err := Reject("value < minimum", s, data);
          return;
        }
        if exmin && s.fMinimum.value >= v {
          err := Reject("value <= minimum", s, data);
          return;
        }
      }
      return null;
    }

    method ScanInteger(s: Schema, data: Value) returns (err: ErrorPos?)
      requires Valid() && s.IntegerSchema?
      ensures err == null <==> Accepts(s, data)
      ensures err != null ==> fresh(err) && fresh(err.paths) && err.paths != buf && err.Reports(Paths(), s, data)
    {
      var v: Option<Int64> := None;
      match data {
        case Number(lit) => v := LiteralInt64(lit);
        case Int(i) => v := Some(i);
        case _ =>
      }
      if v.None? {
        err := Reject("data is not integer", s, data);
        return;
      }
      if s.iMaximum.Some? {
        var exmax := false;
        if s.exclusiveMaximum.Some? {
          exmax := s.exclusiveMaximum.value;
        }
        if exmax && s.iMaximum.value <= v.value {
          err := Reject("value >= maximum", s, data);
          return;
        }
        if !exmax && s.iMaximum.value < v.value {
          err := Reject("value > maximum", s, data);
          return;
        }
      }
      if s.iMinimum.Some? {
        var exmin := false;
        if s.exclusiveMinimum.Some? {
          exmin := s.exclusiveMinimum.value;
        }
        if !exmin && s.iMinimum.value > v.value {
          err := Reject("value < minimum", s, data);
          return;
        }
        if exmin && s.iMinimum.value >= v.value {
          err := Reject("value <= minimum", s, data);
          return;
        }
      }
      return null;
    }

    method ScanAnyOf(s: Schema, data: Value) returns (err: ErrorPos?)
      requires Valid() && Whole(s) && s.AnyOfSchema?
      modifies this, buf
      ensures Balanced()
      ensures err == null <==> Accepts(s, data)
      ensures err != null ==> fresh(err) && fresh(err.paths) && err.paths != buf && err.Reports(old(Paths()), s, data)
      decreases s, 1
    {
      for i := 0 to |s.choices|
        invariant Balanced()
        invariant forall j | 0 <= j < i :: !Accepts(s.choices[j], data)
      {
        var inner := Scan(s.choices[i], "", data);
        if inner == null {
          return null;
        }
      }
      err := Reject("data is not any of the types", s, data);
    }

    method ScanAllOf(s: Schema, data: Value) returns (err: ErrorPos?)
      requires Valid() && Whole(s) && s.AllOfSchema?
      modifies this, buf
      ensures Balanced()
      ensures err == null <==> Accepts(s, data)
      ensures err != null ==> fresh(err) && fresh(err.paths) && err.paths != buf && err.Reports(old(Paths()), s, data)
      decreases s, 1
    {
      hide AtFault;
      for i := 0 to |s.choices|
        invariant Balanced()
        invariant forall j | 0 <= j < i :: Accepts(s.choices[j], data)
      {
        err := Scan(s.choices[i], "", data);
        if err != null {
          assert old(Paths()) + Segments("") == old(Paths());
          FaultInChoice(s, i, data, err.paths[..][|old(Paths())|..]);
          return;
        }
      }
      return null;
    }

    method ScanList(s: Schema, data: Value) returns (err: ErrorPos?)
      requires Valid() && Whole(s) && s.ListSchema?
      modifies this, buf
      ensures Balanced()
      ensures err == null <==> Accepts(s, data)
      ensures err != null ==> fresh(err) && fresh(err.paths) && err.paths != buf && err.Reports(old(Paths()), s, data)
      decreases s, 1
    {
      hide AtFault;
      if !data.List? {
        err := Reject("data is not a list", s, data);
        return;
      }
      if s.maxItems.Some? && |data.items| > s.maxItems.value {
        err := Reject("len(items) > maxItems", s, data);
        return;
      }
      if s.minItems.Some? && |data.items| < s.minItems.value {
        err := Reject("len(items) < minItems", s, data);
        return;
      }
      for i := 0 to |data.items|
        invariant Balanced()
        invariant forall j | 0 <= j < i :: Accepts(s.item, data.items[j])
      {
        err := Scan(s.item, IndexSegment(i), data.items[i]);
        if err != null {
          var below := Below(err.paths[..], old(Paths()), [IndexSegment(i)]);
          FaultAtIndex(s, data, i, below);
          return;
        }
      }
      return null;
    }

    method ScanTuple(s: Schema, data: Value) returns (err: ErrorPos?)
      requires Valid() && Whole(s) && s.TupleSchema?
      modifies this, buf
      ensures Balanced()
      ensures err == null <==> Accepts(s, data)
      ensures err != null ==> fresh(err) && fresh(err.paths) && err.paths != buf && err.Reports(old(Paths()), s, data)
      decreases s, 1
    {
      hide AtFault;
      if !data.List? {
        err := Reject("data is not a list", s, data);
        return;
      }
      var n := |s.children|;
      if s.additionalItems == NoSchema {
        if |data.items| != n {
          err := Reject("tuple items length mismatch", s, data);
          return;
        }
      } else {
        if |data.items| < n {
          err := Reject("data items length smaller than expected", s, data);
          return;
        }
      }
      for i := 0 to n
        invariant Balanced()
        invariant forall j | 0 <= j < i :: Accepts(s.children[j], data.items[j])
      {
        err := Scan(s.children[i], IndexSegment(i), data.items[i]);
        if err != null {
          var below := Below(err.paths[..], old(Paths()), [IndexSegment(i)]);
          FaultAtIndex(s, data, i, below);
          return;
        }
      }
      if s.additionalItems != NoSchema {
        for i := n to |data.items|
          invariant Balanced()
          invariant forall j | n <= j < i :: Accepts(s.additionalItems, data.items[j])
        {
          err := Scan(s.additionalItems, IndexSegment(i), data.items[i]);
          if err != null {
            var below := Below(err.paths[..], old(Paths()), [IndexSegment(i)]);
            FaultAtIndex(s, data, i, below);
            return;
          }
        }
      }
      return null;
    }

    method ScanMethod(s: Schema, data: Value) returns (err: ErrorPos?)
      requires Valid() && Whole(s) && s.MethodSchema?
      modifies this, buf
      ensures Balanced()
      ensures err == null <==> Accepts(s, data)
      ensures err != null ==> fresh(err) && fresh(err.paths) && err.paths != buf && err.Reports(old(Paths()), s, data)
      decreases s, 3
    {
      if !data.Obj? {
        err := Reject("data is not object", s, data);
      } else if "params" in data.fields && data.fields["params"].List? {
        err := ScanParams(s, data, data.fields["params"].items);
      } else if "result" in data.fields {
        err := ScanResult(s, data, data.fields["result"]);
      } else {
        err := Reject("data is not a JSONRPC message", s, data);
      }
    }

    /** `data` is the message that `params` was taken from. */
    method ScanParams(s: Schema, ghost data: Value, params: seq<Value>) returns (err: ErrorPos?)
      requires Valid() && Whole(s) && s.MethodSchema?
      requires HasParams(data) && data.fields["params"].items == params
      modifies this, buf
      ensures Balanced()
      ensures err == null <==> Accepts(s, data)
      ensures err != null ==> fresh(err) && fresh(err.paths) && err.paths != buf && err.Reports(old(Paths()), s, data)
      decreases s, 2
    {
      hide AtFault;
      ghost var entry := Paths();
      PushPath(".params");
      err := ScanParamList(s, params);
      if err != null {
        FaultUnderParams(s, data, err.paths[..], old(Paths()));
      }
      PopPath(".params");
      assert Paths() == entry;
    }

    /** The body of `ScanParams` between its push and its deferred pop. */
    method ScanParamList(s: Schema, params: seq<Value>) returns (err: ErrorPos?)
      requires Valid() && Whole(s) && s.MethodSchema?
      modifies this, buf
      ensures Balanced()
      ensures err == null <==>
        && |s.params| <= |params|
        && (s.additionalParams == NoSchema ==> |params| == |s.params|)
        && (forall i | 0 <= i < |s.params| :: Accepts(s.params[i], params[i]))
        && (forall i | |s.params| <= i < |params| :: Accepts(s.additionalParams, params[i]))
      ensures err != null ==>
        && fresh(err) && fresh(err.paths) && err.paths != buf && old(Paths()) <= err.paths[..]
        && ParamFault(s, params, err.paths[..][|old(Paths())|..])
      decreases s, 0
    {
      hide AtFault;
      var n := |s.params|;
      if |params| < n {
        err := NewErrorPos("length of params mismatch");
        return;
      }
      for i := 0 to n
        invariant Balanced()
        invariant forall j | 0 <= j < i :: Accepts(s.params[j], params[j])
      {
        err := Scan(s.params[i], IndexSegment(i), params[i]);
        if err != null {
          var below := Below(err.paths[..], old(Paths()), [IndexSegment(i)]);
          assert ElementSchema(s.params, s.additionalParams, i) == s.params[i];
          assert ([IndexSegment(i)] + below)[1..] == below;
          return;
        }
      }
      if |params| > n {
        if s.additionalParams == NoSchema {
          err := NewErrorPos("length of params mismatch");
          return;
        }
        for i := n to |params|
          invariant Balanced()
          invariant forall j | n <= j < i :: Accepts(s.additionalParams, params[j])
        {
          err := Scan(s.additionalParams, IndexSegment(i), params[i]);
          if err != null {
            var below := Below(err.paths[..], old(Paths()), [IndexSegment(i)]);
            assert ElementSchema(s.params, s.additionalParams, i) == s.additionalParams;
            assert ([IndexSegment(i)] + below)[1..] == below;
            return;
          }
        }
      }
      return null;
    }

    method ScanResult(s: Schema, ghost data: Value, result: Value) returns (err: ErrorPos?)
      requires Valid() && Whole(s) && s.MethodSchema?
      requires data.Obj? && !HasParams(data) && "result" in data.fields && data.fields["result"] == result
      modifies this, buf
      ensures Balanced()
      ensures err == null <==> Accepts(s, data)
      ensures err != null ==> fresh(err) && fresh(err.paths) && err.paths != buf && err.Reports(old(Paths()), s, data)
      decreases s, 0
    {
      if s.result != NoSchema {
        err := Scan(s.result, ".result", result);
        if err != null {
          var below := Below(err.paths[..], old(Paths()), [".result"]);
          FaultInResult(s, data, below);
        }
      } else {
        err := null;
      }
    }

    /** The property map and the data map are each visited in an arbitrary order. */
    method ScanObject(s: Schema, data: Value) returns (err: ErrorPos?)
      requires Valid() && Whole(s) && s.ObjectSchema?
      modifies this, buf
      ensures Balanced()
      ensures err == null <==> Accepts(s, data)
      ensures err != null ==> fresh(err) && fresh(err.paths) && err.paths != buf && err.Reports(old(Paths()), s, data)
      decreases s, 3
    {
      if !data.Obj? {
        err := Reject("data is not an object", s, data);
        return;
      }
      err := ScanDeclared(s, data);
      if err == null && s.additionalProperties != NoSchema {
        err := ScanUndeclared(s, data);
      }
    }

    /** The loop of `ObjectSchema.Scan` over the declared properties. */
    method ScanDeclared(s: Schema, data: Value) returns (err: ErrorPos?)
      requires Valid() && Whole(s) && s.ObjectSchema? && data.Obj?
      modifies this, buf
      ensures Balanced()
      ensures err == null <==> forall k | k in s.properties ::
        if k in data.fields then Accepts(s.properties[k], data.fields[k]) else k !in s.required
      ensures err != null ==> fresh(err) && fresh(err.paths) && err.paths != buf && err.Reports(old(Paths()), s, data)
      decreases s, 1
    {
      hide AtFault;
      var obj := data.fields;
      var todo := s.properties.Keys;
      while todo != {}
        invariant Balanced()
        invariant todo <= s.properties.Keys
        invariant forall k | k in s.properties.Keys - todo ::
          if k in obj then Accepts(s.properties[k], obj[k]) else k !in s.required
        decreases |todo|
      {
        var prop :| prop in todo;
        todo := todo - {prop};
        if prop in obj {
          err := Scan(s.properties[prop], NameSegment(prop), obj[prop]);
          if err != null {
            var below := Below(err.paths[..], old(Paths()), [NameSegment(prop)]);
            FaultAtName(s, data, prop, below);
            return;
          }
        } else if prop in s.required {
          PushPath(NameSegment(prop));
          err := NewErrorPos("required prop is not present");
          PopPath(NameSegment(prop));
          FaultMissing(s, data, prop);
          var below := Below(err.paths[..], old(Paths()), [NameSegment(prop)]);
          assert [NameSegment(prop)] + below == [NameSegment(prop)];
          return;
        }
      }
      return null;
    }

    /** The loop of `ObjectSchema.Scan` over the rest of the data. */
    method ScanUndeclared(s: Schema, data: Value) returns (err: ErrorPos?)
      requires Valid() && Whole(s) && s.ObjectSchema? && data.Obj? && s.additionalProperties != NoSchema
      modifies this, buf
      ensures Balanced()
      ensures err == null <==>
        forall k | k in data.fields && k !in s.properties :: Accepts(s.additionalProperties, data.fields[k])
      ensures err != null ==> fresh(err) && fresh(err.paths) && err.paths != buf && err.Reports(old(Paths()), s, data)
      decreases s, 1
    {
      hide AtFault;
      var obj := data.fields;
      var todo := obj.Keys;
      while todo != {}
        invariant Balanced()
        invariant todo <= obj.Keys
        invariant forall k | k in obj.Keys - todo && k !in s.properties :: Accepts(s.additionalProperties, obj[k])
        decreases |todo|
      {
        var prop :| prop in todo;
        todo := todo - {prop};
        if prop !in s.properties {
          err := Scan(s.additionalProperties, NameSegment(prop), obj[prop]);
          if err != null {
            var below := Below(err.paths[..], old(Paths()), [NameSegment(prop)]);
            FaultAtName(s, data, prop, below);
            return;
          }
        }
      }
      return null;
    }
  }

  /** A fault in call parameters, seen from the parameter list. */
  ghost predicate ParamFault(s: Schema, params: seq<Value>, path: seq<string>)
    requires s.MethodSchema?
  {
    if path == [] then
      |params| < |s.params| || (|params| > |s.params| && s.additionalParams == NoSchema)
    else
      exists i: nat :: i < |params| && path[0] == IndexSegment(i)
        && AtFault(ElementSchema(s.params, s.additionalParams, i), params[i], path[1..])
  }

  lemma FaultUnderParams(s: Schema, d: Value, full: seq<string>, entry: seq<string>)
    requires s.MethodSchema? && HasParams(d)
    requires entry + [".params"] <= full
    requires ParamFault(s, d.fields["params"].items, full[|entry + [".params"]|..])
    ensures entry <= full && AtFault(s, d, full[|entry|..])
  {
    hide AtFault, Accepts, Leads, Walk, HasParams, ParamFault;
    var path := Below(full, entry, [".params"]);
    ParamFaultIsFault(s, d, path);
  }

  lemma ParamFaultIsFault(s: Schema, d: Value, path: seq<string>)
    requires s.MethodSchema? && HasParams(d) && ParamFault(s, d.fields["params"].items, path)
    ensures AtFault(s, d, [".params"] + path)
  {
    hide AtFault, Accepts, Leads, Walk, IndexSegment;
    var params := d.fields["params"].items;
    if path == [] {
      FaultParamCount(s, d);
      assert [".params"] + path == [".params"];
    } else {
      var i: nat :| i < |params| && path[0] == IndexSegment(i)
        && AtFault(ElementSchema(s.params, s.additionalParams, i), params[i], path[1..]);
      FaultInParams(s, d, i, path[1..]);
      SegmentsJoin(".params", path);
    }
  }

  lemma SegmentsJoin(first: string, path: seq<string>)
    requires path != []
    ensures [first, path[0]] + path[1..] == [first] + path
  {
  }

  /** The part of a reported path below `entry + step`. */
  lemma Below(full: seq<string>, entry: seq<string>, step: seq<string>) returns (below: seq<string>)
    requires entry + step <= full
    ensures below == full[|entry + step|..]
    ensures entry <= full && full[|entry|..] == step + below
  {
    below := full[|entry + step|..];
  }
}
