/** What an actor tree does with a message: the recursive dispatch of `Actor.Feed`, and the
    flat search through the tree that it amounts to. */
module Dispatch {
  import opened Values
  import opened Schemas
  import opened Meaning
  import opened Messages

  /** A Go error, as `wrapResult` tells them apart. */
  datatype Failure =
    | Rpc(e: RPCError)
    | WrappedResponse(body: string)
    | Invalid(complaint: Complaint)
    | OtherError(text: string)

  /** The path and the hint of a rejection by the validator. */
  datatype Complaint = Complaint(path: seq<string>, hint: string)

  /** How a callback ends: with a value, with a message of its own, with an error, or in a
      panic, whose argument is an error or something else. */
  datatype Returned =
    | Gives(v: Value)
    | GivesMessage(msg: Message)
    | Fails(err: Failure)
    | PanicsWith(err: Failure)
    | Panics

  /** A callback's outcome may depend on the moment of the call. */
  type Callback = (Message, int) -> Returned

  /** `schema` is `NoSchema` for a method registered without one. */
  datatype Handler = Handler(callback: Callback, schema: Schema)

  datatype ActorTree = ActorTree(validates: bool, recovers: bool, handlers: map<string, Handler>,
                                 missing: Option<Callback>, children: seq<ActorTree>)

  /** The pair that `Feed` returns, or its panic. */
  datatype Fed = Silent | Replied(msg: Message) | Failed(err: Failure) | Panicked

  // ---- one handler ------------------------------------------------------------------------

  /** `wrapResult` with an error. */
  function WrapError(err: Failure, m: Message): Fed {
    if !m.Request? then Failed(err)
    else
      match err
      case Rpc(e) => Replied(ToMessage(e, m))
      case WrappedResponse(_) => Failed(err)
      case _ => Replied(ToMessage(ErrInternalError, m))
  }

  /** A callback's outcome through `wrapResult`, with or without the recovery from panics. */
  function WrapResult(recovers: bool, r: Returned, m: Message): Fed {
    match r
    case Gives(v) => if m.Request? then Replied(NewResultMessage(m, v)) else Silent
    case GivesMessage(msg) => if m.Request? then Replied(msg) else Silent
    case Fails(err) => WrapError(err, m)
    case PanicsWith(err) => if recovers then WrapError(err, m) else Panicked
    case Panics => Panicked
  }

  function Joined(path: seq<string>): string {
    if path == [] then "" else path[0] + Joined(path[1..])
  }

  /** `ErrorPos.ToMessage`. */
  function InvalidMessage(c: Complaint, m: Message): Message
    requires m.Request?
  {
    ToMessage(RPCError(-32633, "Validation Error: " + Joined(c.path) + " " + c.hint, Null), m)
  }

  ghost predicate Rejects(validates: bool, schema: Schema, m: Message) {
    schema != NoSchema && validates && !Accepts(schema, Obj(MessageMap(m)))
  }

  /** The actor `a` runs its own handler. */
  ghost function Run(a: ActorTree, h: Handler, m: Message, moment: int, c: Complaint): Fed {
    if Rejects(a.validates, h.schema, m) then
      if m.Request? then Replied(InvalidMessage(c, m)) else Failed(Invalid(c))
    else WrapResult(a.recovers, h.callback(m, moment), m)
  }

  /** The actor `a` has no handler for `m`. */
  function RunMissing(a: ActorTree, m: Message, moment: int): Fed {
    if a.missing.Some? then WrapResult(a.recovers && IsResponse(m), a.missing.value(m, moment), m)
    else if m.Request? then Replied(ToMessage(ErrMethodNotFound, m))
    else Silent
  }

  // ---- the recursive dispatch ---------------------------------------------------------------

  predicate Has(t: ActorTree, name: string) {
    name in t.handlers || exists i | 0 <= i < |t.children| :: Has(t.children[i], name)
  }

  /** The first child, from the `i`th, that has a handler for `name`. */
  function ChildWith(t: ActorTree, i: nat, name: string): (r: Option<nat>)
    requires i <= |t.children|
    ensures r.Some? ==> i <= r.value < |t.children| && Has(t.children[r.value], name)
    ensures forall j | i <= j < |t.children| && (r.Some? ==> j < r.value) :: !Has(t.children[j], name)
    decreases |t.children| - i
  {
    if i == |t.children| then None
    else if Has(t.children[i], name) then Some(i)
    else ChildWith(t, i + 1, name)
  }

  ghost function Feed(t: ActorTree, m: Message, moment: int, c: Complaint): Fed {
    if !IsResponse(m) then RunMissing(t, m, moment)
    else if m.methodName in t.handlers then Run(t, t.handlers[m.methodName], m, moment, c)
    else
      var i := ChildWith(t, 0, m.methodName);
      if i.Some? then Feed(t.children[i.value], m, moment, c) else RunMissing(t, m, moment)
  }

  /** How often each method is registered in the tree. */
  ghost function Registered(t: ActorTree): multiset<string>
    decreases t, |t.children| + 1
  {
    multiset(t.handlers.Keys) + RegisteredFrom(t, 0)
  }

  ghost function RegisteredFrom(t: ActorTree, i: nat): multiset<string>
    requires i <= |t.children|
    decreases t, |t.children| - i
  {
    if i == |t.children| then multiset{} else Registered(t.children[i]) + RegisteredFrom(t, i + 1)
  }

  function Concatenated(parts: seq<seq<string>>): seq<string> {
    if parts == [] then [] else Concatenated(parts[..|parts| - 1]) + parts[|parts| - 1]
  }

  /** `names` are the actor's own methods, in some order, and then the lists of its children, in
      theirs. */
  ghost predicate IsListOf(t: ActorTree, names: seq<string>) {
    exists own: seq<string>, parts: seq<seq<string>> ::
      && names == own + Concatenated(parts) && multiset(own) == multiset(t.handlers.Keys) && |parts| == |t.children|
      && forall i | 0 <= i < |parts| :: IsListOf(t.children[i], parts[i])
  }

  /** Such a list begins with the actor's own methods, and with one child goes on with the child's
      list. */
  lemma OwnMethodsComeFirst(t: ActorTree, names: seq<string>)
    requires IsListOf(t, names)
    ensures |t.handlers| <= |names| && multiset(names[..|t.handlers|]) == multiset(t.handlers.Keys)
    ensures |t.children| == 0 ==> |names| == |t.handlers|
    ensures |t.children| == 1 ==> IsListOf(t.children[0], names[|t.handlers|..])
  {
    var own: seq<string>, parts: seq<seq<string>> :|
      && names == own + Concatenated(parts) && multiset(own) == multiset(t.handlers.Keys) && |parts| == |t.children|
      && forall i | 0 <= i < |parts| :: IsListOf(t.children[i], parts[i]);
    assert |own| == |multiset(own)| == |multiset(t.handlers.Keys)| == |t.handlers.Keys| == |t.handlers|;
    assert names[..|own|] == own && names[|own|..] == Concatenated(parts);
    if |t.children| == 1 {
      assert parts == [] + [parts[0]];
      OnePartMore([], [], parts[0]);
      NoParts();
      assert Concatenated(parts) == parts[0];
    }
  }

  /** Such a list has each method as often as it is registered. */
  lemma {:induction false} ListsAll(t: ActorTree, names: seq<string>)
    requires IsListOf(t, names)
    ensures multiset(names) == Registered(t)
    decreases t, |t.children| + 1
  {
    var own: seq<string>, parts: seq<seq<string>> :|
      && names == own + Concatenated(parts) && multiset(own) == multiset(t.handlers.Keys) && |parts| == |t.children|
      && forall i | 0 <= i < |parts| :: IsListOf(t.children[i], parts[i]);
    hide IsListOf;
    PartsListAll(t, parts, |parts|);
  }

  lemma {:induction false} PartsListAll(t: ActorTree, parts: seq<seq<string>>, n: nat)
    requires n <= |parts| == |t.children| && forall i | 0 <= i < |parts| :: IsListOf(t.children[i], parts[i])
    ensures multiset(Concatenated(parts[..n])) + RegisteredFrom(t, n) == RegisteredFrom(t, 0)
    ensures n == |parts| ==> multiset(Concatenated(parts)) == RegisteredFrom(t, 0)
    decreases t, n
  {
    hide IsListOf, Registered, Concatenated;
    assert parts[..|parts|] == parts;
    if n > 0 {
      PartsListAll(t, parts, n - 1);
      ListsAll(t.children[n - 1], parts[n - 1]);
      assert parts[..n] == parts[..n - 1] + [parts[n - 1]];
      OnePartMore([], parts[..n - 1], parts[n - 1]);
    } else {
      assert parts[..0] == [];
      NoParts();
    }
  }

  lemma NoParts()
    ensures Concatenated([]) == []
  {
  }

  lemma OnePartMore(own: seq<string>, parts: seq<seq<string>>, part: seq<string>)
    ensures Concatenated(parts + [part]) == Concatenated(parts) + part
    ensures own + Concatenated(parts + [part]) == own + Concatenated(parts) + part
  {
    assert (parts + [part])[..|parts|] == parts;
  }

  function GetSchema(t: ActorTree, name: string): Option<Schema>
    decreases t, |t.children| + 1
  {
    if name in t.handlers && t.handlers[name].schema != NoSchema then Some(t.handlers[name].schema)
    else GetSchemaFrom(t, 0, name)
  }

  function GetSchemaFrom(t: ActorTree, i: nat, name: string): Option<Schema>
    requires i <= |t.children|
    decreases t, |t.children| - i
  {
    if i == |t.children| then None
    else
      var s := GetSchema(t.children[i], name);
      if s.Some? then s else GetSchemaFrom(t, i + 1, name)
  }

  // ---- the flat search -----------------------------------------------------------------------

  /** The actors of the tree, each before its children. */
  function Preorder(t: ActorTree): seq<ActorTree>
    decreases t, |t.children| + 1
  {
    [t] + PreorderFrom(t, 0)
  }

  function PreorderFrom(t: ActorTree, i: nat): seq<ActorTree>
    requires i <= |t.children|
    decreases t, |t.children| - i
  {
    if i == |t.children| then [] else Preorder(t.children[i]) + PreorderFrom(t, i + 1)
  }

  /** The first actor with a handler for `name`. */
  function FirstWith(actors: seq<ActorTree>, name: string): (r: Option<ActorTree>)
    ensures r.Some? ==> name in r.value.handlers
  {
    if actors == [] then None
    else if name in actors[0].handlers then Some(actors[0])
    else FirstWith(actors[1..], name)
  }

  /** The first actor with a handler for `name` that has a schema. */
  function FirstWithSchema(actors: seq<ActorTree>, name: string): (r: Option<ActorTree>)
    ensures r.Some? ==> name in r.value.handlers && r.value.handlers[name].schema != NoSchema
  {
    if actors == [] then None
    else if name in actors[0].handlers && actors[0].handlers[name].schema != NoSchema then Some(actors[0])
    else FirstWithSchema(actors[1..], name)
  }

  function CountWith(actors: seq<ActorTree>, name: string): nat {
    if actors == [] then 0 else (if name in actors[0].handlers then 1 else 0) + CountWith(actors[1..], name)
  }

  lemma {:induction false} SearchInTurn(a: seq<ActorTree>, b: seq<ActorTree>, name: string)
    ensures FirstWith(a + b, name) == if FirstWith(a, name).Some? then FirstWith(a, name) else FirstWith(b, name)
    ensures FirstWithSchema(a + b, name)
      == if FirstWithSchema(a, name).Some? then FirstWithSchema(a, name) else FirstWithSchema(b, name)
    ensures CountWith(a + b, name) == CountWith(a, name) + CountWith(b, name)
  {
    if a == [] {
      assert a + b == b;
    } else {
      assert (a + b)[1..] == a[1..] + b;
      SearchInTurn(a[1..], b, name);
    }
  }

  lemma FirstOfPreorder(t: ActorTree, name: string)
    ensures FirstWith(Preorder(t), name) == if name in t.handlers then Some(t) else FirstWith(PreorderFrom(t, 0), name)
  {
    assert Preorder(t)[1..] == PreorderFrom(t, 0);
  }

  /** A handler is found in the tree exactly when some actor of it has one. */
  lemma {:induction false} HasIsFlat(t: ActorTree, name: string)
    ensures Has(t, name) <==> FirstWith(Preorder(t), name).Some?
    decreases t, |t.children| + 1
  {
    FirstOfPreorder(t, name);
    HasIsFlatFrom(t, 0, name);
  }

  lemma {:induction false} HasIsFlatFrom(t: ActorTree, i: nat, name: string)
    requires i <= |t.children|
    ensures ChildWith(t, i, name).Some? <==> FirstWith(PreorderFrom(t, i), name).Some?
    decreases t, |t.children| - i
  {
    if i < |t.children| {
      HasIsFlat(t.children[i], name);
      HasIsFlatFrom(t, i + 1, name);
      SearchInTurn(Preorder(t.children[i]), PreorderFrom(t, i + 1), name);
    }
  }

  /** `Feed` runs the first handler in preorder, whatever schema and recovery its own actor
      asks for; only with no handler anywhere does the root's missing handler have a turn. */
  lemma {:induction false} FeedIsFlat(t: ActorTree, m: Message, moment: int, c: Complaint)
    requires IsResponse(m)
    ensures Feed(t, m, moment, c) ==
      match FirstWith(Preorder(t), m.methodName)
      case Some(a) => Run(a, a.handlers[m.methodName], m, moment, c)
      case None => RunMissing(t, m, moment)
    decreases t
  {
    FirstOfPreorder(t, m.methodName);
    if m.methodName !in t.handlers {
      FirstIsInChild(t, 0, m.methodName);
      var i := ChildWith(t, 0, m.methodName);
      if i.Some? {
        FeedIsFlat(t.children[i.value], m, moment, c);
        HasIsFlat(t.children[i.value], m.methodName);
      }
    }
  }

  lemma {:induction false} FirstIsInChild(t: ActorTree, i: nat, name: string)
    requires i <= |t.children|
    ensures FirstWith(PreorderFrom(t, i), name) ==
      match ChildWith(t, i, name)
      case Some(j) => FirstWith(Preorder(t.children[j]), name)
      case None => None
    decreases |t.children| - i
  {
    if i < |t.children| {
      SearchInTurn(Preorder(t.children[i]), PreorderFrom(t, i + 1), name);
      HasIsFlat(t.children[i], name);
      FirstIsInChild(t, i + 1, name);
    }
  }

  /** Where the schema that `m` meets in the tree rejects it, `c` is at fault. */
  ghost predicate Complains(t: ActorTree, m: Message, c: Complaint) {
    IsResponse(m) ==>
      var i := ChildWith(t, 0, m.methodName);
      if m.methodName in t.handlers then
        Rejects(t.validates, t.handlers[m.methodName].schema, m) ==>
          AtFault(t.handlers[m.methodName].schema, Obj(MessageMap(m)), c.path)
      else if i.Some? then Complains(t.children[i.value], m, c)
      else true
  }

  /** A rejected message is answered with the place at fault under the schema of the first
      handler in preorder. */
  lemma {:induction false} ComplaintIsFlat(t: ActorTree, m: Message, c: Complaint)
    requires IsResponse(m) && Complains(t, m, c)
    ensures var a := FirstWith(Preorder(t), m.methodName);
      a.Some? && Rejects(a.value.validates, a.value.handlers[m.methodName].schema, m) ==>
        AtFault(a.value.handlers[m.methodName].schema, Obj(MessageMap(m)), c.path)
    decreases t
  {
    hide Rejects, AtFault;
    FirstOfPreorder(t, m.methodName);
    if m.methodName !in t.handlers {
      FirstIsInChild(t, 0, m.methodName);
      var i := ChildWith(t, 0, m.methodName);
      if i.Some? {
        ComplaintIsFlat(t.children[i.value], m, c);
      }
    }
  }

  // ---- the list of methods, and the schemas ------------------------------------------------------

  lemma {:induction false} RegisteredIsFlat(t: ActorTree, name: string)
    ensures Registered(t)[name] == CountWith(Preorder(t), name)
    decreases t, |t.children| + 1
  {
    assert Preorder(t)[1..] == PreorderFrom(t, 0);
    RegisteredIsFlatFrom(t, 0, name);
  }

  lemma {:induction false} RegisteredIsFlatFrom(t: ActorTree, i: nat, name: string)
    requires i <= |t.children|
    ensures RegisteredFrom(t, i)[name] == CountWith(PreorderFrom(t, i), name)
    decreases t, |t.children| - i
  {
    if i < |t.children| {
      RegisteredIsFlat(t.children[i], name);
      RegisteredIsFlatFrom(t, i + 1, name);
      SearchInTurn(Preorder(t.children[i]), PreorderFrom(t, i + 1), name);
    }
  }

  lemma {:induction false} CountedIsFound(actors: seq<ActorTree>, name: string)
    ensures CountWith(actors, name) > 0 <==> FirstWith(actors, name).Some?
  {
    if actors != [] {
      CountedIsFound(actors[1..], name);
    }
  }

  /** `Has` and `MethodList` agree. */
  lemma HasIsListed(t: ActorTree, name: string)
    ensures Has(t, name) <==> name in Registered(t)
  {
    HasIsFlat(t, name);
    RegisteredIsFlat(t, name);
    CountedIsFound(Preorder(t), name);
  }

  lemma {:induction false} SchemaIsFlat(t: ActorTree, name: string)
    ensures GetSchema(t, name) ==
      match FirstWithSchema(Preorder(t), name)
      case Some(a) => Some(a.handlers[name].schema)
      case None => None
    decreases t, |t.children| + 1
  {
    assert Preorder(t)[1..] == PreorderFrom(t, 0);
    SchemaIsFlatFrom(t, 0, name);
  }

  lemma {:induction false} SchemaIsFlatFrom(t: ActorTree, i: nat, name: string)
    requires i <= |t.children|
    ensures GetSchemaFrom(t, i, name) ==
      match FirstWithSchema(PreorderFrom(t, i), name)
      case Some(a) => Some(a.handlers[name].schema)
      case None => None
    decreases t, |t.children| - i
  {
    if i < |t.children| {
      SchemaIsFlat(t.children[i], name);
      SchemaIsFlatFrom(t, i + 1, name);
      SearchInTurn(Preorder(t.children[i]), PreorderFrom(t, i + 1), name);
    }
  }

  /** The schema that `Feed` checks `name` against, if it checks. */
  function FedSchema(t: ActorTree, name: string): Option<Schema> {
    var a := FirstWith(Preorder(t), name);
    if a.Some? && a.value.handlers[name].schema != NoSchema then Some(a.value.handlers[name].schema) else None
  }

  /** `GetSchema` gives the schema that `Feed` uses, except where the first handler has none
      and a later one, which never runs, has. */
  lemma SchemaAgrees(t: ActorTree, name: string)
    ensures GetSchema(t, name) == FedSchema(t, name)
      <==> !(FedSchema(t, name) == None && FirstWithSchema(Preorder(t), name).Some?)
  {
    SchemaIsFlat(t, name);
    SchemaIsFirst(Preorder(t), name);
  }

  lemma {:induction false} SchemaIsFirst(actors: seq<ActorTree>, name: string)
    ensures var a := FirstWith(actors, name);
      && (a.None? ==> FirstWithSchema(actors, name).None?)
      && (a.Some? && a.value.handlers[name].schema != NoSchema ==> FirstWithSchema(actors, name) == a)
      && (CountWith(actors, name) == 1 ==> FirstWithSchema(actors, name).Some? ==> FirstWithSchema(actors, name) == a)
  {
    if actors != [] {
      SchemaIsFirst(actors[1..], name);
      CountedIsFound(actors[1..], name);
    }
  }

  /** A method registered once in the whole tree is published with the schema in use. */
  lemma SchemaOfUniqueMethod(t: ActorTree, name: string)
    requires Registered(t)[name] == 1
    ensures GetSchema(t, name) == FedSchema(t, name)
  {
    RegisteredIsFlat(t, name);
    SchemaIsFlat(t, name);
    SchemaIsFirst(Preorder(t), name);
  }

  // ---- responses ------------------------------------------------------------------------------------

  /** The callback that `Feed` calls for `m`, with the recovery around it, if it calls one. */
  ghost function Called(t: ActorTree, m: Message): Option<(Callback, bool)> {
    var a := if IsResponse(m) then FirstWith(Preorder(t), m.methodName) else None;
    if a.Some? then
      var h := a.value.handlers[m.methodName];
      if Rejects(a.value.validates, h.schema, m) then None else Some((h.callback, a.value.recovers))
    else if t.missing.Some? then Some((t.missing.value, t.recovers && IsResponse(m)))
    else None
  }

  predicate Escapes(r: Returned, recovers: bool) {
    r.Panics? || (r.PanicsWith? && !recovers)
  }

  /** Sections 4.1 and 5 of JSON-RPC 2.0: unless a panic escapes, a request gets exactly one
      of a message and an error, and anything else gets no message.  A message has the id and
      the trace of the request, unless the callback made the message itself. */
  lemma ResponseDiscipline(t: ActorTree, m: Message, moment: int, c: Complaint)
    ensures var fed, called := Feed(t, m, moment, c), Called(t, m);
      && (fed.Panicked? <==> (called.Some? && Escapes(called.value.0(m, moment), called.value.1)))
      && (m.Request? && !fed.Panicked? ==> fed.Replied? || fed.Failed?)
      && (fed.Replied? ==> m.Request?)
      && (fed.Replied? && !(called.Some? && called.value.0(m, moment) == GivesMessage(fed.msg)) ==>
            && IsResultOrError(fed.msg) && fed.msg.id == m.id && fed.msg.traceId == m.traceId
            && (fed.msg.Error? ==> fed.msg.error.Some?))
  {
    if IsResponse(m) {
      FeedIsFlat(t, m, moment, c);
    }
  }

  /** What a request is answered where the handler `f` is called: the value under the id and
      the trace of the request; the message that the handler made; the handler's error, as it is
      if it is an RPC error, handed back if it is a wrapped response, and as an internal error
      otherwise.  A panic with an error counts as the error if the actor recovers. */
  ghost predicate RequestOutcome(r: Returned, recovers: bool, m: Message, fed: Fed)
    requires m.Request?
  {
    match r
    case Gives(v) => fed == Replied(Result(m.id, v, m.traceId))
    case GivesMessage(msg) => fed == Replied(msg)
    case Fails(err) => ErrorOutcome(err, m, fed)
    case PanicsWith(err) => if recovers then ErrorOutcome(err, m, fed) else fed == Panicked
    case Panics => fed == Panicked
  }

  ghost predicate ErrorOutcome(err: Failure, m: Message, fed: Fed)
    requires m.Request?
  {
    match err
    case Rpc(e) => fed == Replied(Error(m.id, Some(e), m.traceId))
    case WrappedResponse(b) => fed == Failed(WrappedResponse(b))
    case _ => fed == Replied(Error(m.id, Some(RPCError(-32603, "internal error", Null)), m.traceId))
  }

  /** What anything but a request comes to where `f` is called: nothing, or the error. */
  ghost predicate OtherOutcome(r: Returned, recovers: bool, fed: Fed) {
    match r
    case Gives(_) => fed == Silent
    case GivesMessage(_) => fed == Silent
    case Fails(err) => fed == Failed(err)
    case PanicsWith(err) => fed == if recovers then Failed(err) else Panicked
    case Panics => fed == Panicked
  }

  /** What a request is answered, by the outcome of the callback of the first handler. */
  lemma AnswerSays(t: ActorTree, m: Message, moment: int, c: Complaint)
    requires m.Request? && FirstWith(Preorder(t), m.methodName).Some?
    ensures var a := FirstWith(Preorder(t), m.methodName).value;
      var h, fed := a.handlers[m.methodName], Feed(t, m, moment, c);
      if h.schema != NoSchema && a.validates && !Accepts(h.schema, Obj(MessageMap(m))) then
        fed == Replied(Error(m.id, Some(RPCError(-32633, ComplaintText(c), Null)), m.traceId))
      else RequestOutcome(h.callback(m, moment), a.recovers, m, fed)
  {
    FeedIsFlat(t, m, moment, c);
    hide Feed;
  }

  function ComplaintText(c: Complaint): string {
    "Validation Error: " + Joined(c.path) + " " + c.hint
  }

  /** The text of a path is its segments, one after another. */
  lemma {:induction false} JoinedInTurn(a: seq<string>, b: seq<string>, segment: string)
    ensures Joined([]) == "" && Joined([segment]) == segment && Joined(a + b) == Joined(a) + Joined(b)
  {
    assert [segment][1..] == [];
    if a == [] {
      assert a + b == b;
    } else {
      assert (a + b)[1..] == a[1..] + b;
      JoinedInTurn(a[1..], b, segment);
    }
  }

  /** What a notification comes to, by the outcome of the callback of the first handler. */
  lemma NotificationSays(t: ActorTree, m: Message, moment: int, c: Complaint)
    requires m.Notify? && FirstWith(Preorder(t), m.methodName).Some?
    ensures var a := FirstWith(Preorder(t), m.methodName).value;
      var h, fed := a.handlers[m.methodName], Feed(t, m, moment, c);
      if h.schema != NoSchema && a.validates && !Accepts(h.schema, Obj(MessageMap(m))) then fed == Failed(Invalid(c))
      else OtherOutcome(h.callback(m, moment), a.recovers, fed)
  {
    FeedIsFlat(t, m, moment, c);
    hide Feed;
  }

  /** What becomes of a request to a method that no handler of the tree has: the outcome of the
      root's missing handler, if it has one. */
  lemma MissingAnswerSays(t: ActorTree, m: Message, moment: int, c: Complaint)
    requires m.Request? && FirstWith(Preorder(t), m.methodName).None?
    ensures var fed := Feed(t, m, moment, c);
      match t.missing
      case Some(f) => RequestOutcome(f(m, moment), t.recovers, m, fed)
      case None => fed == Replied(Error(m.id, Some(RPCError(-32601, "method not found", Null)), m.traceId))
  {
    FeedIsFlat(t, m, moment, c);
    hide Feed;
  }

  /** A notification that no handler of the tree has goes to the root's missing handler, and a
      message that is neither a request nor a notification always does, with nothing to
      recover from a panic. */
  lemma MissingOtherSays(t: ActorTree, m: Message, moment: int, c: Complaint)
    requires !m.Request? && (m.Notify? ==> FirstWith(Preorder(t), m.methodName).None?)
    ensures var fed := Feed(t, m, moment, c);
      match t.missing
      case Some(f) => OtherOutcome(f(m, moment), t.recovers && m.Notify?, fed)
      case None => fed == Silent
  {
    if m.Notify? {
      FeedIsFlat(t, m, moment, c);
    }
  }

  /** A request to a method that no actor has is answered "method not found". */
  lemma UnknownMethod(t: ActorTree, m: Message, moment: int, c: Complaint)
    requires m.Request? && !Has(t, m.methodName) && t.missing == None
    ensures Feed(t, m, moment, c) == Replied(Error(m.id, Some(RPCError(-32601, "method not found", Null)), m.traceId))
  {
    HasIsFlat(t, m.methodName);
    MissingAnswerSays(t, m, moment, c);
  }

  /** The actor's own handler comes before those of its children, and an earlier child before
      a later one; so with schemas. */
  lemma EarlierChildFirst(t: ActorTree, i: nat, m: Message, moment: int, c: Complaint, name: string)
    requires i < |t.children|
    ensures IsResponse(m) && m.methodName in t.handlers ==> Feed(t, m, moment, c) == Run(t, t.handlers[m.methodName], m, moment, c)
    ensures
      (IsResponse(m) && m.methodName !in t.handlers && Has(t.children[i], m.methodName)
       && (forall j | 0 <= j < i :: !Has(t.children[j], m.methodName)))
      ==> Feed(t, m, moment, c) == Feed(t.children[i], m, moment, c)
    ensures name in t.handlers && t.handlers[name].schema != NoSchema ==> GetSchema(t, name) == Some(t.handlers[name].schema)
    ensures
      ((name in t.handlers ==> t.handlers[name].schema == NoSchema) && GetSchema(t.children[i], name).Some?
       && (forall j | 0 <= j < i :: GetSchema(t.children[j], name).None?))
      ==> GetSchema(t, name) == GetSchema(t.children[i], name)
  {
    hide Run;
    if forall j | 0 <= j < i :: GetSchema(t.children[j], name).None? {
      SchemaFromChild(t, 0, i, name);
    }
  }

  lemma {:induction false} SchemaFromChild(t: ActorTree, k: nat, i: nat, name: string)
    requires k <= i < |t.children| && forall j | k <= j < i :: GetSchema(t.children[j], name).None?
    ensures GetSchema(t.children[i], name).Some? ==> GetSchemaFrom(t, k, name) == GetSchema(t.children[i], name)
    decreases i - k
  {
    if k < i {
      SchemaFromChild(t, k + 1, i, name);
    }
  }

  // ---- answers do not depend on the id ----------------------------------------------------------------

  /** The request `m` under another id. */
  function Renamed(m: Message, id: Value): Message
    requires m.Request?
  {
    Request(id, m.methodName, m.params, m.paramsAreList, m.traceId)
  }

  /** A callback that does not look at the id of the request, and leaves it to the actor to
      make the response. */
  ghost predicate Plain(f: Callback) {
    && (forall m: Message, id: Value, moment: int | m.Request? :: f(Renamed(m, id), moment) == f(m, moment))
    && (forall m: Message, moment: int :: !f(m, moment).GivesMessage?)
  }

  /** Every handler in the tree is plain, and checked by a method schema if by any. */
  ghost predicate AllPlain(t: ActorTree) {
    && (t.missing.Some? ==> Plain(t.missing.value))
    && forall a, name | a in Preorder(t) && name in a.handlers ::
         Plain(a.handlers[name].callback) && (a.handlers[name].schema == NoSchema || a.handlers[name].schema.MethodSchema?)
  }

  lemma PlainAnswers(t: ActorTree, m: Message, moment: int, c: Complaint)
    requires AllPlain(t) && Feed(t, m, moment, c).Replied?
    ensures var a := Feed(t, m, moment, c).msg;
      m.Request? && IsResultOrError(a) && a.id == m.id && (a.Error? ==> a.error.Some?)
  {
    hide Run, RunMissing, Feed, Rejects;
    ResponseDiscipline(t, m, moment, c);
    if IsResponse(m) {
      FirstIsListed(Preorder(t), m.methodName);
    }
  }

  lemma {:induction false} FirstIsListed(actors: seq<ActorTree>, name: string)
    ensures FirstWith(actors, name).Some? ==> FirstWith(actors, name).value in actors
  {
    if actors != [] && name !in actors[0].handlers {
      FirstIsListed(actors[1..], name);
    }
  }

  /** The answer to a request under one id is the answer to it under another, the id apart. */
  lemma AnswerIgnoresId(t: ActorTree, m: Message, id: Value, moment: int, c: Complaint)
    requires m.Request? && AllPlain(t)
    ensures var n := Renamed(m, id);
      var fed := Feed(t, m, moment, c);
      && (fed.Replied? ==> IsResultOrError(fed.msg))
      && Feed(t, n, moment, c) == if fed.Replied? then Replied(ReplaceId(fed.msg, id)) else fed
  {
    var n := Renamed(m, id);
    FeedIsFlat(t, m, moment, c);
    FeedIsFlat(t, n, moment, c);
    FirstIsListed(Preorder(t), m.methodName);
    var a := FirstWith(Preorder(t), m.methodName);
    if a.Some? {
      RunIgnoresId(a.value, a.value.handlers[m.methodName], m, n, moment, c);
    }
  }

  lemma RunIgnoresId(a: ActorTree, h: Handler, m: Message, n: Message, moment: int, c: Complaint)
    requires m.Request? && n.Request? && n == Renamed(m, n.id)
    requires Plain(h.callback) && (h.schema == NoSchema || h.schema.MethodSchema?)
    ensures var fed := Run(a, h, m, moment, c);
      && (fed.Replied? ==> IsResultOrError(fed.msg))
      && Run(a, h, n, moment, c) == if fed.Replied? then Replied(ReplaceId(fed.msg, n.id)) else fed
  {
    hide Accepts, MessageMap;
    VerdictIgnoresId(h.schema, m, n);
    assert h.callback(m, moment) == h.callback(n, moment);
  }

  lemma VerdictIgnoresId(s: Schema, m: Message, n: Message)
    requires m.Request? && n.Request? && n == Renamed(m, n.id)
    requires s == NoSchema || s.MethodSchema?
    ensures Accepts(s, Obj(MessageMap(n))) <==> Accepts(s, Obj(MessageMap(m)))
  {
    hide ParamsField;
    assert MessageMap(n)["params"] == MessageMap(m)["params"];
    assert "result" !in MessageMap(n) && "result" !in MessageMap(m);
  }
}
