/** `Actor`: an object with a table of handlers and child actors, tied to the tree that
    `Dispatch` is about. */
module Actors {
  import opened Values
  import opened Schemas
  import opened Meaning
  import opened Messages
  import opened Dispatch
  import Validator

  class Actor {
    var ValidateSchema: bool
    var RecoverFromPanic: bool
    var methodHandlers: map<string, Handler>
    var missingHandler: Option<Callback>
    var children: seq<Actor>
    ghost var Repr: set<object>

    /** The children form a tree or share subtrees, but have no cycle; schemas are as the
        schema builder leaves them. */
    ghost predicate Valid()
      reads this, Repr
      decreases Repr
    {
      && this in Repr
      && (forall k | k in methodHandlers :: methodHandlers[k].schema == NoSchema || Whole(methodHandlers[k].schema))
      && forall i | 0 <= i < |children| ::
           children[i] in Repr && children[i].Repr < Repr && this !in children[i].Repr && children[i].Valid()
    }

    /** The tree below this actor. */
    ghost function View(): ActorTree
      requires Valid()
      reads this, Repr
      decreases Repr
    {
      ActorTree(ValidateSchema, RecoverFromPanic, methodHandlers, missingHandler,
                seq(|children|, i requires 0 <= i < |children| && Valid() reads this, Repr => children[i].View()))
    }

    lemma Viewed()
      requires Valid()
      ensures forall i | 0 <= i < |children| :: children[i].Valid() && children[i].Repr < Repr
      ensures View().validates == ValidateSchema && View().recovers == RecoverFromPanic
      ensures View().handlers == methodHandlers && View().missing == missingHandler
      ensures |View().children| == |children|
      ensures forall i | 0 <= i < |children| :: View().children[i] == children[i].View()
    {
    }

    constructor ()
      ensures Valid() && fresh(Repr) && View() == ActorTree(true, true, map[], None, [])
    {
      ValidateSchema, RecoverFromPanic := true, true;
      methodHandlers, missingHandler, children := map[], None, [];
      Repr := {this};
    }

    /** Where the child is not above this actor, the tree gets one more child, last.  Where it
        is, the source goes round for ever on the next search; here the actor is not valid. */
    method AddChild(child: Actor)
      requires Valid() && child.Valid()
      modifies this`children, this`Repr
      ensures children == old(children) + [child] && Repr == old(Repr) + old(child.Repr)
      ensures this !in old(child.Repr) ==>
        Valid() && child.Valid() && View() == old(View()).(children := old(View()).children + [child.View()])
    {
      children := children + [child];
      Repr := Repr + child.Repr;
    }

    method OnRequest(name: string, callback: Callback, schema: Schema) returns (ok: bool)
      requires Valid() && (schema == NoSchema || Whole(schema))
      modifies this`methodHandlers
      ensures Valid() && Repr == old(Repr)
      ensures ok <==> name !in old(View()).handlers
      ensures View() ==
        if ok then old(View()).(handlers := old(View()).handlers[name := Handler(callback, schema)]) else old(View())
    {
      if name in methodHandlers {
        return false;
      }
      methodHandlers := methodHandlers[name := Handler(callback, schema)];
      ok := true;
    }

    method Off(name: string)
      requires Valid()
      modifies this`methodHandlers
      ensures Valid() && Repr == old(Repr)
      ensures View() == old(View()).(handlers := old(View()).handlers - {name})
    {
      methodHandlers := methodHandlers - {name};
    }

    method OnMissing(handler: Callback) returns (ok: bool)
      requires Valid()
      modifies this`missingHandler
      ensures Valid() && Repr == old(Repr)
      ensures ok <==> old(View()).missing == None
      ensures View() == if ok then old(View()).(missing := Some(handler)) else old(View())
    {
      if missingHandler.Some? {
        return false;
      }
      missingHandler := Some(handler);
      ok := true;
    }

    method Has(name: string) returns (found: bool)
      requires Valid()
      ensures found <==> Dispatch.Has(View(), name)
      decreases Repr
    {
      hide View;
      Viewed();
      if name in methodHandlers {
        return true;
      }
      for i := 0 to |children|
        invariant forall j | 0 <= j < i :: !Dispatch.Has(View().children[j], name)
      {
        found := children[i].Has(name);
        if found {
          assert Dispatch.Has(View().children[i], name);
          return true;
        }
      }
      found := false;
    }

    /** The actor's own methods come in an arbitrary order. */
    method MethodList() returns (methods: seq<string>)
      requires Valid()
      ensures multiset(methods) == Registered(View())
      ensures IsListOf(View(), methods)
      decreases Repr
    {
      hide View, Valid, IsListOf, Concatenated, Registered;
      ghost var t := View();
      Viewed();
      methods := NamesOf(methodHandlers);
      ghost var own, parts: seq<seq<string>> := methods, [];
      NoParts();
      for i := 0 to |children|
        invariant t == View() && Valid()
        invariant |parts| == i && methods == own + Concatenated(parts)
        invariant forall j | 0 <= j < i :: IsListOf(t.children[j], parts[j])
      {
        Viewed();
        var childMethods := children[i].MethodList();
        Viewed();
        methods := methods + childMethods;
        OnePartMore(own, parts, childMethods);
        parts := parts + [childMethods];
      }
      Viewed();
      ListIsOf(t, own, parts);
      ListsAll(t, methods);
    }

    static method NamesOf(handlers: map<string, Handler>) returns (names: seq<string>)
      ensures multiset(names) == multiset(handlers.Keys)
    {
      names := [];
      var todo := handlers.Keys;
      while todo != {}
        invariant todo <= handlers.Keys
        invariant multiset(names) == multiset(handlers.Keys - todo)
        decreases |todo|
      {
        var name :| name in todo;
        todo := todo - {name};
        names := names + [name];
      }
      assert handlers.Keys - todo == handlers.Keys;
    }

    method GetSchema(name: string) returns (schema: Option<Schema>)
      requires Valid()
      ensures schema == Dispatch.GetSchema(View(), name)
      ensures schema.Some? ==> Whole(schema.value)
      decreases Repr
    {
      hide View;
      Viewed();
      if name in methodHandlers && methodHandlers[name].schema != NoSchema {
        return Some(methodHandlers[name].schema);
      }
      for i := 0 to |children|
        invariant Dispatch.GetSchema(View(), name) == GetSchemaFrom(View(), i, name)
      {
        schema := children[i].GetSchema(name);
        if schema.Some? {
          return;
        }
      }
      schema := None;
    }

    /** The complaint of a rejected message names a place that its schema really refuses. */
    method Feed(m: Message, moment: int) returns (fed: Fed, c: Complaint)
      requires Valid()
      ensures fed == Dispatch.Feed(View(), m, moment, c)
      ensures Complains(View(), m, c)
      decreases Repr, 1
    {
      hide View, WrapResult, Accepts, AtFault, Whole, MessageMap, Run;
      Viewed();
      if !IsResponse(m) {
        c := Complaint([], "");
        if missingHandler.Some? {
          fed := WrapResult(false, missingHandler.value(m, moment), m);
        } else {
          fed := Silent;
        }
      } else if m.methodName in methodHandlers {
        fed, c := RunHandler(methodHandlers[m.methodName], m, moment);
      } else {
        fed, c := FeedChild(m, moment);
      }
    }

    /** The branch of `Feed` without a handler of this actor's own. */
    method FeedChild(m: Message, moment: int) returns (fed: Fed, c: Complaint)
      requires Valid() && IsResponse(m) && m.methodName !in methodHandlers
      ensures fed == Dispatch.Feed(View(), m, moment, c)
      ensures Complains(View(), m, c)
      decreases Repr, 0
    {
      hide View, Valid, WrapResult, Accepts, AtFault, Whole, MessageMap, Run, Dispatch.Has;
      ghost var t := View();
      Viewed();
      for i := 0 to |children|
        invariant Valid() && t == View()
        invariant ChildWith(t, 0, m.methodName) == ChildWith(t, i, m.methodName)
      {
        Viewed();
        var found := children[i].Has(m.methodName);
        Viewed();
        if found {
          fed, c := children[i].Feed(m, moment);
          Viewed();
          return;
        }
      }
      Viewed();
      c := Complaint([], "");
      if missingHandler.Some? {
        fed := WrapResult(RecoverFromPanic, missingHandler.value(m, moment), m);
      } else if m.Request? {
        fed := Replied(ToMessage(ErrMethodNotFound, m));
      } else {
        fed := Silent;
      }
    }

    /** The branch of `Feed` for a handler of this actor's own. */
    method RunHandler(h: Handler, m: Message, moment: int) returns (fed: Fed, c: Complaint)
      requires Valid() && IsResponse(m) && (h.schema == NoSchema || Whole(h.schema))
      ensures fed == Run(View(), h, m, moment, c)
      ensures Rejects(ValidateSchema, h.schema, m) ==> AtFault(h.schema, Obj(MessageMap(m)), c.path)
    {
      hide Accepts, AtFault, Whole, MessageMap;
      if h.schema != NoSchema && ValidateSchema {
        var validator := new Validator.SchemaValidator();
        var err := validator.Validate(h.schema, Obj(MessageMap(m)));
        if err != null {
          var complaint := Complaint(err.paths[..], err.hint);
          assert err.paths[..][0..] == err.paths[..];
          return if m.Request? then Replied(InvalidMessage(complaint, m)) else Failed(Invalid(complaint)), complaint;
        }
      }
      fed := WrapResult(RecoverFromPanic, h.callback(m, moment), m);
      c := Complaint([], "");
    }
  }

  lemma ListIsOf(t: ActorTree, own: seq<string>, parts: seq<seq<string>>)
    requires multiset(own) == multiset(t.handlers.Keys) && |parts| == |t.children|
    requires forall i | 0 <= i < |parts| :: IsListOf(t.children[i], parts[i])
    ensures IsListOf(t, own + Concatenated(parts))
  {
  }
}
