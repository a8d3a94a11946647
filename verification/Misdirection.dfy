/** An answer goes to whoever is pending under its id.  What becomes of it when a request has
    been stored under the id of a call that is still busy. */
module Misdirection {
  import opened Values
  import opened Schemas
  import opened Messages
  import opened Codec
  import opened Dispatch
  import opened Protocol
  import opened Correlation
  import opened Hazards

  /** The call `d` has just been stored and nothing is under way, or the one thing under way is
      for `d`: in the send channel, on the way up, with a handler, to be sent, or on the way
      down. */
  ghost predicate Alone(s: Net, d: nat) {
    var l := s.link;
    && d in s.table.calls
    && (|| (s.table.calls[d].phase == Stored && l == NO_LINK)
        || (|l.sendChannel| == 1 && l.sendChannel[0].call == Some(d) && l == NO_LINK.(sendChannel := l.sendChannel))
        || (|l.up| == 1 && l.up[0].call == Some(d) && l == NO_LINK.(up := l.up))
        || (|l.running| == 1 && l.running[0].call == Some(d) && l == NO_LINK.(running := l.running))
        || (|l.replies| == 1 && l.replies[0].call == Some(d) && l == NO_LINK.(replies := l.replies))
        || (|l.down| == 1 && l.down[0].call == Some(d) && l == NO_LINK.(down := l.down)))
  }

  /** How many steps are left. */
  ghost function Distance(s: Net): nat {
    var l := s.link;
    if l.down != [] then 0
    else if l.replies != [] then 1
    else if l.running != [] then 2
    else if l.up != [] then 3
    else if l.sendChannel != [] then 4
    else 5
  }

  /** The step that takes it on. */
  ghost function Onward(s: Net, d: nat, moment: int, k: Complaint): Step {
    var l := s.link;
    if l.down != [] then ClientReads
    else if l.replies != [] then ServerWrites
    else if l.running != [] then HandlerEnds(0, moment, k)
    else if l.up != [] then ServerReads
    else if l.sendChannel != [] then ClientWrites
    else SendStep(d)
  }

  /** The state is in order, and the actor can answer the call `d`. */
  ghost predicate Ready(tree: ActorTree, s: Net, d: nat, moment: int, k: Complaint) {
    && AllPlain(tree) && Wellformed(s.table) && LinkGood(tree, s.table.calls, s.link) && AllSafe(s.table) && Alone(s, d)
    && AnswerOf(tree, s.table.calls[d].sent, moment, k).Some? && Complains(tree, Received(s.table.calls[d].sent), k)
  }

  /** One step on, the same thing is alone, nearer to the client, and the table is the same but
      for the phase of `d`. */
  lemma StepsOn(tree: ActorTree, s: Net, d: nat, moment: int, k: Complaint)
    requires Ready(tree, s, d, moment, k) && s.link.down == []
    ensures Enabled(tree, s, Onward(s, d, moment, k))
    ensures var n := After(tree, s, Onward(s, d, moment, k));
      && Ready(tree, n, d, moment, k) && Distance(n) < Distance(s)
      && (n.table == s.table || n.table == Sending(s.table, d, true))
  {
    var step := Onward(s, d, moment, k);
    AloneIsCalled(s, d);
    OnwardIsCareful(s, d, moment, k);
    hide Alone, LinkGood, AllSafe, AnswerOf, Complains, AllPlain, Encode, DecodeMessage, Feed, Distance, CallSafe, After, Enabled,
         Careful, OnlyCallsAsk, Onward;
    Passable(tree, s, d, moment, k);
    AloneAfter(tree, s, d, moment, k);
    LinkStaysGood(tree, s, step);
    SafeStep(tree, s, step);
    SendingStaysWellformed(s.table, d);
  }

  lemma AloneIsCalled(s: Net, d: nat)
    requires Alone(s, d)
    ensures d in s.table.calls
  {
  }

  lemma OnwardIsCareful(s: Net, d: nat, moment: int, k: Complaint)
    requires Wellformed(s.table)
    ensures var step := Onward(s, d, moment, k); Careful(s, step) && OnlyCallsAsk(step)
  {
  }

  lemma SendingStaysWellformed(t: Table, d: nat)
    requires Wellformed(t) && d in t.calls
    ensures Wellformed(Sending(t, d, true))
  {
  }

  /** The handler, if it is at one, is at what `d` sent. */
  lemma Passable(tree: ActorTree, s: Net, d: nat, moment: int, k: Complaint)
    requires Ready(tree, s, d, moment, k) && s.link.down == []
    ensures Enabled(tree, s, Onward(s, d, moment, k))
    ensures s.link.running != [] ==> Feed(tree, s.link.running[0].body, moment, k).Replied?
    ensures s.link.up != [] ==> DecodeMessage(s.link.up[0].body, DEFAULT).Decoded?
  {
    hide AllPlain, Encode, DecodeMessage, Feed, Complains, WireSafe, Received, ReplyGood, ReturnGood;
    var sent := s.table.calls[d].sent;
    assert CallSafe(s.table.calls[d]);
    RoundTrip(sent, DEFAULT);
    if s.link.running != [] {
      assert RunningGood(s.table.calls, s.link.running[0]);
    }
    if s.link.up != [] {
      assert TextGood(s.table.calls, s.link.up[0]);
    }
  }

  lemma AloneAfter(tree: ActorTree, s: Net, d: nat, moment: int, k: Complaint)
    requires Wellformed(s.table) && Alone(s, d) && s.link.down == [] && Enabled(tree, s, Onward(s, d, moment, k))
    requires s.link.running != [] ==> Feed(tree, s.link.running[0].body, moment, k).Replied?
    requires s.link.up != [] ==> DecodeMessage(s.link.up[0].body, DEFAULT).Decoded?
    ensures var n := After(tree, s, Onward(s, d, moment, k));
      && Alone(n, d) && Distance(n) < Distance(s)
      && (n.table == s.table || n.table == Sending(s.table, d, true))
      && n.table.calls[d].sent == s.table.calls[d].sent
  {
    hide Encode, DecodeMessage, Feed, Complains;
    var l := s.link;
    if l.running != [] {
      assert Removed(l.running, 0) == [];
    }
  }

  /** What is alone under way for `d` comes to the client as an answer, and whichever call is
      pending under the id that `d` was sent with is given it. */
  lemma {:induction false} AnswerArrives(tree: ActorTree, s: Net, d: nat, moment: int, k: Complaint)
    returns (steps: seq<Step>, n: Net, p: Placed)
    requires Ready(tree, s, d, moment, k)
    requires s.table.calls[d].sent.id in s.table.pending
    ensures Leads(tree, s, steps, n) && p.Answered? && p.call == Some(d)
    ensures var c := s.table.pending[s.table.calls[d].sent.id];
      c in s.table.calls && c in n.table.calls && n.table.calls[c].placed == s.table.calls[c].placed + [p]
    decreases Distance(s)
  {
    if s.link.down != [] {
      steps, n, p := AnswerIsRead(tree, s, d, moment, k);
    } else {
      var step := Onward(s, d, moment, k);
      StepsOn(tree, s, d, moment, k);
      var m := After(tree, s, step);
      SameEntry(s, m, d);
      var rest;
      rest, n, p := AnswerArrives(tree, m, d, moment, k);
      steps := [step] + rest;
      hide After, Enabled, Ready, Distance;
      LeadsFirst(tree, s, step, m, rest, n);
    }
  }

  lemma LeadsFirst(tree: ActorTree, s: Net, step: Step, m: Net, rest: seq<Step>, n: Net)
    requires Wellformed(s.table) && Enabled(tree, s, step) && m == After(tree, s, step) && Leads(tree, m, rest, n)
    ensures Leads(tree, s, [step] + rest, n)
  {
    hide After, Enabled;
    assert ([step] + rest)[1..] == rest;
  }

  lemma SameEntry(s: Net, m: Net, d: nat)
    requires Wellformed(s.table) && d in s.table.calls
    requires m.table == s.table || m.table == Sending(s.table, d, true)
    ensures m.table.pending == s.table.pending && d in m.table.calls && m.table.calls[d].sent == s.table.calls[d].sent
    ensures forall c | c in s.table.calls :: c in m.table.calls && m.table.calls[c].placed == s.table.calls[c].placed
  {
  }

  lemma AnswerIsRead(tree: ActorTree, s: Net, d: nat, moment: int, k: Complaint)
    returns (steps: seq<Step>, n: Net, p: Placed)
    requires Ready(tree, s, d, moment, k) && s.link.down != []
    requires s.table.calls[d].sent.id in s.table.pending
    ensures Leads(tree, s, steps, n) && p.Answered? && p.call == Some(d)
    ensures var c := s.table.pending[s.table.calls[d].sent.id];
      c in s.table.calls && c in n.table.calls && n.table.calls[c].placed == s.table.calls[c].placed + [p]
  {
    var x := s.link.down[0];
    var a := ReadsAnswer(tree, s);
    ReceivedResponse(a);
    steps, n := [ClientReads], ClientReadsFrom(s);
    LeadsOne(tree, s, ClientReads);
    var c := s.table.pending[s.table.calls[d].sent.id];
    hide AllPlain, LinkGood, AllSafe, ClientReadsFrom, Leads, After, Enabled, AnswerOf, Complains, Received, Delivered;
    p := Answered(Delivered(s.table.calls[c].own, Received(a)), Some(d), x.body.moment, x.body.complaint);
  }

  /** The condition on stores in `Correlation.AnswersReachTheirCallers` cannot do with less: a
      request stored under the id of a busy call, with nothing else under way, can be given the
      answer that was made for the busy call. */
  lemma CarelessStoreMisdirects(tree: ActorTree, s: Net, c: nat, d: nat, moment: int, k: Complaint)
    returns (steps: seq<Step>, n: Net, p: Placed)
    requires Kept(s.table) && Ready(tree, s, d, moment, k)
    requires c in s.table.calls && s.table.calls[c].phase == Loaded && c != d
    requires s.table.calls[c].sent.id == s.table.calls[d].sent.id
    ensures Leads(tree, s, [StoreStep(c)] + steps, n)
    ensures c in n.table.calls && n.table.calls[c].placed == [p] && p.Answered? && p.call == Some(d)
  {
    assert CallKept(s.table, c);
    var m := Net(Store(s.table, c), s.link);
    ReadyAfterStore(tree, s, c, d, moment, k);
    steps, n, p := AnswerArrives(tree, m, d, moment, k);
    hide CallKept, Ready, Leads;
    LeadsByStore(tree, s, c);
    LeadsOn(tree, s, [StoreStep(c)], m, steps, n);
  }

  lemma ReadyAfterStore(tree: ActorTree, s: Net, c: nat, d: nat, moment: int, k: Complaint)
    requires Kept(s.table) && Ready(tree, s, d, moment, k)
    requires c in s.table.calls && s.table.calls[c].phase == Loaded && c != d
    ensures Ready(tree, Net(Store(s.table, c), s.link), d, moment, k)
  {
    hide AllPlain, AnswerOf, Complains, Encode, DecodeMessage, Feed, LinkGood, Kept, Alone, AllSafe, Store;
    StoreKeeps(s.table, c);
    StoreExtends(s, c, d);
    LaterStaysGood(tree, s.table.calls, Store(s.table, c).calls, s.link);
    WellformedWhenKept(Store(s.table, c));
  }

  lemma WellformedWhenKept(t: Table)
    requires Kept(t)
    ensures Wellformed(t)
  {
  }

  lemma StoreExtends(s: Net, c: nat, d: nat)
    requires Wellformed(s.table) && c in s.table.calls && s.table.calls[c].phase == Loaded && c != d
    requires Alone(s, d) && AllSafe(s.table)
    ensures var u := Store(s.table, c);
      && Extends(s.table.calls, u.calls) && Alone(Net(u, s.link), d) && AllSafe(u)
      && u.calls[d].sent == s.table.calls[d].sent
  {
    hide CallSafe;
    forall b | b in s.table.calls ensures CallSafe(Store(s.table, c).calls[b]) {
      SafeWhatever(s.table.calls[b], Stored);
    }
  }

  lemma SafeWhatever(call: Call, phase: Phase)
    requires CallSafe(call)
    ensures CallSafe(Call(call.own, call.sent, phase, call.timer, call.placed)) && CallSafe(call)
  {
  }

  // ---- an id used again --------------------------------------------------------------------------

  /** The answer to a call that has timed out, still in the making. */
  ghost function Late(own: Message): Net
    requires IsRequest(own)
  {
    Net(Table(map[0 := Call(own, own, Sent, Fired, [TimedOut(Timeout(own))])], map[], {}, {own.id}),
        NO_LINK.(running := [Item(Some(0), Received(own))]))
  }

  /** A request times out while its handler is running. */
  lemma AnswerIsLate(tree: ActorTree, own: Message, uuid: string)
    requires IsRequest(own) && WireSafe(own)
    ensures Leads(tree, START,
                  [LoadStep(0, own, uuid), StoreStep(0)] + ([SendStep(0), ClientWrites, ServerReads] + [TimerFires(0)]),
                  Late(own))
  {
    hide Encode, DecodeMessage, Feed, Complains, WireSafe, Received, After, Enabled, Leads, Late;
    var t2 := Table(map[0 := Call(own, own, Stored, Idle, [])], map[own.id := 0], {}, {own.id});
    var t3 := Table(map[0 := Call(own, own, Sent, Running, [])], map[own.id := 0], {}, {own.id});
    var s5 := Net(t3, NO_LINK.(running := [Item(Some(0), Received(own))]));
    FirstCall(tree, own, uuid, t2);
    SendsTo(tree, Net(t2, NO_LINK), 0, t3);
    TimesOut(tree, own, s5);
    LeadsOn(tree, Net(t2, NO_LINK), [SendStep(0), ClientWrites, ServerReads], s5, [TimerFires(0)], Late(own));
    LeadsOn(tree, START, [LoadStep(0, own, uuid), StoreStep(0)], Net(t2, NO_LINK),
            [SendStep(0), ClientWrites, ServerReads] + [TimerFires(0)], Late(own));
  }

  lemma TimesOut(tree: ActorTree, own: Message, s5: Net)
    requires IsRequest(own)
    requires s5.table == Table(map[0 := Call(own, own, Sent, Running, [])], map[own.id := 0], {}, {own.id})
    requires s5.link == NO_LINK.(running := [Item(Some(0), Received(own))])
    ensures Leads(tree, s5, [TimerFires(0)], Late(own))
  {
    hide Received;
    var t, u := Fire(s5.table, 0), Late(own).table;
    assert t.pending == u.pending;
    assert [] + [TimedOut(Timeout(own))] == [TimedOut(Timeout(own))];
    assert t.calls[0] == u.calls[0];
    assert t.calls == u.calls;
    LeadsOne(tree, s5, TimerFires(0));
  }

  /** A caller who uses the id of a call that has timed out can be given the other call's
      answer, made for other parameters. */
  lemma ReusedIdGetsOldAnswer(tree: ActorTree, own: Message, other: Message, a: Message, moment: int, k: Complaint,
                              uuid: string) returns (n: Net)
    requires Answers(tree, own, a, moment, k) && IsRequest(other) && own.id == other.id && Str(uuid) != own.id
    ensures Leads(tree, START,
                  [LoadStep(0, own, uuid), StoreStep(0)] + ([SendStep(0), ClientWrites, ServerReads] + [TimerFires(0)])
                  + ([LoadStep(1, other, uuid), StoreStep(1)] + [HandlerEnds(0, moment, k), ServerWrites, ClientReads]),
                  n)
    ensures {0, 1} <= n.table.calls.Keys && n.table.calls[0].placed == [TimedOut(Timeout(own))]
    ensures n.table.calls[1].own == other && n.table.calls[1].placed == [Answered(Received(a), Some(0), moment, k)]
  {
    hide Encode, DecodeMessage, Feed, Complains, WireSafe, Received, After, Enabled, Leads;
    AnswerIsLate(tree, own, uuid);
    var late := Late(own);
    ReceivedResponse(a);
    var s := SecondStored(tree, late, other, uuid);
    AnswerGoesTo(tree, s, 0, moment, k, a);
    n := GivenTo(s, 0, moment, k, a);
    hide Late, GivenTo;
    LeadsOn(tree, late, [LoadStep(1, other, uuid), StoreStep(1)], s,
            [HandlerEnds(0, moment, k), ServerWrites, ClientReads], n);
    LeadsOn(tree, START,
            [LoadStep(0, own, uuid), StoreStep(0)] + ([SendStep(0), ClientWrites, ServerReads] + [TimerFires(0)]), late,
            [LoadStep(1, other, uuid), StoreStep(1)] + [HandlerEnds(0, moment, k), ServerWrites, ClientReads], n);
  }

  lemma SecondStored(tree: ActorTree, s: Net, other: Message, uuid: string) returns (n: Net)
    requires Wellformed(s.table) && IsRequest(other) && s.table.calls.Keys == {0} && s.table.pending == map[]
    requires Str(uuid) !in s.table.ids
    ensures Leads(tree, s, [LoadStep(1, other, uuid), StoreStep(1)], n)
    ensures n.link == s.link && n.table.calls == s.table.calls[1 := Call(other, other, Stored, Idle, [])]
    ensures n.table.pending == map[other.id := 1] && Wellformed(n.table)
  {
    var m := Net(Load(s.table, 1, other, uuid), s.link);
    n := Net(Store(m.table, 1), s.link);
    LeadsByLoad(tree, s, 1, other, uuid);
    LeadsByStore(tree, m, 1);
    hide Leads, After, Enabled;
    LeadsOn(tree, s, [LoadStep(1, other, uuid)], m, [StoreStep(1)], n);
  }

  // ---- answers outside calls ---------------------------------------------------------------------

  /** So can a response that a handler sends through its session, or the answer to a request
      that the client has sent without a call: it goes to whoever is pending under its id. */
  lemma PushedResponseIsTaken(tree: ActorTree, s: Net, m: Message, c: nat) returns (n: Net)
    requires Wellformed(s.table) && s.link == NO_LINK && IsResultOrError(m) && WireSafe(m)
    requires m.id in s.table.pending && s.table.pending[m.id] == c
    ensures Leads(tree, s, [ServerPushes(m), ServerWrites, ClientReads], n)
    ensures c in n.table.calls && IsResultOrError(Received(m))
    ensures n.table.calls[c].placed == s.table.calls[c].placed
      + [Answered(Delivered(s.table.calls[c].own, Received(m)), None, 0, Complaint([], ""))]
  {
    hide Encode, DecodeMessage, WireSafe, Received;
    var k := Complaint([], "");
    ReceivedResponse(m);
    var s1 := Net(s.table, NO_LINK.(replies := [Item(None, Answer(0, k, m))]));
    var s2 := Net(s.table, NO_LINK.(down := [Item(None, AnswerText(0, k, Encode(m)))]));
    LeadsOne(tree, s, ServerPushes(m));
    assert [Item(None, Answer(0, k, m))][1..] == [];
    LeadsOne(tree, s1, ServerWrites);
    ReadsInto(tree, s2, None, 0, k, m);
    hide Leads, After, Enabled;
    n := Net(Place(s.table, m.id, Answered(Delivered(s.table.calls[c].own, Received(m)), None, 0, k)), s2.link.(down := []));
    LeadsOn(tree, s, [ServerPushes(m)], s1, [ServerWrites], s2);
    LeadsOn(tree, s, [ServerPushes(m), ServerWrites], s2, [ClientReads], n);
  }

  // ---- a concrete case --------------------------------------------------------------------------------

  /** An actor with one method, which gives back its first parameter. */
  function EchoActor(): ActorTree {
    var echo: Callback := (m: Message, moment: int) =>
      if m.Request? && m.params != [] then Gives(m.params[0]) else Gives(Null);
    ActorTree(true, true, map["echo" := Handler(echo, NoSchema)], None, [])
  }

  function EchoRequest(n: Int64): Message {
    Request(Int(7), "echo", [Int(n)], true, "")
  }

  /** The caller who sent 2 under an id used before is given the earlier caller's 1. */
  lemma EchoMisdirects() returns (steps: seq<Step>, states: seq<Net>, p: Placed)
    ensures IsRun(EchoActor(), steps, states)
    ensures var t := states[|steps|].table;
      && 1 in t.calls && t.calls[1].own == EchoRequest(2) && p in t.calls[1].placed
      && p.Answered? && p.msg == Result(Int(7), Number(Digits(1)), "")
  {
    var own, other, k := EchoRequest(1), EchoRequest(2), Complaint([], "");
    var a := Result(Int(7), Number(Digits(1)), "");
    EchoAnswers(k);
    var n := ReusedIdGetsOldAnswer(EchoActor(), own, other, a, 0, k, "u");
    steps := [LoadStep(0, own, "u"), StoreStep(0)] + ([SendStep(0), ClientWrites, ServerReads] + [TimerFires(0)])
      + ([LoadStep(1, other, "u"), StoreStep(1)] + [HandlerEnds(0, 0, k), ServerWrites, ClientReads]);
    states := LeadsByRun(EchoActor(), steps, n);
    hide IsRun, Leads;
    p := Answered(Received(a), Some(0), 0, k);
  }

  lemma EchoAnswers(k: Complaint)
    ensures Feed(EchoActor(), Received(EchoRequest(1)), 0, k) == Replied(Result(Int(7), Number(Digits(1)), ""))
    ensures Complains(EchoActor(), Received(EchoRequest(1)), k)
  {
    assert RereadAll([Int(1)]) == [Number(Digits(1))];
  }
}
