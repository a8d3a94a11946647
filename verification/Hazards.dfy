/** Runs: a call that nothing disturbs, and what goes wrong without the conditions of
    `Correlation` and of `Protocol.NoCallIsLost`. */
module Hazards {
  import opened Values
  import opened Schemas
  import opened Messages
  import opened Codec
  import opened Dispatch
  import opened Protocol
  import opened Correlation

  /** `steps` can be taken from `s`, and lead to `n`. */
  ghost predicate Leads(tree: ActorTree, s: Net, steps: seq<Step>, n: Net)
    decreases |steps|
  {
    if steps == [] then n == s
    else Wellformed(s.table) && Enabled(tree, s, steps[0]) && Leads(tree, After(tree, s, steps[0]), steps[1..], n)
  }

  /** The states that `steps` pass through. */
  lemma {:induction false} Passes(tree: ActorTree, s: Net, steps: seq<Step>, n: Net) returns (states: seq<Net>)
    requires Leads(tree, s, steps, n)
    ensures |states| == |steps| + 1 && states[0] == s && states[|steps|] == n
    ensures forall i | 0 <= i < |steps| :: Wellformed(states[i].table)
    ensures forall i | 0 <= i < |steps| ::
      Enabled(tree, states[i], steps[i]) && states[i + 1] == After(tree, states[i], steps[i])
    decreases |steps|
  {
    hide Enabled, After;
    if steps == [] {
      states := [s];
    } else {
      var rest := Passes(tree, After(tree, s, steps[0]), steps[1..], n);
      states := [s] + rest;
      forall i | 0 <= i < |steps|
        ensures Wellformed(states[i].table) && Enabled(tree, states[i], steps[i])
        ensures states[i + 1] == After(tree, states[i], steps[i])
      {
        if i > 0 {
          assert states[i] == rest[i - 1] && states[i + 1] == rest[i] && steps[i] == steps[1..][i - 1];
        }
      }
    }
  }

  /** What is led to from the start is the last state of a run. */
  lemma LeadsByRun(tree: ActorTree, steps: seq<Step>, n: Net) returns (states: seq<Net>)
    requires Leads(tree, START, steps, n)
    ensures IsRun(tree, steps, states) && states[|steps|] == n
  {
    hide Enabled, After, Leads;
    states := Passes(tree, START, steps, n);
  }

  lemma {:induction false} LeadsOn(tree: ActorTree, s: Net, a: seq<Step>, m: Net, b: seq<Step>, n: Net)
    requires Leads(tree, s, a, m) && Leads(tree, m, b, n)
    ensures Leads(tree, s, a + b, n)
    decreases |a|
  {
    hide Enabled, After;
    if a == [] {
      assert a + b == b;
    } else {
      assert (a + b)[1..] == a[1..] + b;
      LeadsOn(tree, After(tree, s, a[0]), a[1..], m, b, n);
    }
  }

  lemma LeadsOne(tree: ActorTree, s: Net, step: Step)
    requires Wellformed(s.table) && Enabled(tree, s, step)
    ensures Leads(tree, s, [step], After(tree, s, step))
  {
    assert [step][1..] == [];
  }

  predicate IsRequest(m: Message) {
    m.Request? && m.methodName != ""
  }

  // ---- from one state to another ------------------------------------------------------------------

  lemma LoadIs(t: Table, c: nat, own: Message, uuid: string, u: Table)
    requires IsRequest(own) && own.id !in t.pending
    requires u == Table(t.calls[c := Call(own, own, Loaded, Idle, [])], t.pending, t.lost, t.ids + {own.id})
    ensures Load(t, c, own, uuid) == u
  {
  }

  lemma StoreIs(t: Table, c: nat, u: Table)
    requires c in t.calls && t.calls[c].sent.Request?
    requires u.calls == t.calls[c := Call(t.calls[c].own, t.calls[c].sent, Stored, t.calls[c].timer, t.calls[c].placed)]
    requires u.pending == t.pending[t.calls[c].sent.id := c] && u.ids == t.ids
    requires u.lost == if t.calls[c].sent.id in t.pending then t.lost + {t.pending[t.calls[c].sent.id]} else t.lost
    ensures Store(t, c) == u
  {
  }

  lemma FirstCall(tree: ActorTree, own: Message, uuid: string, t2: Table)
    requires IsRequest(own) && t2 == Table(map[0 := Call(own, own, Stored, Idle, [])], map[own.id := 0], {}, {own.id})
    ensures Leads(tree, START, [LoadStep(0, own, uuid), StoreStep(0)], Net(t2, NO_LINK))
  {
    var t1 := Table(map[0 := Call(own, own, Loaded, Idle, [])], map[], {}, {own.id});
    LoadIs(NO_TABLE, 0, own, uuid, t1);
    StoreIs(t1, 0, t2);
    LeadsOne(tree, START, LoadStep(0, own, uuid));
    LeadsOne(tree, Net(t1, NO_LINK), StoreStep(0));
    LeadsOn(tree, START, [LoadStep(0, own, uuid)], Net(t1, NO_LINK), [StoreStep(0)], Net(t2, NO_LINK));
  }

  lemma LeadsByLoad(tree: ActorTree, s: Net, c: nat, own: Message, uuid: string)
    requires Wellformed(s.table) && Enabled(tree, s, LoadStep(c, own, uuid))
    ensures Leads(tree, s, [LoadStep(c, own, uuid)], Net(Load(s.table, c, own, uuid), s.link))
  {
    hide Load;
    LeadsOne(tree, s, LoadStep(c, own, uuid));
  }

  lemma LeadsByStore(tree: ActorTree, s: Net, c: nat)
    requires Wellformed(s.table) && c in s.table.calls && s.table.calls[c].phase == Loaded
    ensures Leads(tree, s, [StoreStep(c)], Net(Store(s.table, c), s.link))
  {
    hide Store;
    LeadsOne(tree, s, StoreStep(c));
  }

  /** A safe message sent on a quiet link reaches a goroutine of the server. */
  lemma SendsTo(tree: ActorTree, s: Net, c: nat, t: Table)
    requires Wellformed(s.table) && s.link == NO_LINK && c in s.table.calls && s.table.calls[c].phase == Stored
    requires WireSafe(s.table.calls[c].sent) && t == Sending(s.table, c, true)
    ensures Leads(tree, s, [SendStep(c), ClientWrites, ServerReads],
                  Net(t, NO_LINK.(running := [Item(Some(c), Received(s.table.calls[c].sent))])))
  {
    hide Encode, DecodeMessage, WireSafe, Received;
    var sent := s.table.calls[c].sent;
    var x := Item(Some(c), sent);
    RoundTrip(sent, DEFAULT);
    var s3 := Net(t, NO_LINK.(sendChannel := [x]));
    var s4 := Net(t, NO_LINK.(up := [Item(Some(c), Encode(sent))]));
    LeadsOne(tree, s, SendStep(c));
    assert [x][1..] == [];
    LeadsOne(tree, s3, ClientWrites);
    assert [Item(Some(c), Encode(sent))][1..] == [];
    LeadsOne(tree, s4, ServerReads);
    hide After, Enabled, Leads;
    LeadsOn(tree, s, [SendStep(c)], s3, [ClientWrites], s4);
    LeadsOn(tree, s, [SendStep(c), ClientWrites], s4, [ServerReads],
            Net(t, NO_LINK.(running := [Item(Some(c), Received(sent))])));
  }

  /** The call pending under the id of `a` has been given it, as the answer to what the `i`th
      handler was at. */
  ghost function GivenTo(s: Net, i: nat, moment: int, k: Complaint, a: Message): Net
    requires Wellformed(s.table) && i < |s.link.running| && IsResultOrError(a) && a.id in s.table.pending
  {
    ReceivedResponse(a);
    var own := s.table.calls[s.table.pending[a.id]].own;
    Net(Place(s.table, a.id, Answered(Delivered(own, Received(a)), s.link.running[i].call, moment, k)),
        s.link.(running := Removed(s.link.running, i)))
  }

  ghost predicate Ends(tree: ActorTree, s: Net, i: nat, moment: int, k: Complaint, a: Message) {
    && Wellformed(s.table) && s.link.open && s.link.replies == [] && s.link.down == []
    && i < |s.link.running| && Complains(tree, s.link.running[i].body, k)
    && Feed(tree, s.link.running[i].body, moment, k) == Replied(a)
    && IsResultOrError(a) && WireSafe(a) && a.id in s.table.pending
  }

  /** A handler ends with an answer, and nothing is ahead of it on the way down: whichever
      call is pending under its id gets it. */
  lemma AnswerGoesTo(tree: ActorTree, s: Net, i: nat, moment: int, k: Complaint, a: Message)
    requires Ends(tree, s, i, moment, k, a)
    ensures Leads(tree, s, [HandlerEnds(i, moment, k), ServerWrites, ClientReads], GivenTo(s, i, moment, k, a))
  {
    hide Encode, DecodeMessage, Feed, Complains, WireSafe, Received, Removed;
    var call := s.link.running[i].call;
    var rest := s.link.(running := Removed(s.link.running, i));
    var s9 := Net(s.table, rest.(replies := [Item(call, Answer(moment, k, a))]));
    var s10 := Net(s.table, rest.(down := [Item(call, AnswerText(moment, k, Encode(a)))]));
    LeadsOne(tree, s, HandlerEnds(i, moment, k));
    assert [Item(call, Answer(moment, k, a))][1..] == [];
    LeadsOne(tree, s9, ServerWrites);
    ReadsInto(tree, s10, call, moment, k, a);
    hide After, Enabled, Leads, GivenTo;
    LeadsOn(tree, s, [HandlerEnds(i, moment, k)], s9, [ServerWrites], s10);
    LeadsOn(tree, s, [HandlerEnds(i, moment, k), ServerWrites], s10, [ClientReads], GivenTo(s, i, moment, k, a));
  }

  lemma ReadsInto(tree: ActorTree, s: Net, call: Option<nat>, moment: int, k: Complaint, a: Message)
    requires Wellformed(s.table) && s.link.open && s.link.down == [Item(call, AnswerText(moment, k, Encode(a)))]
    requires IsResultOrError(a) && WireSafe(a) && a.id in s.table.pending
    ensures IsResultOrError(Received(a))
    ensures Leads(tree, s, [ClientReads],
                  Net(Place(s.table, a.id, Answered(Delivered(s.table.calls[s.table.pending[a.id]].own, Received(a)), call, moment, k)),
                      s.link.(down := [])))
  {
    hide Encode, DecodeMessage, WireSafe, Place, Delivered;
    RoundTrip(a, DEFAULT);
    ReceivedResponse(a);
    hide Received;
    LeadsOne(tree, s, ClientReads);
    assert s.link.down[1..] == [];
  }

  // ---- a call that nothing disturbs ------------------------------------------------------------

  /** The caller of `own` has its answer, and nothing is left on the link. */
  ghost function Settled(own: Message, a: Message, moment: int, k: Complaint): Net
    requires IsRequest(own)
  {
    Net(Table(map[0 := Call(own, own, Sent, Running, [Answered(Received(a), Some(0), moment, k)])], map[], {}, {own.id}),
        NO_LINK)
  }

  ghost function Exchange(moment: int, k: Complaint): seq<Step> {
    [SendStep(0), ClientWrites, ServerReads] + [HandlerEnds(0, moment, k), ServerWrites, ClientReads]
  }

  /** The actor answers the request `own` with `a`. */
  ghost predicate Answers(tree: ActorTree, own: Message, a: Message, moment: int, k: Complaint) {
    && IsRequest(own) && WireSafe(own)
    && Feed(tree, Received(own), moment, k) == Replied(a) && Complains(tree, Received(own), k)
    && IsResultOrError(a) && a.id == own.id && WireSafe(a)
  }

  /** Each step of an undisturbed call does its part: the request goes out, is handled, and its
      answer comes back to the caller. */
  lemma UndisturbedCall(tree: ActorTree, own: Message, a: Message, moment: int, k: Complaint, uuid: string)
    requires Answers(tree, own, a, moment, k)
    ensures Leads(tree, START, [LoadStep(0, own, uuid), StoreStep(0)] + Exchange(moment, k), Settled(own, a, moment, k))
  {
    hide Encode, DecodeMessage, Feed, Complains, WireSafe, Received, After, Enabled, Leads, GivenTo, Settled;
    var t2 := Table(map[0 := Call(own, own, Stored, Idle, [])], map[own.id := 0], {}, {own.id});
    var t3 := Table(map[0 := Call(own, own, Sent, Running, [])], map[own.id := 0], {}, {own.id});
    var s5 := Net(t3, NO_LINK.(running := [Item(Some(0), Received(own))]));
    FirstCall(tree, own, uuid, t2);
    SendsTo(tree, Net(t2, NO_LINK), 0, t3);
    AnswerGoesTo(tree, s5, 0, moment, k, a);
    SettledIs(own, a, moment, k, s5);
    LeadsOn(tree, Net(t2, NO_LINK), [SendStep(0), ClientWrites, ServerReads], s5,
            [HandlerEnds(0, moment, k), ServerWrites, ClientReads], Settled(own, a, moment, k));
    LeadsOn(tree, START, [LoadStep(0, own, uuid), StoreStep(0)], Net(t2, NO_LINK), Exchange(moment, k),
            Settled(own, a, moment, k));
  }

  lemma SettledIs(own: Message, a: Message, moment: int, k: Complaint, s: Net)
    requires IsRequest(own) && IsResultOrError(a) && a.id == own.id
    requires s.table == Table(map[0 := Call(own, own, Sent, Running, [])], map[own.id := 0], {}, {own.id})
    requires s.link == NO_LINK.(running := [Item(Some(0), Received(own))])
    ensures GivenTo(s, 0, moment, k, a) == Settled(own, a, moment, k)
  {
    ReceivedResponse(a);
    hide Received;
    var t, u := GivenTo(s, 0, moment, k, a).table, Settled(own, a, moment, k).table;
    assert Removed(s.link.running, 0) == [];
    assert t.pending == u.pending;
    assert t.calls[0] == u.calls[0];
    assert t.calls == u.calls;
  }

  // ---- check and store apart -----------------------------------------------------------------------

  /** The other half of `Protocol.NoCallIsLost`: from any state, a check that is followed by the
      store of a call `d`, which had been checked before, and only then by its own, loses `d`
      exactly when it was not exclusive of `d`. */
  lemma OverlapLosesCall(tree: ActorTree, s: Net, c: nat, own: Message, uuid: string, d: nat) returns (n: Net)
    requires Kept(s.table) && Enabled(tree, s, LoadStep(c, own, uuid))
    requires d in s.table.calls && s.table.calls[d].phase == Loaded
    ensures Leads(tree, s, [LoadStep(c, own, uuid), StoreStep(d), StoreStep(c)], n)
    ensures s.table.calls[d].sent.Request?
    ensures d in n.table.lost <==> s.table.calls[d].sent.id == SentId(s.table, own, uuid)
  {
    var t := s.table;
    var t1, t2 := OverlapLoses(t, c, own, uuid, d);
    n := Net(Store(t2, c), s.link);
    LeadsByLoad(tree, s, c, own, uuid);
    hide Leads, After, Enabled, Kept, Load, Store;
    LeadsByStore(tree, Net(t1, s.link), d);
    LeadsByStore(tree, Net(t2, s.link), c);
    LeadsOn(tree, s, [LoadStep(c, own, uuid)], Net(t1, s.link), [StoreStep(d)], Net(t2, s.link));
    LeadsOn(tree, s, [LoadStep(c, own, uuid), StoreStep(d)], Net(t2, s.link), [StoreStep(c)], n);
  }

  lemma OverlapLoses(t: Table, c: nat, own: Message, uuid: string, d: nat) returns (t1: Table, t2: Table)
    requires Kept(t) && c !in t.calls && IsRequest(own) && d in t.calls && t.calls[d].phase == Loaded
    ensures t1 == Load(t, c, own, uuid) && Kept(t1) && Wellformed(t1) && d in t1.calls && t1.calls[d].phase == Loaded
    ensures t2 == Store(t1, d) && Kept(t2) && Wellformed(t2) && c in t2.calls && t2.calls[c].phase == Loaded
    ensures t.calls[d].sent.Request? && (d in Store(t2, c).lost <==> t.calls[d].sent.id == SentId(t, own, uuid))
  {
    assert CallKept(t, d);
    hide CallKept;
    t1 := Load(t, c, own, uuid);
    LoadKeeps(t, c, own, uuid);
    t2 := Store(t1, d);
    StoreKeeps(t1, d);
  }

  /** The table after two calls of one id, both checked before either is stored. */
  ghost function Raced(own: Message, other: Message): Table
    requires own.Request?
  {
    Table(map[0 := Call(own, own, Stored, Idle, []), 1 := Call(other, other, Stored, Idle, [])],
          map[own.id := 1], {0}, {own.id})
  }

  const RACE: (Message, Message, string, string) -> seq<Step> := (own, other, u0, u1) =>
    [LoadStep(0, own, u0), LoadStep(1, other, u1), StoreStep(0), StoreStep(1)]

  /** Two calls of one id that both pass the check: the second store loses the first call. */
  lemma RaceLosesCall(tree: ActorTree, own: Message, other: Message, u0: string, u1: string)
    requires IsRequest(own) && IsRequest(other) && own.id == other.id && Str(u1) != own.id
    ensures Leads(tree, START, RACE(own, other, u0, u1), Net(Raced(own, other), NO_LINK))
  {
    hide Leads, After, Enabled, Raced;
    var a, b := Call(own, own, Loaded, Idle, []), Call(other, other, Loaded, Idle, []);
    var t2 := Table(map[0 := a, 1 := b], map[], {}, {own.id});
    BothPass(tree, own, other, u0, u1, t2);
    BothStore(tree, own, other, t2);
    LeadsOn(tree, START, [LoadStep(0, own, u0), LoadStep(1, other, u1)], Net(t2, NO_LINK),
            [StoreStep(0), StoreStep(1)], Net(Raced(own, other), NO_LINK));
    assert RACE(own, other, u0, u1) == [LoadStep(0, own, u0), LoadStep(1, other, u1)] + [StoreStep(0), StoreStep(1)];
  }

  lemma BothPass(tree: ActorTree, own: Message, other: Message, u0: string, u1: string, t2: Table)
    requires IsRequest(own) && IsRequest(other) && own.id == other.id && Str(u1) != own.id
    requires t2 == Table(map[0 := Call(own, own, Loaded, Idle, []), 1 := Call(other, other, Loaded, Idle, [])],
                         map[], {}, {own.id})
    ensures Leads(tree, START, [LoadStep(0, own, u0), LoadStep(1, other, u1)], Net(t2, NO_LINK))
  {
    var t1 := Table(map[0 := Call(own, own, Loaded, Idle, [])], map[], {}, {own.id});
    LoadIs(NO_TABLE, 0, own, u0, t1);
    LoadIs(t1, 1, other, u1, t2);
    hide Leads, After, Load;
    LeadsByLoad(tree, START, 0, own, u0);
    LeadsByLoad(tree, Net(t1, NO_LINK), 1, other, u1);
    LeadsOn(tree, START, [LoadStep(0, own, u0)], Net(t1, NO_LINK), [LoadStep(1, other, u1)], Net(t2, NO_LINK));
  }

  lemma BothStore(tree: ActorTree, own: Message, other: Message, t2: Table)
    requires IsRequest(own) && IsRequest(other) && own.id == other.id
    requires t2 == Table(map[0 := Call(own, own, Loaded, Idle, []), 1 := Call(other, other, Loaded, Idle, [])],
                         map[], {}, {own.id})
    ensures Leads(tree, Net(t2, NO_LINK), [StoreStep(0), StoreStep(1)], Net(Raced(own, other), NO_LINK))
  {
    var t3 := Table(map[0 := Call(own, own, Stored, Idle, []), 1 := Call(other, other, Loaded, Idle, [])],
                    map[own.id := 0], {}, {own.id});
    StoreIs(t2, 0, t3);
    StoreIs(t3, 1, Raced(own, other));
    hide Leads, After, Store;
    LeadsByStore(tree, Net(t2, NO_LINK), 0);
    LeadsByStore(tree, Net(t3, NO_LINK), 1);
    LeadsOn(tree, Net(t2, NO_LINK), [StoreStep(0)], Net(t3, NO_LINK), [StoreStep(1)], Net(Raced(own, other), NO_LINK));
  }

  /** The race does worse than lose a call.  With no timer fired, the second caller is given the
      answer that was made for the first. */
  lemma RaceMisdirects(tree: ActorTree, own: Message, other: Message, a: Message, moment: int, k: Complaint,
                       u0: string, u1: string) returns (n: Net)
    requires Answers(tree, own, a, moment, k) && IsRequest(other) && own.id == other.id && Str(u1) != own.id
    ensures Leads(tree, START, RACE(own, other, u0, u1) + Exchange(moment, k), n)
    ensures 0 in n.table.lost && 1 in n.table.calls
    ensures n.table.calls[1].own == other && n.table.calls[1].placed == [Answered(Received(a), Some(0), moment, k)]
  {
    hide Encode, DecodeMessage, Feed, Complains, WireSafe, Received, After, Enabled, Leads;
    ReceivedResponse(a);
    var s4 := Net(Raced(own, other), NO_LINK);
    var t := Sending(s4.table, 0, true);
    var s7 := Net(t, NO_LINK.(running := [Item(Some(0), Received(own))]));
    n := GivenTo(s7, 0, moment, k, a);
    RaceLosesCall(tree, own, other, u0, u1);
    SendsTo(tree, s4, 0, t);
    AnswerGoesTo(tree, s7, 0, moment, k, a);
    hide GivenTo;
    LeadsOn(tree, s4, [SendStep(0), ClientWrites, ServerReads], s7,
            [HandlerEnds(0, moment, k), ServerWrites, ClientReads], n);
    LeadsOn(tree, START, RACE(own, other, u0, u1), s4, Exchange(moment, k), n);
  }

  /** A lost call gets no message, whatever happens next, not even by its own timer. */
  lemma StaysLost(tree: ActorTree, s: Net, step: Step, c: nat)
    requires Kept(s.table) && c in s.table.lost && Enabled(tree, s, step)
    ensures c in After(tree, s, step).table.lost
  {
    hide Encode, DecodeMessage, Feed, Complains, HandlerEndsIn, ServerReadsFrom, ServerWritesTo, CallKept;
  }

  /** A call that is lost at one point of a run has no message at that point or any later. */
  lemma {:induction false} LostForever(tree: ActorTree, steps: seq<Step>, states: seq<Net>, i: nat, j: nat, c: nat)
    requires IsRun(tree, steps, states) && i <= j < |states| && c in states[i].table.lost
    ensures var t := states[j].table; c in t.lost && c in t.calls && t.calls[c].placed == []
    decreases j
  {
    RunKeeps(tree, steps, states, j);
    if i < j {
      var k := j - 1;
      LostForever(tree, steps, states, i, k, c);
      RunKeeps(tree, steps, states, k);
      StaysLost(tree, states[k], steps[k], c);
      assert states[k + 1] == After(tree, states[k], steps[k]);
    }
    assert CallKept(states[j].table, c);
  }
}
