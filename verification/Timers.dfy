/** A timer is keyed by an id, and ends whichever call is pending under it.  When a timeout is
    the call's own, and when it is not. */
module Timers {
  import opened Values
  import opened Messages
  import opened Codec
  import opened Dispatch
  import opened Protocol
  import opened Correlation
  import opened Hazards

  // ---- one timer ---------------------------------------------------------------------------------

  /** A timer gives a timeout to the call that is pending under its id, which is exactly the
      call whose channel it touches, and perhaps not the call that it was started for. */
  lemma TimerEndsWhoeverIsPending(t: Table, c: nat, d: nat)
    requires Kept(t) && c in t.calls && t.calls[c].timer == Running && d in t.calls
    ensures var u, call := Fire(t, c), t.calls[d]; var w := t.calls[c].sent.id;
      && d in u.calls
      && (u.calls[d].placed != call.placed <==> w in t.pending && t.pending[w] == d)
      && (w in t.pending && t.pending[w] == d ==> u.calls[d].placed == [TimedOut(Timeout(call.own))])
      && (d != c ==> u.calls[d].timer == call.timer)
  {
    assert CallKept(t, d);
  }

  // ---- whole runs ----------------------------------------------------------------------------------

  /** The timer of the call is running, or will be once the call is sent. */
  predicate Ticking(call: Call) {
    call.phase == Stored || call.timer == Running
  }

  /** No ticking call's id stands for another call. */
  ghost predicate OwnTimers(t: Table) {
    && Wellformed(t)
    && forall d | d in t.calls && Ticking(t.calls[d]) && t.calls[d].sent.id in t.pending :: t.pending[t.calls[d].sent.id] == d
  }

  /** Every call with a timeout has been ended by its own timer. */
  ghost predicate Timely(t: Table) {
    forall c | c in t.calls :: forall p | p in t.calls[c].placed && p.TimedOut? :: t.calls[c].timer == Fired
  }

  /** A request is not stored under the id of a call that is ticking. */
  ghost predicate Punctual(t: Table, step: Step)
    requires Wellformed(t)
  {
    step.StoreStep? && step.call in t.calls ==>
      forall d | d in t.calls && d != step.call && Ticking(t.calls[d]) ::
        t.calls[d].sent.id != t.calls[step.call].sent.id
  }

  lemma StoreStaysTimely(t: Table, c: nat)
    requires OwnTimers(t) && Timely(t) && c in t.calls && t.calls[c].phase == Loaded && Punctual(t, StoreStep(c))
    ensures OwnTimers(Store(t, c)) && Timely(Store(t, c))
  {
  }

  lemma LoadStaysTimely(t: Table, c: nat, own: Message, uuid: string)
    requires OwnTimers(t) && Timely(t) && IsRequest(own) && c !in t.calls
    ensures OwnTimers(Load(t, c, own, uuid)) && Timely(Load(t, c, own, uuid))
  {
  }

  lemma SendingStaysTimely(t: Table, c: nat, ok: bool)
    requires OwnTimers(t) && Timely(t) && c in t.calls && t.calls[c].phase == Stored && t.calls[c].timer == Idle
    requires forall p | p in t.calls[c].placed :: p.Answered?
    ensures OwnTimers(Sending(t, c, ok)) && Timely(Sending(t, c, ok))
  {
  }

  lemma PlaceStaysOwn(t: Table, w: Value, p: Placed)
    requires OwnTimers(t) && w in t.pending
    ensures OwnTimers(Place(t, w, p))
  {
  }

  lemma FireStaysTimely(t: Table, c: nat)
    requires Kept(t) && OwnTimers(t) && Timely(t) && c in t.calls && t.calls[c].timer == Running
    ensures OwnTimers(Fire(t, c)) && Timely(Fire(t, c))
  {
    hide CallKept;
    var w := t.calls[c].sent.id;
    if w in t.pending {
      PlaceStaysOwn(t, w, TimedOut(Timeout(t.calls[t.pending[w]].own)));
    }
  }

  lemma ReadStaysTimely(s: Net)
    requires OwnTimers(s.table) && Timely(s.table) && Wellformed(s.table) && s.link.down != []
    ensures OwnTimers(ClientReadsFrom(s).table) && Timely(ClientReadsFrom(s).table)
  {
    hide DecodeMessage, Encode;
  }

  lemma SendIsEarly(t: Table, c: nat)
    requires Kept(t) && Timely(t) && c in t.calls && t.calls[c].phase == Stored
    ensures t.calls[c].timer == Idle && forall p | p in t.calls[c].placed :: p.Answered?
  {
    assert CallKept(t, c);
  }

  lemma StepStaysTimely(tree: ActorTree, s: Net, step: Step)
    requires Kept(s.table) && OwnTimers(s.table) && Timely(s.table) && Enabled(tree, s, step) && Punctual(s.table, step)
    ensures OwnTimers(After(tree, s, step).table) && Timely(After(tree, s, step).table)
  {
    hide Kept, OwnTimers, Timely, Punctual, Encode, DecodeMessage, Feed, Complains;
    hide Load, Store, Sending, Fire, ClientReadsFrom, HandlerEndsIn, ServerReadsFrom, ServerWritesTo;
    match step {
      case LoadStep(c, own, uuid) => LoadStaysTimely(s.table, c, own, uuid);
      case StoreStep(c) => StoreStaysTimely(s.table, c);
      case SendStep(c) =>
        SendIsEarly(s.table, c);
        SendingStaysTimely(s.table, c, true);
      case SendFails(c) =>
        SendIsEarly(s.table, c);
        SendingStaysTimely(s.table, c, false);
      case TimerFires(c) => FireStaysTimely(s.table, c);
      case ClientReads =>
        WellformedWhenOwn(s.table);
        ReadStaysTimely(s);
      case _ =>
    }
  }

  lemma WellformedWhenOwn(t: Table)
    requires OwnTimers(t)
    ensures Wellformed(t)
  {
  }

  lemma StartIsTimely()
    ensures OwnTimers(NO_TABLE) && Timely(NO_TABLE)
  {
  }

  lemma {:induction false} PunctualRunIsTimely(tree: ActorTree, steps: seq<Step>, states: seq<Net>, i: nat)
    requires IsRun(tree, steps, states) && i < |states|
    requires forall j | 0 <= j < i :: Punctual(states[j].table, steps[j])
    ensures OwnTimers(states[i].table) && Timely(states[i].table)
  {
    hide OwnTimers, Timely, After, Enabled, Punctual;
    if i == 0 {
      StartIsTimely();
    } else {
      var k := i - 1;
      PunctualRunIsTimely(tree, steps, states, k);
      RunKeeps(tree, steps, states, k);
      StepStaysTimely(tree, states[k], steps[k]);
      assert states[k + 1] == After(tree, states[k], steps[k]);
    }
  }

  /** A store that is not punctual leaves a ticking call's id standing for another. */
  lemma PunctualIsNeeded(tree: ActorTree, s: Net, step: Step)
    requires Kept(s.table) && OwnTimers(s.table) && Timely(s.table) && Enabled(tree, s, step)
    ensures OwnTimers(After(tree, s, step).table) <==> Punctual(s.table, step)
  {
    if Punctual(s.table, step) {
      StepStaysTimely(tree, s, step);
    } else {
      hide Kept;
      var t, c := s.table, step.call;
      var d :| d in t.calls && d != c && Ticking(t.calls[d]) && t.calls[d].sent.id == t.calls[c].sent.id;
      assert Ticking(Store(t, c).calls[d]);
    }
  }

  /** Exactly the punctual runs keep every timer its own call's. */
  lemma {:induction false} PunctualRuns(tree: ActorTree, steps: seq<Step>, states: seq<Net>, i: nat)
    requires IsRun(tree, steps, states) && i < |states|
    ensures (forall j | 0 <= j <= i :: OwnTimers(states[j].table))
      <==> (forall j | 0 <= j < i :: Punctual(states[j].table, steps[j]))
  {
    hide After, Enabled, Punctual, OwnTimers, Timely;
    if i == 0 {
      StartIsTimely();
    } else {
      var k := i - 1;
      PunctualRuns(tree, steps, states, k);
      RunKeeps(tree, steps, states, k);
      assert states[k + 1] == After(tree, states[k], steps[k]);
      if forall j | 0 <= j < k :: Punctual(states[j].table, steps[j]) {
        PunctualRunIsTimely(tree, steps, states, k);
        PunctualIsNeeded(tree, states[k], steps[k]);
      }
    }
  }

  /** Where no request is stored under the id of a call that is ticking, a call with a timeout
      has been ended by its own timer. */
  lemma TimeoutsAreOwn(tree: ActorTree, steps: seq<Step>, states: seq<Net>, i: nat, c: nat, p: Placed)
    requires IsRun(tree, steps, states) && i < |states|
    requires forall j | 0 <= j < i :: Punctual(states[j].table, steps[j])
    requires c in states[i].table.calls && p in states[i].table.calls[c].placed && p.TimedOut?
    ensures states[i].table.calls[c].timer == Fired
  {
    hide IsRun, Punctual, OwnTimers;
    PunctualRunIsTimely(tree, steps, states, i);
  }

  /** The condition cannot do with less: from any state, a request that is stored under the id
      of a call that is ticking can be ended by the other's timer, with its own not fired. */
  lemma LateStoreIsTimedOut(tree: ActorTree, s: Net, c: nat, d: nat) returns (steps: seq<Step>, n: Net)
    requires Kept(s.table) && c in s.table.calls && s.table.calls[c].phase == Loaded
    requires d in s.table.calls && d != c && Ticking(s.table.calls[d])
    requires s.table.calls[d].sent.Request? && s.table.calls[c].sent.Request?
    requires s.table.calls[d].sent.id == s.table.calls[c].sent.id
    ensures Leads(tree, s, [StoreStep(c)] + steps, n)
    ensures c in n.table.calls && n.table.calls[c].timer == Idle
    ensures n.table.calls[c].placed == [TimedOut(Timeout(s.table.calls[c].own))] && !Timely(n.table)
  {
    hide Leads, After, Kept;
    var s1 := Net(Store(s.table, c), s.link);
    StoreKeeps(s.table, c);
    WhenKept(s.table, c);
    WhenKept(s1.table, c);
    WhenKept(s1.table, d);
    LeadsByStore(tree, s, c);
    steps, n := TimerOfOther(tree, s1, c, d);
    LeadsOn(tree, s, [StoreStep(c)], s1, steps, n);
  }

  lemma WhenKept(t: Table, c: nat)
    requires Kept(t) && c in t.calls
    ensures Wellformed(t) && (t.calls[c].timer != Idle <==> t.calls[c].phase == Sent)
    ensures t.calls[c].phase == Loaded ==> t.calls[c].placed == [] && c !in t.lost
  {
    assert CallKept(t, c);
  }

  lemma TimerOfOther(tree: ActorTree, s: Net, c: nat, d: nat) returns (steps: seq<Step>, n: Net)
    requires Wellformed(s.table) && c in s.table.calls && d in s.table.calls && d != c && Ticking(s.table.calls[d])
    requires s.table.calls[c].timer == Idle && s.table.calls[c].placed == []
    requires s.table.calls[d].sent.id in s.table.pending && s.table.pending[s.table.calls[d].sent.id] == c
    ensures Leads(tree, s, steps, n)
    ensures c in n.table.calls && n.table.calls[c].timer == Idle
    ensures n.table.calls[c].placed == [TimedOut(Timeout(s.table.calls[c].own))] && !Timely(n.table)
    decreases s.table.calls[d].phase == Stored
  {
    if s.table.calls[d].timer == Running {
      steps := [TimerFires(d)];
      n := Net(Fire(s.table, d), s.link);
      LeadsOne(tree, s, TimerFires(d));
      assert TimedOut(Timeout(s.table.calls[c].own)) in n.table.calls[c].placed;
    } else {
      var s1 := Net(Sending(s.table, d, true), s.link.(sendChannel := s.link.sendChannel + [Item(Some(d), s.table.calls[d].sent)]));
      LeadsOne(tree, s, SendStep(d));
      hide Leads, After;
      var rest;
      rest, n := TimerOfOther(tree, s1, c, d);
      steps := [SendStep(d)] + rest;
      LeadsOn(tree, s, [SendStep(d)], s1, rest, n);
    }
  }

  /** In particular, where no id has gone out twice, every timeout is the call's own. */
  lemma {:induction false} TimeoutsAreOwnWithoutReuse(tree: ActorTree, steps: seq<Step>, states: seq<Net>, i: nat, c: nat,
                                                      p: Placed)
    requires IsRun(tree, steps, states) && i < |states| && Distinct(states[i].table)
    requires c in states[i].table.calls && p in states[i].table.calls[c].placed && p.TimedOut?
    ensures states[i].table.calls[c].timer == Fired
  {
    hide IsRun, Punctual;
    DistinctRunIsPunctual(tree, steps, states, i);
    TimeoutsAreOwn(tree, steps, states, i, c, p);
  }

  lemma {:induction false} DistinctRunIsPunctual(tree: ActorTree, steps: seq<Step>, states: seq<Net>, i: nat)
    requires IsRun(tree, steps, states) && i < |states| && Distinct(states[i].table)
    ensures forall j | 0 <= j < i :: Wellformed(states[j].table) && Punctual(states[j].table, steps[j])
  {
    hide After, Enabled;
    if i > 0 {
      var k := i - 1;
      assert states[k + 1] == After(tree, states[k], steps[k]);
      DistinctBefore(tree, states[k], steps[k]);
      DistinctRunIsPunctual(tree, steps, states, k);
    }
  }

  // ---- a run in which a timeout is not the call's own ---------------------------------------------

  /** A call is answered; a second call uses its id; and the timer of the first, still running,
      ends the second, whose own timer has not been started. */
  lemma OldTimerEndsLaterCall(tree: ActorTree, own: Message, other: Message, a: Message, moment: int, k: Complaint,
                              uuid: string) returns (n: Net)
    requires Answers(tree, own, a, moment, k) && IsRequest(other) && own.id == other.id && Str(uuid) != own.id
    ensures Leads(tree, START,
                  [LoadStep(0, own, uuid), StoreStep(0)] + Exchange(moment, k)
                  + [LoadStep(1, other, uuid), StoreStep(1), TimerFires(0)], n)
    ensures {0, 1} <= n.table.calls.Keys
    ensures n.table.calls[0].placed == [Answered(Received(a), Some(0), moment, k)]
    ensures n.table.calls[1].own == other && n.table.calls[1].timer == Idle
    ensures n.table.calls[1].placed == [TimedOut(Timeout(other))]
  {
    hide Encode, DecodeMessage, Feed, Complains, WireSafe, Received, After, Enabled, Leads, Exchange;
    var s := Settled(own, a, moment, k);
    UndisturbedCall(tree, own, a, moment, k, uuid);
    n := TimesOutSecond(tree, s, other, uuid);
    LeadsOn(tree, START, [LoadStep(0, own, uuid), StoreStep(0)] + Exchange(moment, k), s,
            [LoadStep(1, other, uuid), StoreStep(1), TimerFires(0)], n);
  }

  lemma TimesOutSecond(tree: ActorTree, s: Net, other: Message, uuid: string) returns (n: Net)
    requires Wellformed(s.table) && s.table.calls.Keys == {0} && s.table.pending == map[] && IsRequest(other)
    requires s.table.calls[0].timer == Running && s.table.calls[0].sent.id == other.id && Str(uuid) !in s.table.ids
    ensures Leads(tree, s, [LoadStep(1, other, uuid), StoreStep(1), TimerFires(0)], n)
    ensures {0, 1} <= n.table.calls.Keys && n.table.calls[0].placed == s.table.calls[0].placed
    ensures n.table.calls[1].own == other && n.table.calls[1].timer == Idle
    ensures n.table.calls[1].placed == [TimedOut(Timeout(other))]
  {
    var s1 := Net(Load(s.table, 1, other, uuid), s.link);
    var s2 := Net(Store(s1.table, 1), s.link);
    n := Net(Fire(s2.table, 0), s.link);
    LeadsByLoad(tree, s, 1, other, uuid);
    LeadsByStore(tree, s1, 1);
    LeadsOne(tree, s2, TimerFires(0));
    hide Leads, After, Enabled;
    LeadsOn(tree, s, [LoadStep(1, other, uuid)], s1, [StoreStep(1)], s2);
    LeadsOn(tree, s, [LoadStep(1, other, uuid), StoreStep(1)], s2, [TimerFires(0)], n);
  }
}
