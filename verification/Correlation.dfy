/** Every answer reaches the call that it was made for. */
module Correlation {
  import opened Values
  import opened Messages
  import opened Codec
  import opened Dispatch
  import opened Protocol

  // ---- the calls that have something under way ------------------------------------------------

  function Marks(call: Option<nat>, c: nat): nat {
    if call == Some(c) then 1 else 0
  }

  /** How many things in the queue are marked with `c`. */
  function Count<T>(q: seq<Item<T>>, c: nat): nat {
    if q == [] then 0 else Marks(q[0].call, c) + Count(q[1..], c)
  }

  lemma {:induction false} CountAppended<T>(q: seq<Item<T>>, x: Item<T>, c: nat)
    ensures Count(q + [x], c) == Count(q, c) + Marks(x.call, c)
  {
    if q == [] {
      assert q + [x] == [x];
    } else {
      assert (q + [x])[1..] == q[1..] + [x];
      CountAppended(q[1..], x, c);
    }
  }

  lemma {:induction false} CountRemoved<T>(q: seq<Item<T>>, i: nat, c: nat)
    requires i < |q|
    ensures Count(q, c) == Count(Removed(q, i), c) + Marks(q[i].call, c)
  {
    if i == 0 {
      assert Removed(q, 0) == q[1..];
    } else {
      assert Removed(q, i)[1..] == Removed(q[1..], i - 1);
      CountRemoved(q[1..], i - 1, c);
    }
  }

  /** How many things on the link are marked with `c`. */
  function InFlight(l: Link, c: nat): nat {
    Count(l.sendChannel, c) + Count(l.up, c) + Count(l.running, c) + Count(l.replies, c) + Count(l.down, c)
  }

  /** Only sending adds to what is in flight, and reading takes away what has been read. */
  lemma StepInFlight(tree: ActorTree, s: Net, step: Step, c: nat)
    requires Wellformed(s.table) && Enabled(tree, s, step)
    ensures var before, after := InFlight(s.link, c), InFlight(After(tree, s, step).link, c);
      match step
      case SendStep(d) => after == before + (if c == d then 1 else 0)
      case ClientReads => after + Marks(s.link.down[0].call, c) <= before
      case _ => after <= before
  {
    hide Encode, DecodeMessage, Feed, Complains, Load, Store, Sending, Fire, Place, HandleResult, Wellformed, Count;
    hide HandlerEndsIn, ClientWritesTo, ServerReadsFrom, ServerWritesTo, ClientReadsFrom, Closed;
    var l := s.link;
    match step {
      case SendStep(d) => CountAppended(l.sendChannel, Item(Some(d), s.table.calls[d].sent), c);
      case SendOther(m) => CountAppended(l.sendChannel, Item(None, m), c);
      case ClientWrites => WriteInFlight(l, c);
      case ServerReads => ServerReadInFlight(l, c);
      case HandlerEnds(i, moment, complaint) => HandlerInFlight(tree, l, i, moment, complaint, c);
      case ServerPushes(m) => CountAppended(l.replies, Item(None, Answer(0, Complaint([], ""), m)), c);
      case ServerWrites => ServerWriteInFlight(l, c);
      case ClientReads => ReadInFlight(s, c);
      case HangUp => ClosedInFlight(l, c);
      case _ =>
    }
  }

  lemma WriteInFlight(l: Link, c: nat)
    requires l.sendChannel != []
    ensures InFlight(ClientWritesTo(l), c) == InFlight(l, c)
  {
    CountAppended(l.up, Item(l.sendChannel[0].call, Encode(l.sendChannel[0].body)), c);
  }

  lemma ServerReadInFlight(l: Link, c: nat)
    requires l.up != []
    ensures InFlight(ServerReadsFrom(l), c) <= InFlight(l, c)
  {
    hide DecodeMessage;
    var d := DecodeMessage(l.up[0].body, DEFAULT);
    if d.Decoded? {
      CountAppended(l.running, Item(l.up[0].call, d.msg), c);
    } else {
      ClosedInFlight(l.(up := l.up[1..]), c);
    }
  }

  lemma ServerWriteInFlight(l: Link, c: nat)
    requires l.replies != []
    ensures InFlight(ServerWritesTo(l), c) == InFlight(l, c)
  {
    var a := l.replies[0];
    CountAppended(l.down, Item(a.call, AnswerText(a.body.moment, a.body.complaint, Encode(a.body.msg))), c);
  }

  lemma ReadInFlight(s: Net, c: nat)
    requires Wellformed(s.table) && s.link.down != []
    ensures InFlight(ClientReadsFrom(s).link, c) + Marks(s.link.down[0].call, c) <= InFlight(s.link, c)
  {
    hide DecodeMessage, HandleResult, Closed;
    ClosedInFlight(s.link.(down := s.link.down[1..]), c);
  }

  lemma ClosedInFlight(l: Link, c: nat)
    ensures InFlight(Closed(l), c) <= InFlight(l, c)
  {
  }

  lemma HandlerInFlight(tree: ActorTree, l: Link, i: nat, moment: int, complaint: Complaint, c: nat)
    requires i < |l.running|
    ensures InFlight(HandlerEndsIn(tree, l, i, moment, complaint), c) <= InFlight(l, c)
  {
    hide Feed, Removed;
    CountRemoved(l.running, i, c);
    var fed := Feed(tree, l.running[i].body, moment, complaint);
    if fed.Replied? {
      CountAppended(l.replies, Item(l.running[i].call, Answer(moment, complaint, fed.msg)), c);
    }
  }

  // ---- what is under way ----------------------------------------------------------------------

  /** The answer that the server makes for a request sent as `sent`, if it makes one. */
  ghost function AnswerOf(tree: ActorTree, sent: Message, moment: int, complaint: Complaint): Option<Message> {
    match DecodeMessage(Encode(sent), DEFAULT)
    case Refused(_) => None
    case Decoded(q) =>
      match Feed(tree, q, moment, complaint)
      case Replied(m) => Some(m)
      case _ => None
  }

  type Calls = map<nat, Call>

  ghost predicate IsSent(calls: Calls, c: nat) {
    c in calls && calls[c].phase == Sent
  }

  ghost predicate QuestionGood(calls: Calls, x: Item<Message>) {
    match x.call
    case None => !x.body.Request?
    case Some(c) => IsSent(calls, c) && x.body == calls[c].sent
  }

  ghost predicate TextGood(calls: Calls, x: Item<Value>) {
    match x.call
    case None => !(DecodeMessage(x.body, DEFAULT).Decoded? && DecodeMessage(x.body, DEFAULT).msg.Request?)
    case Some(c) => IsSent(calls, c) && x.body == Encode(calls[c].sent)
  }

  ghost predicate RunningGood(calls: Calls, x: Item<Message>) {
    match x.call
    case None => !x.body.Request?
    case Some(c) => IsSent(calls, c) && DecodeMessage(Encode(calls[c].sent), DEFAULT) == Decoded(x.body)
  }

  ghost predicate ReplyGood(tree: ActorTree, calls: Calls, x: Item<Answer>) {
    match x.call
    case None => IsResponse(x.body.msg) && x.body.msg.methodName != ""
    case Some(c) =>
      IsSent(calls, c) && AnswerOf(tree, calls[c].sent, x.body.moment, x.body.complaint) == Some(x.body.msg)
  }

  ghost predicate ReturnGood(tree: ActorTree, calls: Calls, x: Item<AnswerText>) {
    match x.call
    case None => !(DecodeMessage(x.body.doc, DEFAULT).Decoded? && IsResultOrError(DecodeMessage(x.body.doc, DEFAULT).msg))
    case Some(c) =>
      && IsSent(calls, c)
      && var a := AnswerOf(tree, calls[c].sent, x.body.moment, x.body.complaint);
         a.Some? && x.body.doc == Encode(a.value)
  }

  /** Besides calls, the client sends no requests, and the server no answers. */
  predicate OnlyCallsAsk(step: Step) {
    match step
    case SendOther(m) => !m.Request?
    case ServerPushes(m) => IsResponse(m) && m.methodName != ""
    case _ => true
  }

  /** Everything on the link is what its mark says. */
  ghost predicate LinkGood(tree: ActorTree, calls: Calls, l: Link) {
    && (forall x | x in l.sendChannel :: QuestionGood(calls, x))
    && (forall x | x in l.up :: TextGood(calls, x))
    && (forall x | x in l.running :: RunningGood(calls, x))
    && (forall x | x in l.replies :: ReplyGood(tree, calls, x))
    && (forall x | x in l.down :: ReturnGood(tree, calls, x))
  }

  /** Calls are only added, and keep what they sent. */
  ghost predicate Extends(calls: Calls, later: Calls) {
    forall c | IsSent(calls, c) :: IsSent(later, c) && later[c].sent == calls[c].sent
  }

  lemma LaterStaysGood(tree: ActorTree, calls: Calls, later: Calls, l: Link)
    requires LinkGood(tree, calls, l) && Extends(calls, later)
    ensures LinkGood(tree, later, l)
  {
    hide AnswerOf, Encode, DecodeMessage;
  }

  lemma OtherIsNoRequest(m: Message)
    ensures !m.Request? ==>
      !(DecodeMessage(Encode(m), DEFAULT).Decoded? && DecodeMessage(Encode(m), DEFAULT).msg.Request?)
    ensures IsResponse(m) && m.methodName != "" ==>
      !(DecodeMessage(Encode(m), DEFAULT).Decoded? && IsResultOrError(DecodeMessage(Encode(m), DEFAULT).msg))
  {
    hide Encode, Reread;
    EncodedFields(m);
  }

  lemma TableExtends(tree: ActorTree, s: Net, step: Step)
    requires Wellformed(s.table) && Enabled(tree, s, step)
    ensures Extends(s.table.calls, After(tree, s, step).table.calls)
  {
    hide Encode, DecodeMessage, Feed, Complains, HandlerEndsIn, ServerReadsFrom, ServerWritesTo;
  }

  lemma LinkStaysGood(tree: ActorTree, s: Net, step: Step)
    requires Wellformed(s.table) && Enabled(tree, s, step) && OnlyCallsAsk(step) && LinkGood(tree, s.table.calls, s.link)
    ensures var n := After(tree, s, step); LinkGood(tree, n.table.calls, n.link)
  {
    var n := After(tree, s, step);
    var l := s.link;
    TableExtends(tree, s, step);
    LaterStaysGood(tree, s.table.calls, n.table.calls, l);
    hide Encode, DecodeMessage, Feed, Complains, AnswerOf, Wellformed, Load, Store, Fire, Place, HandleResult, Extends, HandlerEndsIn, ServerReadsFrom, ServerWritesTo, LinkGood;
    match step {
      case SendStep(c) => QueuedGood(tree, n.table.calls, l, Item(Some(c), s.table.calls[c].sent));
      case SendOther(m) => QueuedGood(tree, n.table.calls, l, Item(None, m));
      case ClientWrites => ClientWritesGood(tree, n.table.calls, l);
      case ServerPushes(m) => PushedGood(tree, n.table.calls, l, m);
      case ClientReads => ReadGood(tree, n.table.calls, s);
      case HangUp => ClosedGood(tree, n.table.calls, l);
      case ServerReads => ServerReadsGood(tree, n.table.calls, l);
      case HandlerEnds(i, moment, complaint) => HandlerEndsGood(tree, n.table.calls, l, i, moment, complaint);
      case ServerWrites => ServerWritesGood(tree, n.table.calls, l);
      case _ =>
    }
  }

  lemma QueuedGood(tree: ActorTree, calls: Calls, l: Link, x: Item<Message>)
    requires LinkGood(tree, calls, l) && QuestionGood(calls, x)
    ensures LinkGood(tree, calls, l.(sendChannel := l.sendChannel + [x]))
  {
    hide QuestionGood, TextGood, RunningGood, ReplyGood, ReturnGood;
  }

  lemma ClientWritesGood(tree: ActorTree, calls: Calls, l: Link)
    requires LinkGood(tree, calls, l) && l.sendChannel != []
    ensures LinkGood(tree, calls, ClientWritesTo(l))
  {
    hide Encode, DecodeMessage, RunningGood, ReplyGood, ReturnGood;
    assert QuestionGood(calls, l.sendChannel[0]);
    OtherIsNoRequest(l.sendChannel[0].body);
  }

  lemma PushedGood(tree: ActorTree, calls: Calls, l: Link, m: Message)
    requires LinkGood(tree, calls, l) && IsResponse(m) && m.methodName != ""
    ensures LinkGood(tree, calls, l.(replies := l.replies + [Item(None, Answer(0, Complaint([], ""), m))]))
  {
    hide QuestionGood, TextGood, RunningGood, ReturnGood, AnswerOf;
  }

  lemma ClosedGood(tree: ActorTree, calls: Calls, l: Link)
    requires LinkGood(tree, calls, l)
    ensures LinkGood(tree, calls, Closed(l))
  {
    hide QuestionGood, TextGood, RunningGood, ReplyGood, ReturnGood;
  }

  lemma ReadGood(tree: ActorTree, calls: Calls, s: Net)
    requires Wellformed(s.table) && LinkGood(tree, calls, s.link) && s.link.down != []
    ensures LinkGood(tree, calls, ClientReadsFrom(s).link)
  {
    hide QuestionGood, TextGood, RunningGood, ReplyGood, ReturnGood, Encode, DecodeMessage, HandleResult;
  }

  lemma ServerReadsGood(tree: ActorTree, calls: Calls, l: Link)
    requires LinkGood(tree, calls, l) && l.up != []
    ensures LinkGood(tree, calls, ServerReadsFrom(l))
  {
    hide Encode, DecodeMessage, AnswerOf;
    assert TextGood(calls, l.up[0]);
  }

  lemma HandlerEndsGood(tree: ActorTree, calls: Calls, l: Link, i: nat, moment: int, complaint: Complaint)
    requires LinkGood(tree, calls, l) && i < |l.running|
    ensures LinkGood(tree, calls, HandlerEndsIn(tree, l, i, moment, complaint))
  {
    hide Encode, DecodeMessage, Feed, QuestionGood, TextGood, ReturnGood;
    assert RunningGood(calls, l.running[i]);
    ResponseDiscipline(tree, l.running[i].body, moment, complaint);
  }

  lemma ServerWritesGood(tree: ActorTree, calls: Calls, l: Link)
    requires LinkGood(tree, calls, l) && l.replies != []
    ensures LinkGood(tree, calls, ServerWritesTo(l))
  {
    hide Encode, DecodeMessage, AnswerOf, QuestionGood, TextGood, RunningGood;
    assert ReplyGood(tree, calls, l.replies[0]);
    OtherIsNoRequest(l.replies[0].body.msg);
  }

  // ---- the right call ------------------------------------------------------------------------

  /** A message that reads as it was sent, and is the caller's own or its clone. */
  ghost predicate CallSafe(call: Call) {
    && WireSafe(call.own) && WireSafe(call.sent) && call.own.Request? && call.sent.Request?
    && (call.sent == call.own || call.sent == Clone(call.own, call.sent.id))
  }

  ghost predicate AllSafe(t: Table) {
    forall c | c in t.calls :: CallSafe(t.calls[c])
  }

  /** The call has an entry of its own in the making, or something under way. */
  ghost predicate Busy(s: Net, c: nat) {
    c in s.table.calls && (s.table.calls[c].phase == Stored || InFlight(s.link, c) > 0)
  }

  /** No busy call's id stands for another call. */
  ghost predicate Faithful(s: Net) {
    && Wellformed(s.table)
    && forall c | Busy(s, c) && s.table.calls[c].sent.id in s.table.pending ::
         s.table.pending[s.table.calls[c].sent.id] == c
  }

  /** An answer on the channel of `call` is the one made for what `call` sent. */
  ghost predicate Matches(tree: ActorTree, call: Call, moment: int, complaint: Complaint, msg: Message) {
    call.own.Request? && call.sent.Request? &&
    var a := AnswerOf(tree, call.sent, moment, complaint);
    a.Some? && IsResultOrError(a.value) && a.value.id == call.sent.id && msg == Delivered(call.own, Received(a.value))
  }

  ghost predicate OwnAnswers(tree: ActorTree, t: Table) {
    forall c | c in t.calls :: forall p | p in t.calls[c].placed && p.Answered? ::
      p.call == Some(c) && Matches(tree, t.calls[c], p.moment, p.complaint, p.msg)
  }

  /** The requests are safe on the wire, none is stored under the id of a busy one, and there
      are no requests and answers outside calls. */
  ghost predicate Careful(s: Net, step: Step)
    requires Wellformed(s.table)
  {
    OnlyCallsAsk(step) &&
    match step
    case LoadStep(_, own, _) => WireSafe(own)
    case StoreStep(c) =>
      c in s.table.calls ==> forall d | Busy(s, d) :: s.table.calls[d].sent.id != s.table.calls[c].sent.id
    case _ => true
  }

  // What one step does to each part.

  lemma SendMessageIsSafe(own: Message, taken: bool, uuid: string)
    requires own.Request? && WireSafe(own)
    ensures var sent := SendMessage(own, taken, uuid);
      sent.Request? && WireSafe(sent) && (sent == own || sent == Clone(own, sent.id))
  {
  }

  lemma SafeStep(tree: ActorTree, s: Net, step: Step)
    requires Wellformed(s.table) && AllSafe(s.table) && Enabled(tree, s, step) && Careful(s, step)
    ensures AllSafe(After(tree, s, step).table)
  {
    hide WireSafe, Encode, DecodeMessage, Feed, Complains, SendMessage, Clone, HandlerEndsIn, ServerReadsFrom, ServerWritesTo, Busy;
    if step.LoadStep? {
      SendMessageIsSafe(step.own, step.own.id in s.table.pending, step.uuid);
    }
  }

  lemma {:induction false} CountedIsThere<T>(q: seq<Item<T>>, c: nat)
    requires Count(q, c) > 0
    ensures exists x :: x in q && x.call == Some(c)
  {
    if q[0].call != Some(c) {
      CountedIsThere(q[1..], c);
      var x :| x in q[1..] && x.call == Some(c);
      assert x in q;
    } else {
      assert q[0] in q;
    }
  }

  lemma InFlightIsSent(tree: ActorTree, calls: Calls, l: Link, c: nat)
    requires LinkGood(tree, calls, l) && InFlight(l, c) > 0
    ensures IsSent(calls, c)
  {
    hide AnswerOf, Encode, DecodeMessage, Count;
    if Count(l.sendChannel, c) > 0 {
      CountedIsThere(l.sendChannel, c);
    } else if Count(l.up, c) > 0 {
      CountedIsThere(l.up, c);
    } else if Count(l.running, c) > 0 {
      CountedIsThere(l.running, c);
    } else if Count(l.replies, c) > 0 {
      CountedIsThere(l.replies, c);
    } else {
      CountedIsThere(l.down, c);
    }
  }

  /** What the client reads is the answer to a request, under the id that it was sent with,
      or no answer at all. */
  lemma ReadsAnswer(tree: ActorTree, s: Net) returns (a: Message)
    requires Wellformed(s.table) && AllPlain(tree) && AllSafe(s.table)
    requires LinkGood(tree, s.table.calls, s.link) && s.link.down != []
    ensures IsResultOrError(a)
    ensures var x := s.link.down[0]; var n := ClientReadsFrom(s);
      match x.call
      case None => n.table == s.table
      case Some(c) =>
        && c in s.table.calls && s.table.calls[c].sent.Request? && a.id == s.table.calls[c].sent.id
        && AnswerOf(tree, s.table.calls[c].sent, x.body.moment, x.body.complaint) == Some(a)
        && n.table == HandleResult(s.table, Received(a), Some(c), x.body.moment, x.body.complaint)
  {
    hide Encode, DecodeMessage, WireSafe, HandleResult, AllPlain, QuestionGood, TextGood, RunningGood, ReplyGood, AnswerOf;
    var x := s.link.down[0];
    assert ReturnGood(tree, s.table.calls, x);
    if x.call.Some? {
      var sent := s.table.calls[x.call.value].sent;
      assert CallSafe(s.table.calls[x.call.value]);
      AnswerIsSafe(tree, sent, x.body.moment, x.body.complaint);
      a := AnswerOf(tree, sent, x.body.moment, x.body.complaint).value;
      RoundTrip(a, DEFAULT);
    } else {
      a := Result(Null, Null, "");
    }
  }

  lemma ReceivedResponse(a: Message)
    requires IsResultOrError(a)
    ensures IsResultOrError(Received(a)) && Received(a).id == a.id
  {
  }

  lemma ResultPending(t: Table, m: Message, from: Option<nat>, moment: int, complaint: Complaint)
    requires Wellformed(t) && IsResultOrError(m)
    ensures HandleResult(t, m, from, moment, complaint).pending == t.pending - {m.id}
  {
  }

  lemma AnswerIsSafe(tree: ActorTree, sent: Message, moment: int, complaint: Complaint)
    requires AllPlain(tree) && sent.Request? && WireSafe(sent) && AnswerOf(tree, sent, moment, complaint).Some?
    ensures var a := AnswerOf(tree, sent, moment, complaint).value;
      IsResultOrError(a) && a.id == sent.id && WireSafe(a) && Feed(tree, Received(sent), moment, complaint) == Replied(a)
  {
    hide Encode, DecodeMessage, Feed, AllPlain;
    RoundTrip(sent, DEFAULT);
    PlainAnswers(tree, Received(sent), moment, complaint);
  }

  /** Nothing new is pending, and no new call is busy. */
  ghost predicate Calms(s: Net, n: Net) {
    && (forall w | w in n.table.pending :: w in s.table.pending && n.table.pending[w] == s.table.pending[w])
    && (forall c | Busy(n, c) :: Busy(s, c) && n.table.calls[c].sent == s.table.calls[c].sent)
  }

  lemma CalmStaysFaithful(s: Net, n: Net)
    requires Faithful(s) && Calms(s, n) && Wellformed(n.table)
    ensures Faithful(n)
  {
    hide Busy;
  }

  /** Every step but a store calms. */
  lemma StepCalms(tree: ActorTree, s: Net, step: Step)
    requires Kept(s.table) && LinkGood(tree, s.table.calls, s.link) && Enabled(tree, s, step) && !step.StoreStep?
    ensures Calms(s, After(tree, s, step))
  {
    var n := After(tree, s, step);
    PendingShrinks(tree, s, step);
    forall c | Busy(n, c) ensures Busy(s, c) && n.table.calls[c].sent == s.table.calls[c].sent {
      BusyBefore(tree, s, step, c);
    }
  }

  lemma PendingShrinks(tree: ActorTree, s: Net, step: Step)
    requires Wellformed(s.table) && Enabled(tree, s, step) && !step.StoreStep?
    ensures var n := After(tree, s, step);
      forall w | w in n.table.pending :: w in s.table.pending && n.table.pending[w] == s.table.pending[w]
  {
    hide Encode, DecodeMessage, Feed, Complains, HandlerEndsIn, ServerReadsFrom, ServerWritesTo;
  }

  lemma BusyBefore(tree: ActorTree, s: Net, step: Step, c: nat)
    requires Wellformed(s.table) && LinkGood(tree, s.table.calls, s.link) && Enabled(tree, s, step) && !step.StoreStep?
    requires Busy(After(tree, s, step), c)
    ensures Busy(s, c) && After(tree, s, step).table.calls[c].sent == s.table.calls[c].sent
  {
    StepInFlight(tree, s, step, c);
    if InFlight(s.link, c) > 0 {
      InFlightIsSent(tree, s.table.calls, s.link, c);
    }
    PhaseBefore(tree, s, step, c);
    hide Encode, DecodeMessage, Feed, Complains, HandlerEndsIn, ServerReadsFrom, ServerWritesTo, LinkGood, After, Wellformed;
  }

  lemma PhaseBefore(tree: ActorTree, s: Net, step: Step, c: nat)
    requires Wellformed(s.table) && Enabled(tree, s, step) && !step.StoreStep?
    ensures var n := After(tree, s, step);
      && (c in s.table.calls ==> c in n.table.calls && n.table.calls[c].sent == s.table.calls[c].sent)
      && (c in n.table.calls && n.table.calls[c].phase == Stored ==> c in s.table.calls && s.table.calls[c].phase == Stored)
      && (step == SendStep(c) ==> c in s.table.calls && s.table.calls[c].phase == Stored)
  {
    hide Encode, DecodeMessage, Feed, Complains, HandlerEndsIn, ServerReadsFrom, ServerWritesTo;
  }

  lemma StoreStaysFaithful(tree: ActorTree, s: Net, c: nat)
    requires Faithful(s) && LinkGood(tree, s.table.calls, s.link) && c in s.table.calls && s.table.calls[c].phase == Loaded
    requires Careful(s, StoreStep(c))
    ensures Faithful(Net(Store(s.table, c), s.link))
  {
    hide LinkGood;
    var n := Net(Store(s.table, c), s.link);
    forall d | Busy(n, d) && d != c ensures Busy(s, d) {
    }
  }

  lemma {:induction false} OwnAnswersStep(tree: ActorTree, s: Net, step: Step)
    requires AllPlain(tree) && Kept(s.table) && LinkGood(tree, s.table.calls, s.link) && AllSafe(s.table)
    requires Faithful(s) && OwnAnswers(tree, s.table) && Enabled(tree, s, step)
    ensures OwnAnswers(tree, After(tree, s, step).table)
  {
    hide AllPlain, LinkGood, AllSafe, Kept, Feed, Encode, DecodeMessage, Complains, HandlerEndsIn, ServerReadsFrom, ServerWritesTo, OwnAnswers, Load, Store, Sending, Fire, ClientReadsFrom;
    var t := s.table;
    match step {
      case LoadStep(c, own, uuid) => LoadOwnAnswers(tree, t, c, own, uuid);
      case StoreStep(c) => PhaseOwnAnswers(tree, t, Store(t, c), c);
      case SendStep(c) => PhaseOwnAnswers(tree, t, Sending(t, c, true), c);
      case SendFails(c) => PhaseOwnAnswers(tree, t, Sending(t, c, false), c);
      case TimerFires(c) => FireOwnAnswers(tree, t, c);
      case ClientReads => ReadOwnAnswers(tree, s);
      case _ =>
    }
  }

  lemma LoadOwnAnswers(tree: ActorTree, t: Table, c: nat, own: Message, uuid: string)
    requires OwnAnswers(tree, t) && own.Request? && own.methodName != ""
    ensures OwnAnswers(tree, Load(t, c, own, uuid))
  {
    hide Matches;
  }

  lemma PhaseOwnAnswers(tree: ActorTree, t: Table, u: Table, c: nat)
    requires Wellformed(t) && OwnAnswers(tree, t) && c in t.calls
    requires u == Store(t, c) || u == Sending(t, c, true) || u == Sending(t, c, false)
    ensures OwnAnswers(tree, u)
  {
    hide AnswerOf, Encode, DecodeMessage;
  }

  lemma FireOwnAnswers(tree: ActorTree, t: Table, c: nat)
    requires Wellformed(t) && OwnAnswers(tree, t) && c in t.calls
    ensures OwnAnswers(tree, Fire(t, c))
  {
    hide AnswerOf, Encode, DecodeMessage;
  }

  lemma ReadOwnAnswers(tree: ActorTree, s: Net)
    requires AllPlain(tree) && Kept(s.table) && LinkGood(tree, s.table.calls, s.link) && AllSafe(s.table)
    requires Faithful(s) && OwnAnswers(tree, s.table) && s.link.down != []
    ensures OwnAnswers(tree, ClientReadsFrom(s).table)
  {
    var x := s.link.down[0];
    var a := ReadsAnswer(tree, s);
    SafeCalls(s.table);
    ReceivedResponse(a);
    hide AllPlain, LinkGood, AllSafe, Kept, ClientReadsFrom, OwnAnswers, AnswerOf, HandleResult, Received;
    if x.call.Some? {
      var c := x.call.value;
      HeadIsInFlight(s.link);
      assert Busy(s, c);
      hide Busy, InFlight;
      if a.id in s.table.pending {
        PlaceOwnAnswer(tree, s.table, c, Received(a), x.body.moment, x.body.complaint);
      } else {
        UnclaimedOwnAnswers(tree, s.table, c, Received(a), x.body.moment, x.body.complaint);
      }
    }
  }

  lemma UnclaimedOwnAnswers(tree: ActorTree, t: Table, c: nat, m: Message, moment: int, complaint: Complaint)
    requires Wellformed(t) && OwnAnswers(tree, t) && IsResultOrError(m) && m.id !in t.pending
    ensures OwnAnswers(tree, HandleResult(t, m, Some(c), moment, complaint))
  {
  }

  lemma SafeCalls(t: Table)
    requires AllSafe(t)
    ensures forall c | c in t.calls :: t.calls[c].own.Request? && t.calls[c].sent.Request?
  {
  }

  lemma HeadIsInFlight(l: Link)
    requires l.down != [] && l.down[0].call.Some?
    ensures InFlight(l, l.down[0].call.value) > 0
  {
  }

  lemma PlaceOwnAnswer(tree: ActorTree, t: Table, c: nat, m: Message, moment: int, complaint: Complaint)
    requires Wellformed(t) && OwnAnswers(tree, t) && IsResultOrError(m)
    requires m.id in t.pending && t.pending[m.id] == c
    requires Matches(tree, t.calls[c], moment, complaint, Delivered(t.calls[c].own, m))
    ensures OwnAnswers(tree, HandleResult(t, m, Some(c), moment, complaint))
  {
    hide AnswerOf, Encode, DecodeMessage;
  }

  // ---- careful runs -------------------------------------------------------------------------

  ghost predicate Right(tree: ActorTree, s: Net) {
    Kept(s.table) && LinkGood(tree, s.table.calls, s.link) && AllSafe(s.table) && Faithful(s) && OwnAnswers(tree, s.table)
  }

  lemma StepStaysRight(tree: ActorTree, s: Net, step: Step)
    requires AllPlain(tree) && Right(tree, s) && Enabled(tree, s, step) && Careful(s, step)
    ensures Right(tree, After(tree, s, step))
  {
    StepKeeps(tree, s, step);
    LinkStaysGood(tree, s, step);
    SafeStep(tree, s, step);
    OwnAnswersStep(tree, s, step);
    if step.StoreStep? {
      StoreStaysFaithful(tree, s, step.call);
    } else {
      StepCalms(tree, s, step);
      hide Kept, Faithful;
      WellformedAfter(tree, s, step);
      CalmStaysFaithful(s, After(tree, s, step));
    }
  }

  lemma WellformedAfter(tree: ActorTree, s: Net, step: Step)
    requires Kept(s.table) && Enabled(tree, s, step)
    ensures Wellformed(After(tree, s, step).table)
  {
    StepKeeps(tree, s, step);
  }

  lemma StartIsRight(tree: ActorTree)
    ensures Right(tree, START)
  {
  }

  lemma {:induction false} CarefulRunIsRight(tree: ActorTree, steps: seq<Step>, states: seq<Net>, i: nat)
    requires IsRun(tree, steps, states) && AllPlain(tree) && i < |states|
    requires forall j | 0 <= j < i :: Careful(states[j], steps[j])
    ensures Right(tree, states[i])
  {
    hide Right, After, Enabled, Careful, AllPlain;
    if i == 0 {
      StartIsRight(tree);
    } else {
      var k := i - 1;
      CarefulRunIsRight(tree, steps, states, k);
      StepStaysRight(tree, states[k], steps[k]);
      assert states[k + 1] == After(tree, states[k], steps[k]);
    }
  }

  /** `msg` is the actor's answer to the request `own`, as both are read at the other end. */
  ghost predicate IsAnswerTo(tree: ActorTree, own: Message, moment: int, complaint: Complaint, msg: Message) {
    var fed := Feed(tree, Received(own), moment, complaint);
    fed.Replied? && msg == Received(fed.msg)
  }

  /** The request that the caller of `call` has an answer to: its own, but with its parameters
      in a list if it was sent under another id. */
  function Asked(call: Call): Message
    requires call.own.Request?
  {
    if call.sent == call.own then call.own
    else Request(call.own.id, call.own.methodName, call.own.params, true, call.own.traceId)
  }

  /** Whoever gave a list, or kept the id, asked just what they wanted to. */
  lemma ListsAreAsked(call: Call)
    requires call.own.Request? && (call.own.paramsAreList || call.sent == call.own)
    ensures Asked(call) == call.own
  {
  }

  /** The answer to a swapped id is the answer to the caller's own, once it is put back. */
  lemma OwnAnswerIsOwed(tree: ActorTree, call: Call, moment: int, complaint: Complaint, msg: Message)
    requires AllPlain(tree) && CallSafe(call) && Matches(tree, call, moment, complaint, msg)
    ensures IsAnswerTo(tree, Asked(call), moment, complaint, msg)
  {
    hide AllPlain, Encode, DecodeMessage, AnswerOf, Feed, WireSafe;
    AnswerIsSafe(tree, call.sent, moment, complaint);
    AnswerIgnoresId(tree, Received(Asked(call)), call.sent.id, moment, complaint);
    var fed := Feed(tree, Received(Asked(call)), moment, complaint);
    if fed.Replied? {
      PlainAnswers(tree, Received(Asked(call)), moment, complaint);
    }
  }

  /** End to end: in every state of a careful run, whatever the order in which the handlers
      end, each answer on a call's channel was made for that call, and is the actor's answer to
      what the caller asked. */
  lemma AnswersReachTheirCallers(tree: ActorTree, steps: seq<Step>, states: seq<Net>, i: nat, c: nat, p: Placed)
    requires IsRun(tree, steps, states) && AllPlain(tree) && i < |states|
    requires forall j | 0 <= j < i :: Careful(states[j], steps[j])
    requires c in states[i].table.calls && p in states[i].table.calls[c].placed && p.Answered?
    ensures var call := states[i].table.calls[c];
      && p.call == Some(c) && call.own.Request?
      && IsAnswerTo(tree, Asked(call), p.moment, p.complaint, p.msg)
  {
    CarefulRunIsRight(tree, steps, states, i);
    hide IsRun, LinkGood, Kept, Faithful, AllPlain, Careful, Matches, IsAnswerTo;
    var call := states[i].table.calls[c];
    assert CallSafe(call);
    OwnAnswerIsOwed(tree, call, p.moment, p.complaint, p.msg);
  }

  // ---- when no timer fires ---------------------------------------------------------------------

  /** A run in which requests are safe and check and store are one step, before any timer. */
  ghost predicate Untimed(s: Net, step: Step) {
    && !step.TimerFires?
    && OnlyCallsAsk(step)
    && Exclusive(s.table, step)
    && (step.LoadStep? ==> WireSafe(step.own))
  }

  /** Every busy call is pending, and has one thing under way at most. */
  ghost predicate Quiet(s: Net) {
    && Wellformed(s.table)
    && (forall c | Busy(s, c) ::
          s.table.calls[c].sent.id in s.table.pending && s.table.pending[s.table.calls[c].sent.id] == c)
    && (forall c :: InFlight(s.link, c) <= 1)
    && NothingLost(s.table)
  }

  lemma QuietIsCareful(tree: ActorTree, s: Net, step: Step)
    requires Quiet(s) && Enabled(tree, s, step) && Untimed(s, step)
    ensures Careful(s, step)
  {
    hide Busy, Complains;
  }

  lemma StepStaysQuiet(tree: ActorTree, s: Net, step: Step)
    requires AllPlain(tree) && Right(tree, s) && Quiet(s) && Enabled(tree, s, step) && Untimed(s, step)
    ensures Quiet(After(tree, s, step))
  {
    var n := After(tree, s, step);
    StepLosesNothing(tree, s, step);
    StepInFlightOnce(tree, s, step);
    if step.StoreStep? {
      StoreStaysQuiet(tree, s, step.call);
    } else if step.ClientReads? {
      ReadStaysQuiet(tree, s);
    } else {
      SamePending(tree, s, step);
      StepCalms(tree, s, step);
      hide Busy, LinkGood, Kept, AllSafe, Faithful, OwnAnswers, After, Enabled, NothingLost, AllPlain;
      forall c | Busy(n, c)
        ensures n.table.calls[c].sent.id in n.table.pending && n.table.pending[n.table.calls[c].sent.id] == c
      {
        assert Busy(s, c);
      }
    }
  }

  lemma StepInFlightOnce(tree: ActorTree, s: Net, step: Step)
    requires Right(tree, s) && Quiet(s) && Enabled(tree, s, step)
    ensures forall c :: InFlight(After(tree, s, step).link, c) <= 1
  {
    hide After, InFlight, Busy, AllSafe, OwnAnswers, NothingLost;
    forall c ensures InFlight(After(tree, s, step).link, c) <= 1 {
      StepInFlight(tree, s, step, c);
      if step == SendStep(c) && InFlight(s.link, c) > 0 {
        InFlightIsSent(tree, s.table.calls, s.link, c);
      }
    }
  }

  lemma SamePending(tree: ActorTree, s: Net, step: Step)
    requires Wellformed(s.table) && Enabled(tree, s, step)
    requires !step.StoreStep? && !step.TimerFires? && !step.ClientReads?
    ensures After(tree, s, step).table.pending == s.table.pending
  {
  }

  lemma StoreStaysQuiet(tree: ActorTree, s: Net, c: nat)
    requires Quiet(s) && c in s.table.calls && s.table.calls[c].phase == Loaded
    ensures var n := Net(Store(s.table, c), s.link);
      forall d | Busy(n, d) ::
        n.table.calls[d].sent.id in n.table.pending && n.table.pending[n.table.calls[d].sent.id] == d
  {
    hide InFlight;
    var n := Net(Store(s.table, c), s.link);
    forall d | Busy(n, d) && d != c ensures Busy(s, d) {
    }
  }

  lemma ReadStaysQuiet(tree: ActorTree, s: Net)
    requires AllPlain(tree) && Right(tree, s) && Quiet(s) && Enabled(tree, s, ClientReads)
    ensures var n := ClientReadsFrom(s);
      forall d | Busy(n, d) ::
        && n.table.calls[d].sent.Request? && n.table.calls[d].sent.id in n.table.pending
        && n.table.pending[n.table.calls[d].sent.id] == d
  {
    var n := ClientReadsFrom(s);
    StepCalms(tree, s, ClientReads);
    hide Right, Quiet, AllPlain, Enabled, Busy, ClientReadsFrom;
    forall d | Busy(n, d)
      ensures n.table.calls[d].sent.Request? && n.table.calls[d].sent.id in n.table.pending
      ensures n.table.pending[n.table.calls[d].sent.id] == d
    {
      ReadIsNotFor(tree, s, d);
      ReadKeepsEntry(tree, s, d);
    }
  }

  /** What was read was not for a call that is still busy. */
  lemma ReadIsNotFor(tree: ActorTree, s: Net, d: nat)
    requires Right(tree, s) && Quiet(s) && Enabled(tree, s, ClientReads) && Busy(ClientReadsFrom(s), d)
    ensures s.link.down[0].call != Some(d)
  {
    hide AllSafe, OwnAnswers, NothingLost, Faithful, Count;
    if s.link.down[0].call == Some(d) {
      StepInFlight(tree, s, ClientReads, d);
      HeadIsInFlight(s.link);
      InFlightIsSent(tree, s.table.calls, s.link, d);
      StillSent(s, d);
    }
  }

  lemma ReadKeepsEntry(tree: ActorTree, s: Net, d: nat)
    requires AllPlain(tree) && Right(tree, s) && Quiet(s) && s.link.down != [] && Busy(s, d)
    requires s.link.down[0].call != Some(d)
    ensures var n := ClientReadsFrom(s).table; var call := s.table.calls[d];
      call.sent.Request? && call.sent.id in n.pending && n.pending[call.sent.id] == d
  {
    hide Quiet, AllPlain, Busy, InFlight, Kept, LinkGood, AllSafe, Faithful, OwnAnswers, ClientReadsFrom;
    var x := s.link.down[0];
    ReadPending(tree, s);
    BusyIsCalled(s, d);
    QuietEntry(s, d);
    if x.call.Some? {
      HeadIsInFlight(s.link);
      HeadIsSent(tree, s.table.calls, s.link);
      QuietEntry(s, x.call.value);
    }
  }

  lemma BusyIsCalled(s: Net, d: nat)
    requires Busy(s, d)
    ensures d in s.table.calls
  {
  }

  lemma QuietEntry(s: Net, d: nat)
    requires Quiet(s) && d in s.table.calls && (Busy(s, d) || InFlight(s.link, d) > 0)
    ensures var sent := s.table.calls[d].sent;
      sent.Request? && sent.id in s.table.pending && s.table.pending[sent.id] == d
  {
    hide InFlight, NothingLost;
    assert Busy(s, d);
  }

  /** Reading takes away the entry under the id of the call that it was for. */
  lemma ReadPending(tree: ActorTree, s: Net)
    requires AllPlain(tree) && Right(tree, s) && s.link.down != []
    ensures var n := ClientReadsFrom(s).table; var x := s.link.down[0];
      match x.call
      case None => n.pending == s.table.pending
      case Some(c) =>
        c in s.table.calls && s.table.calls[c].sent.Request? && n.pending == s.table.pending - {s.table.calls[c].sent.id}
  {
    var a := ReadsAnswer(tree, s);
    ReceivedResponse(a);
    var x := s.link.down[0];
    if x.call.Some? {
      ResultPending(s.table, Received(a), x.call, x.body.moment, x.body.complaint);
    }
    hide *;
  }

  lemma HeadIsSent(tree: ActorTree, calls: Calls, l: Link)
    requires LinkGood(tree, calls, l) && l.down != [] && l.down[0].call.Some?
    ensures IsSent(calls, l.down[0].call.value)
  {
    hide AnswerOf;
    assert ReturnGood(tree, calls, l.down[0]);
  }

  lemma StillSent(s: Net, d: nat)
    requires Wellformed(s.table) && s.link.down != [] && IsSent(s.table.calls, d)
    ensures IsSent(ClientReadsFrom(s).table.calls, d)
  {
    hide DecodeMessage;
  }

  lemma StartIsQuiet()
    ensures Quiet(START)
  {
  }

  lemma {:induction false} UntimedRunIsQuiet(tree: ActorTree, steps: seq<Step>, states: seq<Net>, i: nat)
    requires IsRun(tree, steps, states) && AllPlain(tree) && i < |states|
    requires forall j | 0 <= j < i :: Untimed(states[j], steps[j])
    ensures Quiet(states[i])
    ensures forall j | 0 <= j < i :: Careful(states[j], steps[j])
  {
    hide Right, After, Enabled, Careful, AllPlain, Quiet, Untimed;
    if i == 0 {
      StartIsQuiet();
    } else {
      var k := i - 1;
      UntimedRunIsQuiet(tree, steps, states, k);
      CarefulRunIsRight(tree, steps, states, k);
      QuietIsCareful(tree, states[k], steps[k]);
      StepStaysQuiet(tree, states[k], steps[k]);
      assert states[k + 1] == After(tree, states[k], steps[k]);
    }
  }

  /** While no timer has fired, and check and store are one step, every answer is the actor's
      answer to its own caller, even where ids collide and are swapped. */
  lemma AnswersAreRightWithoutTimeouts(tree: ActorTree, steps: seq<Step>, states: seq<Net>, i: nat, c: nat, p: Placed)
    requires IsRun(tree, steps, states) && AllPlain(tree) && i < |states|
    requires forall j | 0 <= j < i :: Untimed(states[j], steps[j])
    requires c in states[i].table.calls && p in states[i].table.calls[c].placed && p.Answered?
    ensures p.call == Some(c) && states[i].table.calls[c].own.Request?
    ensures IsAnswerTo(tree, Asked(states[i].table.calls[c]), p.moment, p.complaint, p.msg)
  {
    hide *;
    UntimedRunIsQuiet(tree, steps, states, i);
    AnswersReachTheirCallers(tree, steps, states, i, c, p);
  }

  // ---- when no id is used twice -------------------------------------------------------------------

  /** No two calls go out under the same id. */
  ghost predicate Distinct(t: Table) {
    forall c, d | c in t.calls && d in t.calls && c != d :: t.calls[c].sent.Request? && t.calls[d].sent.Request? ==>
      t.calls[c].sent.id != t.calls[d].sent.id
  }

  lemma CallsPersist(tree: ActorTree, s: Net, step: Step)
    requires Wellformed(s.table) && Enabled(tree, s, step)
    ensures var n := After(tree, s, step);
      forall c | c in s.table.calls :: c in n.table.calls && n.table.calls[c].sent == s.table.calls[c].sent
  {
    hide Encode, DecodeMessage, Feed, Complains, HandlerEndsIn, ServerReadsFrom, ServerWritesTo;
  }

  lemma DistinctBefore(tree: ActorTree, s: Net, step: Step)
    requires Wellformed(s.table) && Enabled(tree, s, step) && Distinct(After(tree, s, step).table)
    ensures Distinct(s.table)
  {
    CallsPersist(tree, s, step);
    hide After, Enabled;
  }

  lemma DistinctIsCareful(tree: ActorTree, s: Net, step: Step)
    requires Right(tree, s) && Distinct(s.table) && Enabled(tree, s, step)
    requires OnlyCallsAsk(step) && (step.LoadStep? ==> WireSafe(step.own))
    ensures Careful(s, step)
  {
    hide AllSafe, OwnAnswers, Faithful, Complains;
    if step.StoreStep? {
      var c := step.call;
      if InFlight(s.link, c) > 0 {
        InFlightIsSent(tree, s.table.calls, s.link, c);
      }
    }
  }

  lemma {:induction false} DistinctRunIsCareful(tree: ActorTree, steps: seq<Step>, states: seq<Net>, i: nat)
    requires IsRun(tree, steps, states) && AllPlain(tree) && i < |states| && Distinct(states[i].table)
    requires forall j | 0 <= j < i :: OnlyCallsAsk(steps[j]) && (steps[j].LoadStep? ==> WireSafe(steps[j].own))
    ensures forall j | 0 <= j < i :: Careful(states[j], steps[j])
  {
    hide Right, After, Enabled, Careful, AllPlain, Distinct;
    if i > 0 {
      var k := i - 1;
      assert states[k + 1] == After(tree, states[k], steps[k]);
      DistinctBefore(tree, states[k], steps[k]);
      DistinctRunIsCareful(tree, steps, states, k);
      CarefulRunIsRight(tree, steps, states, k);
      DistinctIsCareful(tree, states[k], steps[k]);
    }
  }

  /** While no id has gone out twice, timers or not, every answer is the actor's answer to
      its own caller. */
  lemma AnswersAreRightWithoutReuse(tree: ActorTree, steps: seq<Step>, states: seq<Net>, i: nat, c: nat, p: Placed)
    requires IsRun(tree, steps, states) && AllPlain(tree) && i < |states| && Distinct(states[i].table)
    requires forall j | 0 <= j < i :: OnlyCallsAsk(steps[j]) && (steps[j].LoadStep? ==> WireSafe(steps[j].own))
    requires c in states[i].table.calls && p in states[i].table.calls[c].placed && p.Answered?
    ensures p.call == Some(c) && states[i].table.calls[c].own.Request?
    ensures IsAnswerTo(tree, Asked(states[i].table.calls[c]), p.moment, p.complaint, p.msg)
  {
    hide *;
    DistinctRunIsCareful(tree, steps, states, i);
    AnswersReachTheirCallers(tree, steps, states, i, c, p);
  }
}
