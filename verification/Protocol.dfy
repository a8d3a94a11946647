/** Many callers on one connection: the client, the two directions of the transport, and a
    server that runs each message in a goroutine of its own.  Every step here is one that
    other goroutines cannot interrupt; any may happen next. */
module Protocol {
  import opened Values
  import opened Messages
  import opened Codec
  import opened Dispatch

  // ---- messages of a call ------------------------------------------------------------------------

  /** The message sent for a request: one whose id is taken gets a fresh one. */
  function SendMessage(reqmsg: Message, taken: bool, uuid: string): Message
    requires reqmsg.Request? && reqmsg.methodName != ""
  {
    if taken then Clone(reqmsg, Str(uuid)) else reqmsg
  }

  /** What a caller is given when `msg` arrives for its request. */
  function Delivered(reqmsg: Message, msg: Message): Message
    requires reqmsg.Request? && IsResultOrError(msg)
  {
    if msg.id != reqmsg.id then ReplaceId(msg, reqmsg.id) else msg
  }

  /** What a caller is given when time runs out. */
  function Timeout(reqmsg: Message): Message
    requires reqmsg.Request?
  {
    ToMessage(ErrTimeout, reqmsg)
  }

  // ---- states --------------------------------------------------------------------------------

  /** How far a call has come: its id chosen, its entry stored, its message sent or refused. */
  datatype Phase = Loaded | Stored | Sent | Unsent

  datatype Timer = Idle | Running | Fired

  /** A message on a call's result channel; an answer is marked with the call that it was
      made for, if it was made for one, and the circumstances of its making. */
  datatype Placed =
    | Answered(msg: Message, call: Option<nat>, moment: int, complaint: Complaint)
    | TimedOut(msg: Message)

  datatype Call = Call(own: Message, sent: Message, phase: Phase, timer: Timer, placed: seq<Placed>)

  /** The client's table.  `lost` are the calls whose entry another has overwritten, `ids`
      every id there has been. */
  datatype Table = Table(calls: map<nat, Call>, pending: map<Value, nat>, lost: set<nat>, ids: set<Value>)

  /** Something under way, marked with the call it is for, if it is for one. */
  datatype Item<T> = Item(call: Option<nat>, body: T)

  datatype Answer = Answer(moment: int, complaint: Complaint, msg: Message)
  datatype AnswerText = AnswerText(moment: int, complaint: Complaint, doc: Value)

  /** The client's send channel, the way up, the server's goroutines, its send channel, and
      the way down. */
  datatype Link = Link(open: bool, sendChannel: seq<Item<Message>>, up: seq<Item<Value>>,
                       running: seq<Item<Message>>, replies: seq<Item<Answer>>, down: seq<Item<AnswerText>>)

  datatype Net = Net(table: Table, link: Link)

  // What is under way, without the marks.

  function Bodies<T>(q: seq<Item<T>>): seq<T> {
    seq(|q|, i requires 0 <= i < |q| => q[i].body)
  }

  function ReplyMessages(q: seq<Item<Answer>>): seq<Message> {
    seq(|q|, i requires 0 <= i < |q| => q[i].body.msg)
  }

  function ReplyDocs(q: seq<Item<AnswerText>>): seq<Value> {
    seq(|q|, i requires 0 <= i < |q| => q[i].body.doc)
  }

  /** The documents of a queue of messages, in order. */
  function Documents(q: seq<Message>): seq<Value> {
    seq(|q|, i requires 0 <= i < |q| => Encode(q[i]))
  }

  const NO_TABLE := Table(map[], map[], {}, {})
  const NO_LINK := Link(true, [], [], [], [], [])
  const START := Net(NO_TABLE, NO_LINK)

  // ---- steps -----------------------------------------------------------------------------------

  datatype Step =
    | LoadStep(call: nat, own: Message, uuid: string)
    | StoreStep(call: nat)
    | SendStep(call: nat)
    | SendFails(call: nat)
    | SendOther(msg: Message)       // a message sent without a call
    | TimerFires(call: nat)
    | ClientWrites
    | ServerReads
    | HandlerEnds(i: nat, moment: int, complaint: Complaint)
    | ServerPushes(msg: Message)    // a message that a handler sends through the session
    | ServerWrites
    | ClientReads
    | HangUp

  /** The id that a request goes out under. */
  function SentId(t: Table, own: Message, uuid: string): Value
    requires own.Request? && own.methodName != ""
  {
    SendMessage(own, own.id in t.pending, uuid).id
  }

  ghost predicate Enabled(tree: ActorTree, s: Net, step: Step) {
    var t, l := s.table, s.link;
    match step
    case LoadStep(c, own, uuid) => c !in t.calls && own.Request? && own.methodName != "" && Str(uuid) !in t.ids
    case StoreStep(c) => c in t.calls && t.calls[c].phase == Loaded
    case SendStep(c) => c in t.calls && t.calls[c].phase == Stored
    case SendFails(c) => c in t.calls && t.calls[c].phase == Stored
    case SendOther(_) => true
    case TimerFires(c) => c in t.calls && t.calls[c].timer == Running
    case ClientWrites => l.open && l.sendChannel != []
    case ServerReads => l.open && l.up != []
    case HandlerEnds(i, _, complaint) => i < |l.running| && Complains(tree, l.running[i].body, complaint)
    case ServerPushes(_) => true
    case ServerWrites => l.open && l.replies != []
    case ClientReads => l.open && l.down != []
    case HangUp => true
  }

  function Load(t: Table, c: nat, own: Message, uuid: string): Table
    requires own.Request? && own.methodName != ""
  {
    var sent := SendMessage(own, own.id in t.pending, uuid);
    Table(t.calls[c := Call(own, sent, Loaded, Idle, [])], t.pending, t.lost, t.ids + {own.id, sent.id})
  }

  function Store(t: Table, c: nat): Table
    requires c in t.calls && t.calls[c].sent.Request?
  {
    var call := t.calls[c];
    var w := call.sent.id;
    Table(t.calls[c := Call(call.own, call.sent, Stored, call.timer, call.placed)], t.pending[w := c],
          t.lost + (if w in t.pending then {t.pending[w]} else {}), t.ids)
  }

  function Sending(t: Table, c: nat, ok: bool): Table
    requires c in t.calls
  {
    var call := t.calls[c];
    Table(t.calls[c := Call(call.own, call.sent, if ok then Sent else Unsent, if ok then Running else call.timer, call.placed)],
          t.pending, t.lost, t.ids)
  }

  /** All calls made so far are of requests, and all that are pending have been made. */
  predicate Wellformed(t: Table) {
    && (forall c | c in t.calls ::
          && t.calls[c].own.Request? && t.calls[c].own.methodName != ""
          && t.calls[c].sent.Request? && t.calls[c].sent.methodName != "")
    && (forall w | w in t.pending :: t.pending[w] in t.calls)
  }

  /** The call pending under `w` is given `p`. */
  function Place(t: Table, w: Value, p: Placed): Table
    requires Wellformed(t) && w in t.pending
  {
    var c := t.pending[w];
    var call := t.calls[c];
    Table(t.calls[c := Call(call.own, call.sent, call.phase, call.timer, call.placed + [p])], t.pending - {w}, t.lost, t.ids)
  }

  function HandleResult(t: Table, m: Message, from: Option<nat>, moment: int, complaint: Complaint): Table
    requires Wellformed(t) && IsResultOrError(m)
  {
    if m.id in t.pending then
      Place(t, m.id, Answered(Delivered(t.calls[t.pending[m.id]].own, m), from, moment, complaint))
    else t
  }

  /** The timer of `c` ends whichever call is pending under the id of `c`. */
  function Fire(t: Table, c: nat): Table
    requires Wellformed(t) && c in t.calls
  {
    var w := t.calls[c].sent.id;
    Stopped(if w in t.pending then Place(t, w, TimedOut(Timeout(t.calls[t.pending[w]].own))) else t, c)
  }

  function Stopped(t: Table, c: nat): Table
    requires c in t.calls
  {
    var call := t.calls[c];
    Table(t.calls[c := Call(call.own, call.sent, call.phase, Fired, call.placed)], t.pending, t.lost, t.ids)
  }

  function Removed<T>(q: seq<T>, i: nat): seq<T>
    requires i < |q|
  {
    q[..i] + q[i + 1..]
  }

  /** Nothing more goes either way, and what the client had yet to write is dropped. */
  function Closed(l: Link): Link {
    l.(open := false, sendChannel := [])
  }

  function ClientWritesTo(l: Link): Link
    requires l.sendChannel != []
  {
    var q := l.sendChannel[0];
    l.(sendChannel := l.sendChannel[1..], up := l.up + [Item(q.call, Encode(q.body))])
  }

  function ServerReadsFrom(l: Link): Link
    requires l.up != []
  {
    var rest := l.(up := l.up[1..]);
    match DecodeMessage(l.up[0].body, DEFAULT)
    case Decoded(m) => rest.(running := rest.running + [Item(l.up[0].call, m)])
    case Refused(_) => Closed(rest)
  }

  /** The end of one goroutine of the server: an error from `Feed` ends the session, and a
      panic the server. */
  ghost function HandlerEndsIn(tree: ActorTree, l: Link, i: nat, moment: int, complaint: Complaint): Link
    requires i < |l.running|
  {
    var rest := l.(running := Removed(l.running, i));
    match Feed(tree, l.running[i].body, moment, complaint)
    case Replied(msg) => rest.(replies := rest.replies + [Item(l.running[i].call, Answer(moment, complaint, msg))])
    case Silent => rest
    case _ => Closed(rest)
  }

  function ServerWritesTo(l: Link): Link
    requires l.replies != []
  {
    var a := l.replies[0];
    l.(replies := l.replies[1..],
       down := l.down + [Item(a.call, AnswerText(a.body.moment, a.body.complaint, Encode(a.body.msg)))])
  }

  /** A request or a notification from the server goes to the message handler. */
  function ClientReadsFrom(s: Net): Net
    requires Wellformed(s.table) && s.link.down != []
  {
    var a := s.link.down[0];
    var rest := s.link.(down := s.link.down[1..]);
    match DecodeMessage(a.body.doc, DEFAULT)
    case Decoded(m) =>
      if IsResultOrError(m) then
        Net(HandleResult(s.table, m, a.call, a.body.moment, a.body.complaint), rest)
      else Net(s.table, rest)
    case Refused(_) => Net(s.table, Closed(rest))
  }

  ghost function After(tree: ActorTree, s: Net, step: Step): Net
    requires Wellformed(s.table) && Enabled(tree, s, step)
  {
    var t, l := s.table, s.link;
    match step
    case LoadStep(c, own, uuid) => Net(Load(t, c, own, uuid), l)
    case StoreStep(c) => Net(Store(t, c), l)
    case SendStep(c) => Net(Sending(t, c, true), l.(sendChannel := l.sendChannel + [Item(Some(c), t.calls[c].sent)]))
    case SendFails(c) => Net(Sending(t, c, false), l)
    case SendOther(m) => Net(t, l.(sendChannel := l.sendChannel + [Item(None, m)]))
    case TimerFires(c) => Net(Fire(t, c), l)
    case ClientWrites => Net(t, ClientWritesTo(l))
    case ServerReads => Net(t, ServerReadsFrom(l))
    case HandlerEnds(i, moment, complaint) => Net(t, HandlerEndsIn(tree, l, i, moment, complaint))
    case ServerPushes(m) =>
      Net(t, l.(replies := l.replies + [Item(None, Answer(0, Complaint([], ""), m))]))
    case ServerWrites => Net(t, ServerWritesTo(l))
    case ClientReads => ClientReadsFrom(s)
    case HangUp => Net(t, Closed(l))
  }

  // ---- the books: what holds of every call, in every state -----------------------------------------

  /** Exactly one of three things has become of a call once it is stored: it is pending, it
      has its one message, or another call has overwritten its entry. */
  ghost predicate Accounted(t: Table, c: nat)
    requires c in t.calls && t.calls[c].sent.Request?
  {
    var call := t.calls[c];
    var pending := call.sent.id in t.pending && t.pending[call.sent.id] == c;
    && (pending ==> call.placed == [] && c !in t.lost)
    && (c in t.lost ==> call.placed == [])
    && (pending || c in t.lost || |call.placed| == 1)
  }

  /** A message on a channel is a response under the caller's own id; a timeout is error 200,
      with the caller's trace. */
  ghost predicate PlacedKept(own: Message, p: Placed)
    requires own.Request?
  {
    && IsResultOrError(p.msg) && p.msg.id == own.id
    && (p.TimedOut? ==> p.msg == Error(own.id, Some(RPCError(200, "request timeout", Null)), own.traceId))
  }

  ghost predicate CallKept(t: Table, c: nat)
    requires c in t.calls && t.calls[c].sent.Request? && t.calls[c].own.Request?
  {
    var call := t.calls[c];
    && call.sent.id in t.ids
    && |call.placed| <= 1
    && (forall p | p in call.placed :: PlacedKept(call.own, p))
    && (call.timer != Idle <==> call.phase == Sent)
    && (call.timer == Fired ==> !(call.sent.id in t.pending && t.pending[call.sent.id] == c))
    && (call.phase == Loaded ==> call.placed == [] && c !in t.lost)
    && (call.phase != Loaded ==> Accounted(t, c))
  }

  ghost predicate Kept(t: Table) {
    && Wellformed(t)
    && (forall w | w in t.pending ::
          w in t.ids && t.pending[w] in t.calls && t.calls[t.pending[w]].sent.id == w && t.calls[t.pending[w]].phase != Loaded)
    && (forall c | c in t.lost :: c in t.calls)
    && (forall c | c in t.calls :: CallKept(t, c))
  }

  lemma LoadKeeps(t: Table, c: nat, own: Message, uuid: string)
    requires Kept(t) && c !in t.calls && own.Request? && own.methodName != ""
    ensures Kept(Load(t, c, own, uuid))
  {
    var u := Load(t, c, own, uuid);
    forall d | d in u.calls ensures CallKept(u, d) {
      assert d != c ==> CallKept(t, d);
    }
  }

  lemma StoreKeeps(t: Table, c: nat)
    requires Kept(t) && c in t.calls && t.calls[c].phase == Loaded
    ensures Kept(Store(t, c))
  {
    hide CallKept;
    var u := Store(t, c);
    StoreKeepsCall(t, c, c);
    forall d | d in u.calls ensures CallKept(u, d) {
      StoreKeepsCall(t, c, d);
    }
  }

  lemma StoreKeepsCall(t: Table, c: nat, d: nat)
    requires Kept(t) && c in t.calls && t.calls[c].phase == Loaded && d in t.calls
    ensures CallKept(Store(t, c), d) && t.calls[d].sent.id in t.ids
  {
    assert CallKept(t, d);
  }

  lemma SendingKeeps(t: Table, c: nat, ok: bool)
    requires Kept(t) && c in t.calls && t.calls[c].phase == Stored
    ensures Kept(Sending(t, c, ok))
  {
    var u := Sending(t, c, ok);
    forall d | d in u.calls ensures CallKept(u, d) {
      assert CallKept(t, d);
    }
  }

  lemma PlaceKeeps(t: Table, w: Value, p: Placed)
    requires Kept(t) && w in t.pending && PlacedKept(t.calls[t.pending[w]].own, p)
    ensures Kept(Place(t, w, p))
  {
    var u := Place(t, w, p);
    forall d | d in u.calls ensures CallKept(u, d) {
      assert CallKept(t, d);
    }
  }

  lemma StoppedKeeps(t: Table, c: nat)
    requires Kept(t) && c in t.calls && t.calls[c].timer == Running
    requires !(t.calls[c].sent.id in t.pending && t.pending[t.calls[c].sent.id] == c)
    ensures Kept(Stopped(t, c))
  {
    var u := Stopped(t, c);
    forall d | d in u.calls ensures CallKept(u, d) {
      assert CallKept(t, d);
    }
  }

  lemma FireKeeps(t: Table, c: nat)
    requires Kept(t) && c in t.calls && t.calls[c].timer == Running
    ensures Kept(Fire(t, c))
  {
    hide CallKept;
    var w := t.calls[c].sent.id;
    if w in t.pending {
      PlaceKeeps(t, w, TimedOut(Timeout(t.calls[t.pending[w]].own)));
      StoppedKeeps(Place(t, w, TimedOut(Timeout(t.calls[t.pending[w]].own))), c);
    } else {
      StoppedKeeps(t, c);
    }
  }

  lemma StepKeeps(tree: ActorTree, s: Net, step: Step)
    requires Kept(s.table) && Enabled(tree, s, step)
    ensures Kept(After(tree, s, step).table)
  {
    hide Kept, Encode, DecodeMessage, Feed;
    match step {
      case LoadStep(c, own, uuid) => LoadKeeps(s.table, c, own, uuid);
      case StoreStep(c) => StoreKeeps(s.table, c);
      case SendStep(c) => SendingKeeps(s.table, c, true);
      case SendFails(c) => SendingKeeps(s.table, c, false);
      case TimerFires(c) => FireKeeps(s.table, c);
      case ClientReads => ReadKeeps(s);
      case _ =>
    }
  }

  lemma ReadKeeps(s: Net)
    requires Kept(s.table) && s.link.down != []
    ensures Kept(ClientReadsFrom(s).table)
  {
    hide CallKept, Encode, DecodeMessage;
    var t := s.table;
    match DecodeMessage(s.link.down[0].body.doc, DEFAULT) {
      case Decoded(m) =>
        if IsResultOrError(m) && m.id in t.pending {
          var a := s.link.down[0];
          PlaceKeeps(t, m.id, Answered(Delivered(t.calls[t.pending[m.id]].own, m), a.call, a.body.moment, a.body.complaint));
        }
      case Refused(_) =>
    }
  }

  // ---- closing ------------------------------------------------------------------------------------

  /** What closes the connection: a document that is no message, at either end; an error or a
      panic of a handler; and hanging up.  A handler that replies, or has nothing to say, does
      not. */
  ghost predicate Closes(tree: ActorTree, s: Net, step: Step)
    requires Wellformed(s.table) && Enabled(tree, s, step)
  {
    match step
    case ServerReads => DecodeMessage(s.link.up[0].body, DEFAULT).Refused?
    case ClientReads => DecodeMessage(s.link.down[0].body.doc, DEFAULT).Refused?
    case HandlerEnds(i, moment, k) =>
      var fed := Feed(tree, s.link.running[i].body, moment, k);
      fed.Failed? || fed.Panicked?
    case HangUp => true
    case _ => false
  }

  lemma ClosingIsExact(tree: ActorTree, s: Net, step: Step)
    requires Wellformed(s.table) && Enabled(tree, s, step)
    ensures After(tree, s, step).link.open <==> s.link.open && !Closes(tree, s, step)
  {
    hide DecodeMessage, Feed, Complains, HandleResult;
  }

  /** Closing drops what the client had yet to write; and on a closed link nothing more is
      written or read at either end. */
  lemma ClosedIsQuiet(tree: ActorTree, s: Net, step: Step)
    requires Wellformed(s.table) && Enabled(tree, s, step) && !s.link.open
    ensures Closed(s.link).sendChannel == []
    ensures var l := After(tree, s, step).link; !l.open && l.up == s.link.up && l.down == s.link.down
    ensures !step.ClientWrites? && !step.ServerReads? && !step.ServerWrites? && !step.ClientReads?
  {
    hide DecodeMessage, Feed, Complains;
  }

  /** The calls that have an answer get no other call to join them once the link is closed. */
  lemma {:induction false} NoAnswerAfterClose(tree: ActorTree, steps: seq<Step>, states: seq<Net>, i: nat, j: nat, c: nat, p: Placed)
    requires IsRun(tree, steps, states) && i <= j < |states| && !states[i].link.open
    requires c in states[j].table.calls && p in states[j].table.calls[c].placed && p.Answered?
    ensures c in states[i].table.calls && p in states[i].table.calls[c].placed
    ensures !states[j].link.open
    decreases j
  {
    if i < j {
      var k := j - 1;
      ClosedRun(tree, steps, states, i, k);
      AnswerWasThere(tree, states[k], steps[k], c, p);
      NoAnswerAfterClose(tree, steps, states, i, k, c, p);
      ClosedIsQuiet(tree, states[k], steps[k]);
      assert states[k + 1] == After(tree, states[k], steps[k]);
    }
  }

  lemma {:induction false} ClosedRun(tree: ActorTree, steps: seq<Step>, states: seq<Net>, i: nat, j: nat)
    requires IsRun(tree, steps, states) && i <= j < |states| && !states[i].link.open
    ensures !states[j].link.open
    decreases j
  {
    hide After, Enabled;
    if i < j {
      var k := j - 1;
      ClosedRun(tree, steps, states, i, k);
      ClosedIsQuiet(tree, states[k], steps[k]);
      assert states[k + 1] == After(tree, states[k], steps[k]);
    }
  }

  lemma AnswerWasThere(tree: ActorTree, s: Net, step: Step, c: nat, p: Placed)
    requires Wellformed(s.table) && Enabled(tree, s, step) && !s.link.open && p.Answered?
    requires var t := After(tree, s, step).table; c in t.calls && p in t.calls[c].placed
    ensures c in s.table.calls && p in s.table.calls[c].placed
  {
    hide DecodeMessage, Encode, Feed, Complains, HandlerEndsIn, ServerReadsFrom, ServerWritesTo;
  }

  /** A call whose message is refused leaves its entry as it is, and starts no timer. */
  lemma FailedSendLeavesEntry(tree: ActorTree, s: Net, c: nat)
    requires Wellformed(s.table) && Enabled(tree, s, SendFails(c))
    ensures var n := After(tree, s, SendFails(c));
      && n.link == s.link && n.table.pending == s.table.pending && n.table.lost == s.table.lost
      && n.table.calls == s.table.calls[c := s.table.calls[c].(phase := Unsent)]
  {
  }

  /** Everything goes through in order: what is first in a queue is what is taken from it, and
      what comes is put last. */
  lemma QueuesAreOrdered(tree: ActorTree, s: Net, step: Step)
    requires Wellformed(s.table) && Enabled(tree, s, step) && After(tree, s, step).link.open
    ensures Moved(s, step, After(tree, s, step).link)
  {
    hide DecodeMessage, Encode, Feed, Complains, HandleResult, Place, Fire, Load, Store, Sending;
  }

  ghost predicate Moved(s: Net, step: Step, n: Link)
    requires Wellformed(s.table)
  {
    var l := s.link;
    match step
    case ClientWrites =>
      l.sendChannel != [] && n.sendChannel == l.sendChannel[1..]
      && n.up == l.up + [Item(l.sendChannel[0].call, Encode(l.sendChannel[0].body))]
    case ServerReads =>
      l.up != [] && n.up == l.up[1..] && |n.running| == |l.running| + 1 && n.running[..|l.running|] == l.running
      && n.running[|l.running|].call == l.up[0].call
      && DecodeMessage(l.up[0].body, DEFAULT) == Decoded(n.running[|l.running|].body)
    case ServerWrites =>
      l.replies != [] && n.replies == l.replies[1..] && |n.down| == |l.down| + 1 && n.down[..|l.down|] == l.down
      && n.down[|l.down|].call == l.replies[0].call && n.down[|l.down|].body.doc == Encode(l.replies[0].body.msg)
    case ClientReads => l.down != [] && n.down == l.down[1..]
    case ServerPushes(m) => |n.replies| == |l.replies| + 1 && n.replies[..|l.replies|] == l.replies && n.replies[|l.replies|].body.msg == m
    case SendOther(m) => n.sendChannel == l.sendChannel + [Item(None, m)]
    case SendStep(c) => c in s.table.calls && n.sendChannel == l.sendChannel + [Item(Some(c), s.table.calls[c].sent)]
    case _ => n.sendChannel == l.sendChannel && n.up == l.up && n.down == l.down
  }

  // ---- runs ----------------------------------------------------------------------------------------

  /** `states` is a run from the start by `steps`.  Every state of a run is well formed
      (`RunKeeps`), so that the second condition on the states asks for nothing. */
  ghost predicate IsRun(tree: ActorTree, steps: seq<Step>, states: seq<Net>) {
    && |states| == |steps| + 1
    && states[0] == START
    && (forall i | 0 <= i < |steps| :: Wellformed(states[i].table))
    && (forall i | 0 <= i < |steps| :: Enabled(tree, states[i], steps[i]) && states[i + 1] == After(tree, states[i], steps[i]))
  }

  lemma {:induction false} RunKeeps(tree: ActorTree, steps: seq<Step>, states: seq<Net>, i: nat)
    requires IsRun(tree, steps, states) && i < |states|
    ensures Kept(states[i].table)
  {
    hide Kept, After, Enabled;
    if i == 0 {
      StartIsKept();
    } else {
      var k := i - 1;
      RunKeeps(tree, steps, states, k);
      StepKeeps(tree, states[k], steps[k]);
      assert states[k + 1] == After(tree, states[k], steps[k]);
    }
  }

  lemma StartIsKept()
    ensures Kept(NO_TABLE)
  {
  }

  /** In every state of every run: a channel has had at most one message, so that the sends to
      it never block; a message on it is a result or an error with the id of the caller's own
      request; and a call that has been stored is pending under its one id, or has its
      message, or has been overwritten, no two of these at once. */
  lemma NoCallAnsweredTwice(tree: ActorTree, steps: seq<Step>, states: seq<Net>, i: nat, c: nat)
    requires IsRun(tree, steps, states) && i < |states| && c in states[i].table.calls
    ensures var t := states[i].table; var call := t.calls[c];
      && call.own.Request? && call.sent.Request? && |call.placed| <= 1
      && (forall p | p in call.placed :: PlacedKept(call.own, p))
      && (call.phase != Loaded ==> Accounted(t, c))
      && (forall w | w in t.pending && t.pending[w] == c :: w == call.sent.id)
  {
    RunKeeps(tree, steps, states, i);
    assert CallKept(states[i].table, c);
  }

  /** A call whose own timer has fired is no longer pending. */
  lemma TimerSettlesCall(tree: ActorTree, steps: seq<Step>, states: seq<Net>, i: nat, c: nat)
    requires IsRun(tree, steps, states) && i < |states|
    requires c in states[i].table.calls && states[i].table.calls[c].timer == Fired
    ensures |states[i].table.calls[c].placed| == 1 || c in states[i].table.lost
  {
    RunKeeps(tree, steps, states, i);
    assert CallKept(states[i].table, c);
  }

  // ---- the client's loops ---------------------------------------------------------------------------

  /** Writing until there is nothing more. */
  function ClientWriteAll(l: Link): Link
    decreases |l.sendChannel|
  {
    if l.open && l.sendChannel != [] then ClientWriteAll(ClientWritesTo(l)) else l
  }

  /** Reading until there is nothing more, or a message does not decode. */
  ghost function ClientReadAll(s: Net): Net
    requires Kept(s.table)
    decreases |s.link.down|
  {
    if s.link.open && s.link.down != [] then
      ReadKeeps(s);
      ClientReadAll(ClientReadsFrom(s))
    else s
  }

  // ---- check and store as one -----------------------------------------------------------------------

  /** Between the check and the store of a call, no other call is about to store its id. */
  ghost predicate Exclusive(t: Table, step: Step) {
    step.LoadStep? && step.own.Request? && step.own.methodName != "" ==>
      forall d | d in t.calls && t.calls[d].phase == Loaded ::
        t.calls[d].sent.Request? ==> t.calls[d].sent.id != SentId(t, step.own, step.uuid)
  }

  /** The calls about to store will not overwrite anything, nor each other. */
  ghost predicate NothingLost(t: Table) {
    && t.lost == {}
    && Wellformed(t)
    && (forall c | c in t.calls && t.calls[c].phase == Loaded :: t.calls[c].sent.id !in t.pending)
    && (forall c, d | c in t.calls && d in t.calls && c != d && t.calls[c].phase == Loaded && t.calls[d].phase == Loaded ::
          t.calls[c].sent.id != t.calls[d].sent.id)
  }

  /** No new call is about to store, and nothing more is pending. */
  ghost predicate Settles(t: Table, u: Table) {
    && u.lost == t.lost && u.pending.Keys <= t.pending.Keys
    && forall c | c in u.calls && u.calls[c].phase == Loaded ::
         c in t.calls && t.calls[c].phase == Loaded && u.calls[c].sent == t.calls[c].sent
  }

  lemma SettlingLosesNothing(t: Table, u: Table)
    requires NothingLost(t) && Settles(t, u) && Wellformed(u)
    ensures NothingLost(u)
  {
  }

  lemma LoadLosesNothing(t: Table, c: nat, own: Message, uuid: string)
    requires Kept(t) && NothingLost(t) && own.Request? && own.methodName != "" && c !in t.calls && Str(uuid) !in t.ids
    requires Exclusive(t, LoadStep(c, own, uuid))
    ensures NothingLost(Load(t, c, own, uuid))
  {
    hide CallKept;
    assert SentId(t, own, uuid) !in t.pending;
  }

  lemma StoreLosesNothing(t: Table, c: nat)
    requires NothingLost(t) && c in t.calls && t.calls[c].phase == Loaded
    ensures NothingLost(Store(t, c))
  {
  }

  lemma FireSettles(t: Table, c: nat)
    requires Wellformed(t) && c in t.calls
    ensures Settles(t, Fire(t, c))
  {
  }

  lemma ReadSettles(s: Net)
    requires Wellformed(s.table) && s.link.down != []
    ensures Settles(s.table, ClientReadsFrom(s).table)
  {
    hide DecodeMessage, Encode;
  }

  lemma StepLosesNothing(tree: ActorTree, s: Net, step: Step)
    requires Kept(s.table) && NothingLost(s.table) && Enabled(tree, s, step) && Exclusive(s.table, step)
    ensures NothingLost(After(tree, s, step).table)
  {
    StepKeeps(tree, s, step);
    hide Encode, DecodeMessage, Feed, CallKept, Complains, NothingLost, Exclusive;
    match step {
      case LoadStep(c, own, uuid) => LoadLosesNothing(s.table, c, own, uuid);
      case StoreStep(c) => StoreLosesNothing(s.table, c);
      case TimerFires(c) =>
        FireSettles(s.table, c);
        SettlingLosesNothing(s.table, Fire(s.table, c));
      case ClientReads =>
        ReadSettles(s);
        SettlingLosesNothing(s.table, ClientReadsFrom(s).table);
      case SendStep(c) => SettlingLosesNothing(s.table, Sending(s.table, c, true));
      case SendFails(c) => SettlingLosesNothing(s.table, Sending(s.table, c, false));
      case _ =>
    }
  }

  /** With check and store as one step, no call is lost: a stored call is pending or has its
      message, never both, and once its own timer has fired it has its message. */
  lemma {:induction false} NoCallIsLost(tree: ActorTree, steps: seq<Step>, states: seq<Net>, i: nat, c: nat)
    requires IsRun(tree, steps, states) && i < |states|
    requires forall j | 0 <= j < i :: Exclusive(states[j].table, steps[j])
    requires c in states[i].table.calls && states[i].table.calls[c].phase != Loaded
    ensures var t := states[i].table; var call := t.calls[c];
      && call.sent.Request?
      && (call.placed == [] <==> call.sent.id in t.pending && t.pending[call.sent.id] == c)
      && (call.timer == Fired ==> |call.placed| == 1)
  {
    RunLosesNothing(tree, steps, states, i);
    RunKeeps(tree, steps, states, i);
    assert CallKept(states[i].table, c);
  }

  lemma {:induction false} RunLosesNothing(tree: ActorTree, steps: seq<Step>, states: seq<Net>, i: nat)
    requires IsRun(tree, steps, states) && i < |states|
    requires forall j | 0 <= j < i :: Exclusive(states[j].table, steps[j])
    ensures NothingLost(states[i].table)
  {
    hide After, Enabled, Exclusive;
    if i > 0 {
      var k := i - 1;
      RunLosesNothing(tree, steps, states, k);
      RunKeeps(tree, steps, states, k);
      StepLosesNothing(tree, states[k], steps[k]);
      assert states[k + 1] == After(tree, states[k], steps[k]);
    }
  }

  /** A check that is not exclusive leaves two calls about to store one id. */
  lemma ExclusiveIsNeeded(tree: ActorTree, s: Net, step: Step)
    requires Kept(s.table) && NothingLost(s.table) && Enabled(tree, s, step)
    ensures NothingLost(After(tree, s, step).table) <==> Exclusive(s.table, step)
  {
    if Exclusive(s.table, step) {
      StepLosesNothing(tree, s, step);
    } else {
      var t, u := s.table, Load(s.table, step.call, step.own, step.uuid);
      var d :| d in t.calls && t.calls[d].phase == Loaded && t.calls[d].sent.id == SentId(t, step.own, step.uuid);
      assert u.calls[d].sent.id == u.calls[step.call].sent.id;
    }
  }

  /** Exactly the runs that keep check and store exclusive keep every call from the danger of
      being lost. */
  lemma {:induction false} ExclusiveRuns(tree: ActorTree, steps: seq<Step>, states: seq<Net>, i: nat)
    requires IsRun(tree, steps, states) && i < |states|
    ensures (forall j | 0 <= j <= i :: NothingLost(states[j].table))
      <==> (forall j | 0 <= j < i :: Exclusive(states[j].table, steps[j]))
  {
    hide After, Enabled, Exclusive, NothingLost;
    if i == 0 {
      RunLosesNothing(tree, steps, states, 0);
    } else {
      var k := i - 1;
      ExclusiveRuns(tree, steps, states, k);
      RunKeeps(tree, steps, states, k);
      assert states[k + 1] == After(tree, states[k], steps[k]);
      if NothingLost(states[k].table) {
        ExclusiveIsNeeded(tree, states[k], steps[k]);
      }
    }
  }
}
