/** `StreamingClient`: the pieces of `request`, `handleResult` and `expire` that other
    goroutines cannot interrupt, each shown to be a step of the protocol. */
module Client {
  import opened Values
  import opened Messages
  import opened Codec
  import opened Dispatch
  import opened Protocol

  const CHANNEL_CAPACITY := 10

  class ResultChannel {
    var messages: seq<Message>

    constructor ()
      ensures messages == []
    {
      messages := [];
    }

    /** The precondition is that the send does not block. */
    method Put(msg: Message)
      requires |messages| < CHANNEL_CAPACITY
      modifies this
      ensures messages == old(messages) + [msg]
    {
      messages := messages + [msg];
    }
  }

  class PendingRequest {
    const reqmsg: Message
    const resultChannel: ResultChannel

    constructor (reqmsg: Message, resultChannel: ResultChannel)
      ensures this.reqmsg == reqmsg && this.resultChannel == resultChannel
    {
      this.reqmsg := reqmsg;
      this.resultChannel := resultChannel;
    }
  }

  /** What the message handler is given by one turn of `recvLoop`. */
  ghost function HandedOver(s: Net): seq<Message>
    requires s.link.down != []
  {
    match DecodeMessage(s.link.down[0].body.doc, DEFAULT)
    case Decoded(m) => if IsResultOrError(m) && m.id in s.table.pending then [] else [m]
    case Refused(_) => []
  }

  /** What it is given by all of them. */
  ghost function HandedOverAll(s: Net): seq<Message>
    requires Kept(s.table)
    decreases |s.link.down|
  {
    if s.link.open && s.link.down != [] then
      ReadKeeps(s);
      HandedOver(s) + HandedOverAll(ClientReadsFrom(s))
    else []
  }

  function OthersOf(ms: seq<Message>): seq<Message> {
    if ms == [] then [] else (if IsResultOrError(ms[0]) then [] else [ms[0]]) + OthersOf(ms[1..])
  }

  /** The requests and the notifications among documents that are read until one is refused. */
  function OthersRead(docs: seq<Value>): seq<Message> {
    if docs == [] then []
    else
      match DecodeMessage(docs[0], DEFAULT)
      case Decoded(m) => (if IsResultOrError(m) then [] else [m]) + OthersRead(docs[1..])
      case Refused(_) => []
  }

  lemma {:induction false} OthersInTurn(a: seq<Message>, b: seq<Message>)
    ensures OthersOf(a + b) == OthersOf(a) + OthersOf(b)
  {
    if a == [] {
      assert a + b == b;
    } else {
      assert (a + b)[1..] == a[1..] + b;
      OthersInTurn(a[1..], b);
    }
  }

  /** Every request and notification that the server pushes comes to the message handler, once
      and in order, whatever else does. */
  lemma {:induction false} OthersAreHandedOver(s: Net)
    requires Kept(s.table) && s.link.open
    ensures OthersOf(HandedOverAll(s)) == OthersRead(ReplyDocs(s.link.down))
    decreases |s.link.down|
  {
    if s.link.down != [] {
      ReadKeeps(s);
      var n := ClientReadsFrom(s);
      OthersInTurn(HandedOver(s), HandedOverAll(n));
      DownIsRead(s);
      if n.link.open {
        OthersAreHandedOver(n);
      }
      OthersHere(s);
    }
  }

  lemma DownIsRead(s: Net)
    requires Wellformed(s.table) && s.link.down != []
    ensures var n := ClientReadsFrom(s);
      && ReplyDocs(s.link.down) == [s.link.down[0].body.doc] + ReplyDocs(n.link.down)
      && (n.link.open <==> s.link.open && DecodeMessage(s.link.down[0].body.doc, DEFAULT).Decoded?)
  {
    hide DecodeMessage, HandleResult;
    assert ReplyDocs(s.link.down)[1..] == ReplyDocs(s.link.down[1..]);
  }

  lemma OthersHere(s: Net)
    requires s.link.down != []
    ensures OthersOf(HandedOver(s)) ==
      match DecodeMessage(s.link.down[0].body.doc, DEFAULT)
      case Decoded(m) => if IsResultOrError(m) then [] else [m]
      case Refused(_) => []
  {
    hide DecodeMessage;
    var d := DecodeMessage(s.link.down[0].body.doc, DEFAULT);
    if d.Decoded? {
      assert [d.msg][1..] == [];
    }
  }

  function MessagesOf(placed: seq<Placed>): seq<Message> {
    seq(|placed|, i requires 0 <= i < |placed| => placed[i].msg)
  }

  /** Every call has a channel of its own, and the entries are those of the protocol's table,
      with the channel of their call. */
  ghost predicate Linked(t: Table, channels: map<nat, ResultChannel>, entries: map<Value, PendingRequest>) {
    && channels.Keys == t.calls.Keys
    && (forall c, d | c in channels && d in channels && c != d :: channels[c] != channels[d])
    && entries.Keys == t.pending.Keys
    && (forall w | w in entries ::
          && t.pending[w] in t.calls
          && entries[w].reqmsg == t.calls[t.pending[w]].own
          && entries[w].resultChannel == channels[t.pending[w]])
  }

  /** The calls of `t` are as they were, as far as the client's data goes. */
  ghost predicate SameCalls(t: Table, u: Table) {
    u.calls.Keys == t.calls.Keys &&
    forall c | c in t.calls :: u.calls[c].own == t.calls[c].own && u.calls[c].placed == t.calls[c].placed
  }

  lemma SameCallsLinked(t: Table, u: Table, channels: map<nat, ResultChannel>, entries: map<Value, PendingRequest>)
    requires Linked(t, channels, entries) && SameCalls(t, u) && u.pending == t.pending
    ensures Linked(u, channels, entries)
  {
  }

  lemma LoadLinked(t: Table, c: nat, own: Message, uuid: string, channels: map<nat, ResultChannel>,
                   entries: map<Value, PendingRequest>, ch: ResultChannel)
    requires Linked(t, channels, entries) && c !in t.calls && own.Request? && own.methodName != ""
    requires ch !in channels.Values
    ensures var u := Protocol.Load(t, c, own, uuid);
      && Linked(u, channels[c := ch], entries)
      && u.calls.Keys == t.calls.Keys + {c} && u.calls[c].placed == []
      && u.calls[c].sent == SendMessage(own, own.id in t.pending, uuid)
      && (forall d | d in t.calls :: u.calls[d] == t.calls[d])
  {
  }

  lemma StoreLinked(t: Table, c: nat, channels: map<nat, ResultChannel>, entries: map<Value, PendingRequest>,
                    p: PendingRequest)
    requires Linked(t, channels, entries) && c in t.calls && t.calls[c].sent.Request?
    requires p.reqmsg == t.calls[c].own && p.resultChannel == channels[c]
    ensures Linked(Store(t, c), channels, entries[t.calls[c].sent.id := p]) && SameCalls(t, Store(t, c))
  {
  }

  lemma PlaceLinked(t: Table, w: Value, p: Placed, channels: map<nat, ResultChannel>, entries: map<Value, PendingRequest>)
    requires Wellformed(t) && w in t.pending && Linked(t, channels, entries)
    ensures Linked(Place(t, w, p), channels, entries - {w})
    ensures Place(t, w, p).calls.Keys == t.calls.Keys
    ensures forall c | c in t.calls ::
      Place(t, w, p).calls[c].placed == if c == t.pending[w] then t.calls[c].placed + [p] else t.calls[c].placed
  {
  }

  lemma SendingSame(t: Table, c: nat)
    requires c in t.calls
    ensures SameCalls(t, Sending(t, c, true)) && Sending(t, c, true).pending == t.pending
    ensures SameCalls(t, Stopped(t, c)) && Stopped(t, c).pending == t.pending
  {
  }

  /** A connection: the documents on the way in and on the way out. */
  class Transport {
    var incoming: seq<Value>
    var outgoing: seq<Value>
    var connected: bool

    constructor ()
      ensures incoming == outgoing == [] && connected
    {
      incoming, outgoing, connected := [], [], true;
    }
  }

  class StreamingClient {
    const transport: Transport
    var pendingRequests: map<Value, PendingRequest>
    var sendChannel: seq<Message>
    /** The messages given to the message handler. */
    var unclaimed: seq<Message>
    /** The client as the protocol sees it, and the result channel of every call. */
    ghost var table: Table
    ghost var channels: map<nat, ResultChannel>
    ghost var link: Link

    /** The queues and the connection are those of the protocol's link. */
    ghost predicate Carries()
      reads this, transport
    {
      && Bodies(link.sendChannel) == sendChannel && Bodies(link.up) == transport.outgoing
      && ReplyDocs(link.down) == transport.incoming && link.open == transport.connected
    }

    /** Every channel has had the messages placed on it. */
    ghost predicate Filled()
      reads this, channels.Values
    {
      forall c | c in channels && c in table.calls :: channels[c].messages == MessagesOf(table.calls[c].placed)
    }

    ghost predicate Valid()
      reads this, channels.Values
    {
      Kept(table) && Linked(table, channels, pendingRequests) && Filled()
    }

    constructor ()
      ensures Valid() && Carries() && fresh(transport)
      ensures table == NO_TABLE && link == NO_LINK && unclaimed == []
    {
      transport := new Transport();
      pendingRequests, sendChannel, unclaimed := map[], [], [];
      table, channels, link := NO_TABLE, map[], NO_LINK;
    }

    /** `request` as far as the check of the id; `c` is a name for the call. */
    method Load(reqmsg: Message, uuid: string, ghost c: nat) returns (ch: ResultChannel, sendmsg: Message)
      requires Valid() && c !in table.calls && reqmsg.Request? && reqmsg.methodName != "" && Str(uuid) !in table.ids
      modifies this`table, this`channels
      ensures Valid() && fresh(ch) && channels == old(channels)[c := ch]
      ensures table == Protocol.Load(old(table), c, reqmsg, uuid) && sendmsg == table.calls[c].sent
    {
      hide Kept, Linked, Protocol.Load, Clone;
      EntriesAre(table, channels, pendingRequests);
      ch := new ResultChannel();
      sendmsg := reqmsg;
      if reqmsg.id in pendingRequests {
        sendmsg := Clone(reqmsg, Str(uuid));
      }
      LoadLinked(table, c, reqmsg, uuid, channels, pendingRequests, ch);
      LoadKeeps(table, c, reqmsg, uuid);
      table := Protocol.Load(table, c, reqmsg, uuid);
      channels := channels[c := ch];
    }

    /** The store of the entry: what was pending under the id is forgotten. */
    method Store(reqmsg: Message, sendmsg: Message, ch: ResultChannel, ghost c: nat)
      requires Valid() && c in channels && channels[c] == ch && c in table.calls && table.calls[c].phase == Loaded
      requires table.calls[c].own == reqmsg && table.calls[c].sent == sendmsg && sendmsg.Request?
      modifies this`pendingRequests, this`table
      ensures Valid() && table == Protocol.Store(old(table), c)
    {
      hide Kept, Linked, Protocol.Store;
      var p := new PendingRequest(reqmsg, ch);
      StoreKeeps(table, c);
      StoreLinked(table, c, channels, pendingRequests, p);
      pendingRequests := pendingRequests[sendmsg.id := p];
      table := Protocol.Store(table, c);
    }

    /** `Send` of the request of `c`, on an open connection. */
    method Send(msg: Message, ghost c: nat)
      requires Valid() && Carries() && c in table.calls && table.calls[c].phase == Stored && table.calls[c].sent == msg
      modifies this`sendChannel, this`table, this`link
      ensures Valid() && Carries() && table == Sending(old(table), c, true)
      ensures link == old(link).(sendChannel := old(link).sendChannel + [Item(Some(c), msg)])
    {
      hide Kept, Linked, Sending;
      sendChannel := sendChannel + [msg];
      link := link.(sendChannel := link.sendChannel + [Item(Some(c), msg)]);
      SendingKeeps(table, c, true);
      SendingSame(table, c);
      SameCallsLinked(table, Sending(table, c, true), channels, pendingRequests);
      table := Sending(table, c, true);
    }

    /** The loop of `sendLoop`, until there is nothing to send. */
    method SendLoop()
      requires Carries()
      modifies this`sendChannel, this`link, transport`outgoing
      ensures Carries() && link == ClientWriteAll(old(link))
      ensures transport.connected ==> sendChannel == [] && transport.outgoing == old(transport.outgoing) + Documents(old(sendChannel))
      ensures !transport.connected ==> sendChannel == old(sendChannel) && transport.outgoing == old(transport.outgoing)
    {
      while transport.connected && sendChannel != []
        invariant Carries() && ClientWriteAll(link) == ClientWriteAll(old(link))
        invariant !transport.connected ==> sendChannel == old(sendChannel) && transport.outgoing == old(transport.outgoing)
        invariant transport.outgoing + Documents(sendChannel) == old(transport.outgoing) + Documents(old(sendChannel)) || !transport.connected
        decreases |sendChannel|
      {
        ghost var l := link;
        var msg := sendChannel[0];
        assert Documents(sendChannel) == [Encode(msg)] + Documents(sendChannel[1..]);
        sendChannel := sendChannel[1..];
        transport.outgoing := transport.outgoing + [Encode(msg)];
        link := ClientWritesTo(link);
        assert Bodies(l.sendChannel[1..]) == Bodies(l.sendChannel)[1..];
      }
    }

    /** The loop of `recvLoop`, until there is nothing to read: a document that is no message
        ends the connection. */
    method RecvLoop()
      requires Valid() && Carries()
      modifies this`pendingRequests, this`sendChannel, this`unclaimed, this`table, this`link, channels.Values
      modifies transport`incoming, transport`connected
      ensures Valid() && Carries() && channels == old(channels)
      ensures Net(table, link) == ClientReadAll(Net(old(table), old(link)))
      ensures !transport.connected || transport.incoming == []
      ensures unclaimed == old(unclaimed) + HandedOverAll(Net(old(table), old(link)))
      ensures old(transport.connected) ==>
        exists given :: unclaimed == old(unclaimed) + given && OthersOf(given) == OthersRead(old(transport.incoming))
    {
      hide Kept, Linked, MessagesOf, HandedOver, ClientReadsFrom;
      ghost var all := HandedOverAll(Net(table, link));
      if transport.connected {
        OthersAreHandedOver(Net(table, link));
        assert unclaimed + all == old(unclaimed) + all && OthersOf(all) == OthersRead(transport.incoming);
      }
      while transport.connected && transport.incoming != []
        invariant Valid() && Carries() && channels == old(channels)
        invariant ClientReadAll(Net(table, link)) == ClientReadAll(Net(old(table), old(link)))
        invariant unclaimed + HandedOverAll(Net(table, link)) == old(unclaimed) + all
        decreases |transport.incoming|
      {
        KeptIsWellformed(table);
        ReadOne();
      }
    }

    /** One turn of the loop of `recvLoop`. */
    method ReadOne()
      requires Valid() && Carries() && transport.connected && transport.incoming != [] && Wellformed(table)
      modifies this`pendingRequests, this`sendChannel, this`unclaimed, this`table, this`link, channels.Values
      modifies transport`incoming, transport`connected
      ensures Valid() && Carries() && channels == old(channels)
      ensures old(link).down != [] && Net(table, link) == ClientReadsFrom(Net(old(table), old(link)))
      ensures unclaimed == old(unclaimed) + HandedOver(Net(old(table), old(link)))
      ensures transport.incoming == old(transport.incoming)[1..]
      ensures match DecodeMessage(old(transport.incoming)[0], DEFAULT)
        case Decoded(m) =>
          unclaimed == old(unclaimed) + (if IsResultOrError(m) && m.id in old(pendingRequests) then [] else [m])
        case Refused(_) => unclaimed == old(unclaimed) && !transport.connected
      ensures |transport.incoming| < |old(transport.incoming)|
    {
      hide Kept, Linked, MessagesOf, Protocol.HandleResult;
      ghost var l := link;
      ghost var x := l.down[0];
      EntriesAre(table, channels, pendingRequests);
      assert transport.incoming[0] == x.body.doc;
      assert Bodies(l.sendChannel) == sendChannel;
      assert ReplyDocs(l.down[1..]) == ReplyDocs(l.down)[1..];
      var decoded := DecodeMessage(transport.incoming[0], DEFAULT);
      transport.incoming := transport.incoming[1..];
      link := link.(down := link.down[1..]);
      match decoded {
        case Decoded(msg) =>
          if IsResultOrError(msg) {
            HandleResult(msg, x.call, x.body.moment, x.body.complaint);
          } else {
            unclaimed := unclaimed + [msg];
          }
        case Refused(_) => Reset();
      }
    }

    method Reset()
      requires Carries()
      modifies this`sendChannel, this`link, transport`connected
      ensures Carries() && link == Closed(old(link))
    {
      sendChannel := [];
      transport.connected := false;
      link := Closed(link);
    }

    /** `LoadAndDelete` of an entry that is there, and a message on its channel, where there
        is room for it. */
    method Take(w: Value, msg: Message, ghost p: Placed)
      requires Valid() && Wellformed(table) && w in pendingRequests && w in table.pending && p.msg == msg
      requires pendingRequests[w].reqmsg.Request? && PlacedKept(pendingRequests[w].reqmsg, p)
      modifies this`pendingRequests, this`table, channels.Values
      ensures Valid() && channels == old(channels)
      ensures table == Place(old(table), w, p)
    {
      hide Kept, Linked, Place;
      EntryIsEmpty(table, w);
      EntryIs(table, channels, pendingRequests, w);
      PlaceKeeps(table, w, p);
      PlaceLinked(table, w, p, channels, pendingRequests);
      var pending := pendingRequests[w];
      ghost var c := table.pending[w];
      pendingRequests := pendingRequests - {w};
      table := Place(table, w, p);
      pending.resultChannel.Put(msg);
      assert MessagesOf(table.calls[c].placed) == [msg];
      assert channels == old(channels);
      hide MessagesOf;
    }

    method HandleResult(msg: Message, ghost from: Option<nat>, ghost moment: int, ghost complaint: Complaint)
      requires Valid() && Wellformed(table) && IsResultOrError(msg)
      modifies this`pendingRequests, this`unclaimed, this`table, channels.Values
      ensures Valid() && channels == old(channels)
      ensures table == Protocol.HandleResult(old(table), msg, from, moment, complaint)
      ensures unclaimed == if msg.id in old(pendingRequests) then old(unclaimed) else old(unclaimed) + [msg]
    {
      hide Kept, Place, MessagesOf, Linked, CallKept, ReplaceId, Delivered;
      EntriesAre(table, channels, pendingRequests);
      DeliveredAs(table, msg);
      if msg.id !in pendingRequests {
        unclaimed := unclaimed + [msg];
        return;
      }
      ghost var p := Answered(Delivered(pendingRequests[msg.id].reqmsg, msg), from, moment, complaint);
      if msg.id != pendingRequests[msg.id].reqmsg.id {
        Take(msg.id, ReplaceId(msg, pendingRequests[msg.id].reqmsg.id), p);
      } else {
        Take(msg.id, msg, p);
      }
    }

    /** `expire`, after its sleep, with the id that `c` was sent under. */
    method Expire(k: Value, ghost c: nat)
      requires Valid() && Wellformed(table) && c in table.calls
      requires table.calls[c].timer == Running && table.calls[c].sent.id == k
      modifies this`pendingRequests, this`table, channels.Values
      ensures Valid() && channels == old(channels)
      ensures table == Fire(old(table), c)
    {
      hide Kept, Place, MessagesOf, ToMessage, Fire, Linked, Stopped;
      FireKeeps(table, c);
      FireParts(table, c);
      EntriesAre(table, channels, pendingRequests);
      if k in pendingRequests {
        var reqmsg := pendingRequests[k].reqmsg;
        Take(k, ToMessage(ErrTimeout, reqmsg), TimedOut(ToMessage(ErrTimeout, reqmsg)));
      }
      SendingSame(table, c);
      SameCallsLinked(table, Stopped(table, c), channels, pendingRequests);
      table := Stopped(table, c);
    }
  }

  lemma KeptIsWellformed(t: Table)
    requires Kept(t)
    ensures Wellformed(t)
  {
  }

  lemma EntriesAre(t: Table, channels: map<nat, ResultChannel>, entries: map<Value, PendingRequest>)
    requires Linked(t, channels, entries)
    ensures entries.Keys == t.pending.Keys
    ensures forall w | w in entries :: t.pending[w] in t.calls && entries[w].reqmsg == t.calls[t.pending[w]].own
  {
  }

  lemma EntryIs(t: Table, channels: map<nat, ResultChannel>, entries: map<Value, PendingRequest>, w: Value)
    requires Linked(t, channels, entries) && w in entries
    ensures w in t.pending && t.pending[w] in t.calls && entries[w].reqmsg == t.calls[t.pending[w]].own
    ensures t.pending[w] in channels && entries[w].resultChannel == channels[t.pending[w]]
    ensures forall d | d in channels && d != t.pending[w] :: channels[d] != channels[t.pending[w]]
  {
  }

  lemma DeliveredAs(t: Table, msg: Message)
    requires Kept(t) && IsResultOrError(msg)
    ensures msg.id in t.pending ==> t.pending[msg.id] in t.calls && t.calls[t.pending[msg.id]].own.Request?
    ensures msg.id in t.pending ==>
      var own := t.calls[t.pending[msg.id]].own;
      && Delivered(own, msg) == (if msg.id != own.id then ReplaceId(msg, own.id) else msg)
      && forall from, moment, k :: PlacedKept(own, Answered(Delivered(own, msg), from, moment, k))
  {
  }

  lemma FireParts(t: Table, c: nat)
    requires Wellformed(t) && c in t.calls
    ensures var w := t.calls[c].sent.id;
      && (w !in t.pending ==> Fire(t, c) == Stopped(t, c))
      && (w in t.pending ==>
            && PlacedKept(t.calls[t.pending[w]].own, TimedOut(ToMessage(ErrTimeout, t.calls[t.pending[w]].own)))
            && var u := Place(t, w, TimedOut(ToMessage(ErrTimeout, t.calls[t.pending[w]].own)));
               c in u.calls && Fire(t, c) == Stopped(u, c))
  {
  }

  /** A pending call has had no message. */
  lemma EntryIsEmpty(t: Table, w: Value)
    requires Kept(t) && w in t.pending
    ensures t.pending[w] in t.calls && t.calls[t.pending[w]].placed == [] && t.calls[t.pending[w]].own.Request?
  {
    assert CallKept(t, t.pending[w]);
  }
}
