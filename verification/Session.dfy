/** `TCPSession`: the server's end of a connection.  Each turn of its loops, and each end of a
    goroutine that it has started, is shown to be a step of the protocol. */
module Session {
  import opened Values
  import opened Messages
  import opened Codec
  import opened Dispatch
  import opened Actors
  import opened Protocol

  lemma BodiesAre<T>(q: seq<Item<T>>)
    ensures |Bodies(q)| == |q| && forall i | 0 <= i < |q| :: Bodies(q)[i] == q[i].body
  {
  }

  /** The end of a goroutine, without the marks. */
  lemma HandlerEndsAs(tree: ActorTree, l: Link, i: nat, moment: int, c: Complaint)
    requires i < |l.running|
    ensures var n, fed := HandlerEndsIn(tree, l, i, moment, c), Feed(tree, l.running[i].body, moment, c);
      && n.up == l.up && n.down == l.down
      && Bodies(n.running) == Bodies(l.running)[..i] + Bodies(l.running)[i + 1..]
      && (fed.Replied? ==> ReplyMessages(n.replies) == ReplyMessages(l.replies) + [fed.msg])
      && (!fed.Replied? ==> n.replies == l.replies)
      && (n.open <==> l.open && (fed.Replied? || fed.Silent?))
  {
    hide Feed;
    assert Bodies(Removed(l.running, i)) == Removed(Bodies(l.running), i);
  }

  /** Reading until there is nothing more, or a message does not decode. */
  function ReadAll(l: Link): Link
    decreases |l.up|
  {
    if l.open && l.up != [] then ReadAll(ServerReadsFrom(l)) else l
  }

  function WriteAll(l: Link): Link
    decreases |l.replies|
  {
    if l.open && l.replies != [] then WriteAll(ServerWritesTo(l)) else l
  }

  /** The messages of documents that are read until one is refused. */
  function Readable(docs: seq<Value>): seq<Message> {
    if docs == [] then []
    else
      match DecodeMessage(docs[0], DEFAULT)
      case Decoded(m) => [m] + Readable(docs[1..])
      case Refused(_) => []
  }

  /** Reading starts a handler for each message, in order, and closes at what is none. */
  lemma {:induction false} ReadAllReads(l: Link)
    ensures var n := ReadAll(l);
      if l.open then
        && Bodies(n.running) == Bodies(l.running) + Readable(Bodies(l.up))
        && (n.open <==> |Readable(Bodies(l.up))| == |l.up|)
      else n == l
    decreases |l.up|
  {
    if l.open && l.up != [] {
      ReadAllReads(ServerReadsFrom(l));
      ReadsFirst(l);
    }
  }

  lemma ReadsFirst(l: Link)
    requires l.up != []
    ensures var n, d := ServerReadsFrom(l), DecodeMessage(l.up[0].body, DEFAULT);
      && Bodies(l.up) == [l.up[0].body] + Bodies(n.up) && n.up == l.up[1..]
      && (n.open <==> l.open && d.Decoded?)
      && Bodies(n.running) == Bodies(l.running) + (if d.Decoded? then [d.msg] else [])
  {
    hide DecodeMessage;
    assert Bodies(l.up)[1..] == Bodies(l.up[1..]);
  }

  /** Writing writes every message, in order. */
  lemma {:induction false} WriteAllWrites(l: Link)
    ensures var n := WriteAll(l);
      if l.open then n.open && n.replies == [] && ReplyDocs(n.down) == ReplyDocs(l.down) + Documents(ReplyMessages(l.replies))
      else n == l
    decreases |l.replies|
  {
    if l.open && l.replies != [] {
      WriteAllWrites(ServerWritesTo(l));
      WritesFirst(l);
      hide ServerWritesTo, ReplyDocs, ReplyMessages, Documents;
    }
  }

  lemma WritesFirst(l: Link)
    requires l.replies != []
    ensures var n := ServerWritesTo(l);
      && n.open == l.open && n.replies == l.replies[1..]
      && ReplyDocs(n.down) == ReplyDocs(l.down) + [Encode(l.replies[0].body.msg)]
      && Documents(ReplyMessages(l.replies)) == [Encode(l.replies[0].body.msg)] + Documents(ReplyMessages(n.replies))
  {
    hide Encode;
  }

  class TCPSession {
    const actor: Actor
    /** The documents on the way in, the messages being handled, the messages to send, and
        the documents on the way out. */
    var incoming: seq<Value>
    var handling: seq<Message>
    var sendChannel: seq<Message>
    var outgoing: seq<Value>
    var open: bool
    ghost var link: Link

    ghost predicate Valid()
      reads this, actor, actor.Repr
    {
      && actor.Valid() && this !in actor.Repr
      && link.open == open && Bodies(link.up) == incoming && Bodies(link.running) == handling
      && ReplyMessages(link.replies) == sendChannel && ReplyDocs(link.down) == outgoing
    }

    constructor (actor: Actor)
      requires actor.Valid()
      ensures Valid() && this.actor == actor && link == NO_LINK
    {
      this.actor := actor;
      incoming, handling, sendChannel, outgoing := [], [], [], [];
      open, link := true, NO_LINK;
    }

    /** The server stops reading at the first document that is no message. */
    method RecvLoop()
      requires Valid()
      modifies this`incoming, this`handling, this`open, this`link
      ensures Valid() && link == ReadAll(old(link))
      ensures !open || incoming == []
      ensures handling == old(handling) + (if old(open) then Readable(old(incoming)) else [])
      ensures open <==> old(open) && |Readable(old(incoming))| == |old(incoming)|
    {
      ReadAllReads(link);
      while open && incoming != []
        invariant Valid() && ReadAll(link) == ReadAll(old(link))
        decreases |incoming|
      {
        ghost var l := link;
        var decoded := DecodeMessage(incoming[0], DEFAULT);
        incoming := incoming[1..];
        link := ServerReadsFrom(link);
        match decoded {
          case Decoded(msg) => handling := handling + [msg];
          case Refused(_) => open := false;
        }
        assert Bodies(l.up[1..]) == Bodies(l.up)[1..];
      }
    }

    /** `msgReceived`, for the `i`th of the messages being handled. */
    method MsgReceived(i: nat, moment: int) returns (ghost c: Complaint)
      requires Valid() && i < |handling|
      modifies this`handling, this`sendChannel, this`open, this`link
      ensures Valid()
      ensures Complains(old(actor.View()), old(handling)[i], c)
      ensures link == HandlerEndsIn(old(actor.View()), old(link), i, moment, c)
    {
      hide HandlerEndsIn, Dispatch.Feed, Complains, Bodies, ReplyMessages, ReplyDocs;
      BodiesAre(link.running);
      var msg := handling[i];
      var fed;
      fed, c := actor.Feed(msg, moment);
      HandlerEndsAs(actor.View(), link, i, moment, c);
      handling := handling[..i] + handling[i + 1..];
      link := HandlerEndsIn(old(actor.View()), link, i, moment, c);
      match fed {
        case Replied(resmsg) => sendChannel := sendChannel + [resmsg];
        case Silent =>
        case _ => open := false;
      }
    }

    /** A message that a handler sends through the session. */
    method Send(msg: Message)
      requires Valid()
      modifies this`sendChannel, this`link
      ensures Valid() && link ==
        old(link).(replies := old(link).replies + [Item(None, Answer(0, Complaint([], ""), msg))])
    {
      sendChannel := sendChannel + [msg];
      link := link.(replies := link.replies + [Item(None, Answer(0, Complaint([], ""), msg))]);
    }

    method SendLoop()
      requires Valid()
      modifies this`sendChannel, this`outgoing, this`link
      ensures Valid() && link == WriteAll(old(link))
      ensures open ==> sendChannel == [] && outgoing == old(outgoing) + Documents(old(sendChannel))
      ensures !open ==> sendChannel == old(sendChannel) && outgoing == old(outgoing)
    {
      WriteAllWrites(link);
      while open && sendChannel != []
        invariant Valid() && WriteAll(link) == WriteAll(old(link))
        decreases |sendChannel|
      {
        ghost var l := link;
        var msg := sendChannel[0];
        sendChannel := sendChannel[1..];
        outgoing := outgoing + [Encode(msg)];
        link := ServerWritesTo(link);
        assert ReplyMessages(l.replies[1..]) == ReplyMessages(l.replies)[1..];
      }
    }
  }
}
