/** What the server writes to its clients, and the part of a user's state that decides it. */
module Messages {
  import opened History

  /** The name of a room, as the client gives it. */
  datatype RoomId = RoomId(name: string)

  datatype Peer = Peer(peerId: string, displayName: string, device: string, remoteAddress: string)

  datatype Payload =
    | NewConsumer(peerId: string, transportId: string, consumerId: nat, producerId: nat, kind: string, mid: string)
    | NewDataConsumer(transportId: string, dataProducerId: nat, dataConsumerId: nat)
    | NewPeer(peer: Peer)
    | PeerClosed(peerId: string)
    | ConsumerClosed(consumerId: nat)
    | Capabilities
    | TransportCreated(transportId: string)
    | Acknowledged
    | Peers(peers: seq<Peer>)
    | DataProducerCreated(dataProducerId: nat)
    | ProducerCreated(producerId: nat)
    | Nothing

  /** A message on its way to a user, before a request has been given its number. */
  datatype Outgoing =
    | Ask(body: Payload)
    | Tell(body: Payload)
    | Answer(id: int, ok: bool, body: Payload)

  datatype Send = Send(to: UserId, what: Outgoing)

  /** A message as it stands on the user's channel. */
  datatype WsMessage =
    | Request(id: int, body: Payload)
    | Notification(body: Payload)
    | Response(id: int, ok: bool, body: Payload)

  /**
    reqId is the number of the next request to this user, firstReqId the random number it
    started from. sent is everything ever put on the channel; open, whether the channel
    may still be written.
  */
  datatype UserState = UserState(
    roomId: RoomId, peer: Peer, firstReqId: int, reqId: int,
    newDataConsumerReq: bool, open: bool, sent: seq<WsMessage>)
  {
    function Put(what: Outgoing): UserState {
      match what
      case Ask(body) => this.(sent := sent + [Request(reqId, body)], reqId := reqId + 1)
      case Tell(body) => this.(sent := sent + [Notification(body)])
      case Answer(id, ok, body) => this.(sent := sent + [Response(id, ok, body)])
    }

    /** Only the messages addressed to me. */
    function PutAll(me: UserId, sends: seq<Send>): UserState {
      if sends == [] then this
      else
        var rest := PutAll(me, sends[..|sends| - 1]);
        var last := sends[|sends| - 1];
        if last.to == me then rest.Put(last.what) else rest
    }
  }

  /** The numbers on the server's requests, in channel order. */
  function RequestIds(sent: seq<WsMessage>): seq<int> {
    if sent == [] then []
    else
      var last := sent[|sent| - 1];
      RequestIds(sent[..|sent| - 1]) + if last.Request? then [last.id] else []
  }

  /** The numbers on the answers to the client, in channel order. */
  function ResponseIds(sent: seq<WsMessage>): seq<int> {
    if sent == [] then []
    else
      var last := sent[|sent| - 1];
      ResponseIds(sent[..|sent| - 1]) + if last.Response? then [last.id] else []
  }

  /** The answers to me among the given messages. */
  function AnswerIds(me: UserId, sends: seq<Send>): seq<int> {
    if sends == [] then []
    else
      var last := sends[|sends| - 1];
      AnswerIds(me, sends[..|sends| - 1]) + if last.to == me && last.what.Answer? then [last.what.id] else []
  }

  /** The media ids on the offers made, in channel order. */
  function WireMids(sent: seq<WsMessage>): seq<string> {
    if sent == [] then []
    else
      var last := sent[|sent| - 1];
      WireMids(sent[..|sent| - 1])
      + if last.Request? && last.body.NewConsumer? then [last.body.mid] else []
  }

  function OfferedMids(me: UserId, sends: seq<Send>): seq<string> {
    if sends == [] then []
    else
      var last := sends[|sends| - 1];
      OfferedMids(me, sends[..|sends| - 1])
      + if last.to == me && last.what.Ask? && last.what.body.NewConsumer? then [last.what.body.mid] else []
  }

  /** The messages to me among the given ones, in order. */
  function To(me: UserId, sends: seq<Send>): seq<Outgoing> {
    if sends == [] then []
    else
      var last := sends[|sends| - 1];
      To(me, sends[..|sends| - 1]) + if last.to == me then [last.what] else []
  }

  function AskCount(whats: seq<Outgoing>): nat {
    if whats == [] then 0
    else AskCount(whats[..|whats| - 1]) + if whats[|whats| - 1].Ask? then 1 else 0
  }

  /** The messages as they stand on a channel whose next request has the number n. */
  function Wire(n: int, whats: seq<Outgoing>): seq<WsMessage> {
    if whats == [] then []
    else
      var front := whats[..|whats| - 1];
      Wire(n, front) + [Wired(n + AskCount(front), whats[|whats| - 1])]
  }

  /** n is the number it gets if it is a request. */
  function Wired(n: int, what: Outgoing): WsMessage {
    match what
    case Ask(body) => Request(n, body)
    case Tell(body) => Notification(body)
    case Answer(id, ok, body) => Response(id, ok, body)
  }

  /** A user's channel grows by the messages addressed to it, and by nothing else. */
  lemma {:induction false} PutAllSent(u: UserState, me: UserId, sends: seq<Send>)
    ensures u.PutAll(me, sends) ==
            u.(sent := u.sent + Wire(u.reqId, To(me, sends)), reqId := u.reqId + AskCount(To(me, sends)))
  {
    hide Wire, AskCount, To;
    if sends == [] {
      NothingSent(u.reqId, me);
      assert u.sent + [] == u.sent;
    } else {
      var front, last := sends[..|sends| - 1], sends[|sends| - 1];
      PutAllSent(u, me, front);
      ToLast(me, sends);
      if last.to == me {
        WireLast(u.reqId, To(me, front), last.what);
        PutOne(u, Wire(u.reqId, To(me, front)), AskCount(To(me, front)), last.what);
      }
    }
  }

  lemma NothingSent(n: int, me: UserId)
    ensures To(me, []) == [] && Wire(n, []) == [] && AskCount([]) == 0
  {
  }

  lemma PutOne(u: UserState, news: seq<WsMessage>, asked: nat, what: Outgoing)
    ensures u.(sent := u.sent + news, reqId := u.reqId + asked).Put(what) ==
            u.(sent := u.sent + (news + [Wired(u.reqId + asked, what)]), reqId := u.reqId + (asked + if what.Ask? then 1 else 0))
  {
    assert u.sent + (news + [Wired(u.reqId + asked, what)]) == (u.sent + news) + [Wired(u.reqId + asked, what)];
  }

  lemma ToLast(me: UserId, sends: seq<Send>)
    requires sends != []
    ensures var last := sends[|sends| - 1];
            To(me, sends) == if last.to == me then To(me, sends[..|sends| - 1]) + [last.what] else To(me, sends[..|sends| - 1])
  {
  }

  lemma WireLast(n: int, whats: seq<Outgoing>, what: Outgoing)
    ensures Wire(n, whats + [what]) == Wire(n, whats) + [Wired(n + AskCount(whats), what)]
    ensures AskCount(whats + [what]) == AskCount(whats) + if what.Ask? then 1 else 0
  {
    assert (whats + [what])[..|whats|] == whats;
  }

  lemma {:induction false} ToConcat(me: UserId, a: seq<Send>, b: seq<Send>)
    ensures To(me, a + b) == To(me, a) + To(me, b)
  {
    if b == [] {
      assert a + b == a;
    } else {
      ToConcat(me, a, b[..|b| - 1]);
      assert (a + b)[..|a + b| - 1] == a + b[..|b| - 1];
    }
  }

  /** Requests are numbered firstReqId, firstReqId + 1, ... without gap or repeat. */
  ghost predicate Numbered(u: UserState) {
    && u.reqId == u.firstReqId + |RequestIds(u.sent)|
    && forall k | 0 <= k < |RequestIds(u.sent)| :: RequestIds(u.sent)[k] == u.firstReqId + k
  }

  lemma PutEffect(u: UserState, what: Outgoing)
    requires Numbered(u)
    ensures var w := u.Put(what);
            && Numbered(w)
            && ResponseIds(w.sent) == ResponseIds(u.sent) + (if what.Answer? then [what.id] else [])
            && WireMids(w.sent) == WireMids(u.sent)
                                   + (if what.Ask? && what.body.NewConsumer? then [what.body.mid] else [])
            && u.sent <= w.sent
            && w == u.(sent := w.sent, reqId := w.reqId)
  {
    var w := u.Put(what);
    assert w.sent[..|w.sent| - 1] == u.sent;
  }

  lemma {:induction false} PutAllEffect(u: UserState, me: UserId, sends: seq<Send>)
    requires Numbered(u)
    ensures var w := u.PutAll(me, sends);
            && Numbered(w)
            && ResponseIds(w.sent) == ResponseIds(u.sent) + AnswerIds(me, sends)
            && WireMids(w.sent) == WireMids(u.sent) + OfferedMids(me, sends)
            && u.sent <= w.sent
            && w == u.(sent := w.sent, reqId := w.reqId)
  {
    if sends != [] {
      var front, last := sends[..|sends| - 1], sends[|sends| - 1];
      PutAllEffect(u, me, front);
      if last.to == me {
        PutEffect(u.PutAll(me, front), last.what);
      }
    }
  }

  lemma {:induction false} PutAllConcat(u: UserState, me: UserId, a: seq<Send>, b: seq<Send>)
    ensures u.PutAll(me, a + b) == u.PutAll(me, a).PutAll(me, b)
  {
    if b == [] {
      assert a + b == a;
    } else {
      PutAllConcat(u, me, a, b[..|b| - 1]);
      assert (a + b)[..|a + b| - 1] == a + b[..|b| - 1];
    }
  }

  lemma {:induction false} SendsConcat(me: UserId, a: seq<Send>, b: seq<Send>)
    ensures AnswerIds(me, a + b) == AnswerIds(me, a) + AnswerIds(me, b)
    ensures OfferedMids(me, a + b) == OfferedMids(me, a) + OfferedMids(me, b)
  {
    if b == [] {
      assert a + b == a;
    } else {
      SendsConcat(me, a, b[..|b| - 1]);
      assert (a + b)[..|a + b| - 1] == a + b[..|b| - 1];
    }
  }

  /** Messages to others, and messages that are neither answers nor offers, leave no trace in the two logs. */
  lemma {:induction false} NoAnswers(me: UserId, sends: seq<Send>)
    requires forall s | s in sends :: s.to != me || !s.what.Answer?
    ensures AnswerIds(me, sends) == []
  {
    if sends != [] {
      NoAnswers(me, sends[..|sends| - 1]);
    }
  }

  lemma {:induction false} NoOffers(me: UserId, sends: seq<Send>)
    requires forall s | s in sends :: s.to != me || !s.what.Ask? || !s.what.body.NewConsumer?
    ensures OfferedMids(me, sends) == []
  {
    if sends != [] {
      NoOffers(me, sends[..|sends| - 1]);
    }
  }
}
