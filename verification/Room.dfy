/** Users, their channels, and the room whose operations write to them. */
module Rooms {
  import opened Basics
  import opened History
  import opened Messages
  import opened Routing
  import opened RoomModel

  /** The supply of random strings, each drawn once. */
  class RandomIds {
    var nextId: nat

    constructor ()
      ensures nextId == 0
    {
      nextId := 0;
    }

    method RandString() returns (id: nat)
      modifies this
      ensures id == old(nextId) && nextId == id + 1
    {
      id := nextId;
      nextId := nextId + 1;
    }
  }

  /** sent is everything ever written to the channel; writing to a closed channel, or closing it again, panics. */
  class User {
    const userId: UserId
    const roomId: RoomId
    const peerId: string
    const remoteAddress: string
    const firstReqId: int
    var displayName: string
    var device: string
    var reqId: int
    var newDataConsumerReq: bool
    var open: bool
    var sent: seq<WsMessage>

    constructor (userId: UserId, roomId: RoomId, peer: Peer, firstReqId: int)
      ensures this.userId == userId && this.roomId == roomId
      ensures State() == UserState(roomId, peer, firstReqId, firstReqId, false, true, [])
    {
      this.userId, this.roomId, this.peerId, this.remoteAddress := userId, roomId, peer.peerId, peer.remoteAddress;
      this.firstReqId, reqId := firstReqId, firstReqId;
      displayName, device := peer.displayName, peer.device;
      newDataConsumerReq, open, sent := false, true, [];
    }

    function PeerData(): Peer
      reads this
    {
      Peer(peerId, displayName, device, remoteAddress)
    }

    function State(): UserState
      reads this
    {
      UserState(roomId, PeerData(), firstReqId, reqId, newDataConsumerReq, open, sent)
    }

    method SendRequest(body: Payload)
      requires open
      modifies this`sent, this`reqId
      ensures State() == old(State()).Put(Ask(body))
    {
      var request := Request(reqId, body);
      reqId := reqId + 1;
      sent := sent + [request];
    }

    method Notify(body: Payload)
      requires open
      modifies this`sent
      ensures State() == old(State()).Put(Tell(body))
    {
      sent := sent + [Notification(body)];
    }

    method Respond(id: int, ok: bool, body: Payload)
      requires open
      modifies this`sent
      ensures State() == old(State()).Put(Answer(id, ok, body))
    {
      sent := sent + [Response(id, ok, body)];
    }

    method CloseChannel()
      requires open
      modifies this`open
      ensures State() == old(State()).(open := false)
    {
      open := false;
    }
  }

  /** No two users share an id. */
  ghost predicate OneEach(users: set<User>) {
    forall a, b | a in users && b in users && a.userId == b.userId :: a == b
  }

  /** Each user's state, by user. */
  ghost function Snapshot(users: set<User>): map<User, UserState>
    reads users
  {
    map u | u in users :: u.State()
  }

  /** Since the snapshot each user has been sent its share of the messages, and nothing else about it changed. */
  ghost predicate Posted(users: set<User>, was: map<User, UserState>, sends: seq<Send>)
    reads users
  {
    users <= was.Keys && forall u | u in users :: u.State() == was[u].PutAll(u.userId, sends)
  }

  lemma NothingPosted(users: set<User>)
    ensures Posted(users, Snapshot(users), [])
  {
  }

  lemma SnapshotOf(users: set<User>)
    ensures Snapshot(users).Keys == users && forall u | u in users :: Snapshot(users)[u] == u.State()
  {
  }

  lemma PutAllLast(s: UserState, me: UserId, sends: seq<Send>, last: Send)
    ensures s.PutAll(me, sends + [last]) ==
            if last.to == me then s.PutAll(me, sends).Put(last.what) else s.PutAll(me, sends)
  {
    assert (sends + [last])[..|sends|] == sends;
  }

  /** Sending changes neither the channel nor who the user is. */
  lemma {:induction false} PutAllKeeps(s: UserState, me: UserId, sends: seq<Send>)
    ensures s.PutAll(me, sends).open == s.open && s.PutAll(me, sends).peer == s.peer
  {
    if sends != [] {
      PutAllKeeps(s, me, sends[..|sends| - 1]);
    }
  }

  lemma OpenStays(users: set<User>, was: map<User, UserState>, sends: seq<Send>, u: User)
    requires Posted(users, was, sends) && u in users && was[u].open
    ensures u.open
  {
    PutAllKeeps(was[u], u.userId, sends);
  }

  /** One more message, to one of the users. */
  method Post(to: User, what: Outgoing, ghost users: set<User>, ghost was: map<User, UserState>, ghost sends: seq<Send>)
    requires to in users && OneEach(users) && Posted(users, was, sends) && was[to].open
    modifies to`sent, to`reqId
    ensures Posted(users, was, sends + [Send(to.userId, what)])
  {
    PutAllKeeps(was[to], to.userId, sends);
    match what {
      case Ask(body) => to.SendRequest(body);
      case Tell(body) => to.Notify(body);
      case Answer(id, ok, body) => to.Respond(id, ok, body);
    }
    forall u | u in users ensures u.State() == was[u].PutAll(u.userId, sends + [Send(to.userId, what)]) {
      PutAllLast(was[u], u.userId, sends, Send(to.userId, what));
    }
  }

  class Room {
    const roomId: RoomId
    const router: Router
    const ids: RandomIds
    var users: map<UserId, User>
    ghost var history: Log

    constructor (roomId: RoomId, router: Router, ids: RandomIds)
      requires router.State() == EmptyRouter(router.workerId)
      ensures this.roomId == roomId && this.router == router && this.ids == ids
      ensures users == map[] && Valid() && State() == RoomState({}, EmptyRouter(router.workerId), [])
    {
      this.roomId, this.router, this.ids := roomId, router, ids;
      users := map[];
      history := [];
    }

    ghost predicate Valid()
      reads this`users
    {
      forall id | id in users :: users[id].userId == id
    }

    ghost function State(): RoomState
      reads this, router
    {
      RoomState(users.Keys, router.State(), history)
    }

    method AddUser(user: User)
      requires Valid()
      modifies this`users, this`history
      ensures Valid() && State() == Enter(old(State()), user.userId)
      ensures users == if user.userId in old(users) then old(users) else old(users)[user.userId := user]
    {
      if user.userId !in users {
        users := users[user.userId := user];
        history := history + [Entered(user.userId)];
      }
    }

    /** Everybody in the room but the one excepted is in all, and can be written to. */
    ghost predicate Ready(all: set<User>, except: set<User>)
      reads this`users, all`open
    {
      Valid() && OneEach(all) && users.Values <= all && forall v | v in users.Values - except :: v.open
    }

    /** order is the order in which the remaining users are told. */
    method DeleteUser(user: User, order: seq<UserId>, ghost all: set<User>)
      requires Ready(all, {user}) && Enumerates(order, users.Keys - {user.userId})
      requires user.userId in users ==> users[user.userId] == user
      modifies this`users, this`history, all
      ensures Valid() && State() == Leave(old(State()), user.userId)
      ensures users == old(users) - {user.userId}
      ensures Posted(all, old(Snapshot(all)), Broadcast(order, user.userId, PeerClosed(user.peerId)))
    {
      ghost var was := Snapshot(all);
      NothingPosted(all);
      users := users - {user.userId};
      history := history + [Left(user.userId)];
      Announce(order, user.userId, PeerClosed(user.peerId), all, was);
    }

    /** The loop over r.users that tells everybody in it but one user. */
    method Announce(order: seq<UserId>, except: UserId, body: Payload, ghost all: set<User>, ghost was: map<User, UserState>)
      requires Valid() && OneEach(all) && Posted(all, was, [])
      requires forall id | id in order && id != except :: id in users && users[id] in all && was[users[id]].open
      modifies all
      ensures Posted(all, was, Broadcast(order, except, body))
    {
      hide Posted, Broadcast;
      ghost var sends: seq<Send> := [];
      BroadcastNone(except, body);
      for k := 0 to |order|
        invariant sends == Broadcast(order[..k], except, body) && Posted(all, was, sends)
      {
        BroadcastNext(order[..k], order[k], except, body);
        assert order[..k + 1] == order[..k] + [order[k]];
        if order[k] != except {
          Post(users[order[k]], Tell(body), all, was, sends);
          sends := sends + [Send(order[k], Tell(body))];
        }
      }
      assert order[..|order|] == order;
    }

    /** What has been done so far, without a panic: the router, the ids drawn, and everybody's messages. */
    ghost predicate At(e: Effect, all: set<User>, was: map<User, UserState>)
      reads router, ids, all
    {
      router.State() == e.router && ids.nextId == e.nextId && Posted(all, was, e.sends) && !e.panicked
    }

    /** Everybody in the order is in the room, and can be written to. */
    ghost predicate Reachable(order: seq<UserId>, all: set<User>, was: map<User, UserState>)
      reads this
    {
      forall id | id in order :: id in users && users[id] in all && users[id] in was && was[users[id]].open
    }

    /**
      One consumer for v, added to the router and offered to v under the mid that results.
      Go panics on the codecs after the consumer has been added.
    */
    method AddAndOffer(v: User, p: Producer, peerId: string, consumerId: nat,
                       ghost e: Effect, ghost all: set<User>, ghost was: map<User, UserState>)
      returns (panicked: bool)
      requires OneEach(all) && v in all && v in was && was[v].open
      requires At(e.(nextId := e.nextId + 1), all, was) && consumerId == e.nextId
      modifies router, v`sent, v`reqId
      ensures panicked == Offer(e, v.userId, p, peerId).panicked
      ensures !panicked ==> At(Offer(e, v.userId, p, peerId), all, was)
    {
      hide Posted, WithConsumer;
      var transportId := router.GetConsumerTransportId(v.userId);
      var c := Consumer(consumerId, transportId, p.producerId, p.kind);
      var _ := router.AddConsumer(v.userId, c);
      var mid := router.GetConsumerStreamMid(v.userId);
      if !Offerable(p.kind, p.shape) {
        return true;
      }
      var body := NewConsumer(peerId, c.transportId, c.consumerId, c.producerId, c.kind, mid);
      Post(v, Ask(body), all, was, e.sends);
      return false;
    }

    /** Offer u's new producer to everybody else in the room. */
    method ReqOtherNewConsumer(u: User, producer: Producer, order: seq<UserId>,
                               ghost e: Effect, ghost all: set<User>, ghost was: map<User, UserState>)
      returns (panicked: bool)
      requires Valid() && OneEach(all) && Reachable(order, all, was) && At(e, all, was)
      modifies router, ids, all
      ensures panicked == OfferToOthers(e, u.userId, producer, u.peerId, order).panicked
      ensures !panicked ==> At(OfferToOthers(e, u.userId, producer, u.peerId, order), all, was)
    {
      hide Posted, Offer;
      for k := 0 to |order|
        invariant At(OfferToOthers(e, u.userId, producer, u.peerId, order[..k]), all, was)
      {
        ghost var d := OfferToOthers(e, u.userId, producer, u.peerId, order[..k]);
        assert order[..k + 1][..k] == order[..k];
        if order[k] != u.userId {
          var consumerId := ids.RandString();
          panicked := AddAndOffer(users[order[k]], producer, u.peerId, consumerId, d, all, was);
          if panicked {
            OfferPanicLasts(e, u.userId, producer, u.peerId, order, k + 1);
            return;
          }
        }
      }
      assert order[..|order|] == order;
      return false;
    }

    /** One producer of somebody else; an id is drawn whether or not the consumer turns out to be new. */
    method PullOne(u: User, kind: string, p: Producer, peerId: string,
                   ghost e: Effect, ghost all: set<User>, ghost was: map<User, UserState>)
      returns (panicked: bool)
      requires OneEach(all) && u in all && u in was && was[u].open && At(e, all, was)
      modifies router, ids, u`sent, u`reqId
      ensures panicked == Pull(e, u.userId, kind, p, peerId).panicked
      ensures !panicked ==> At(Pull(e, u.userId, kind, p, peerId), all, was)
    {
      hide Posted;
      if p.kind != kind {
        return false;
      }
      var consumerId := ids.RandString();
      var transportId := router.GetConsumerTransportId(u.userId);
      var c := Consumer(consumerId, transportId, p.producerId, kind);
      var success := router.AddConsumer(u.userId, c);
      if success {
        var mid := router.GetConsumerStreamMid(u.userId);
        if !Offerable(p.kind, p.shape) {
          return true;
        }
        var body := NewConsumer(peerId, c.transportId, c.consumerId, c.producerId, c.kind, mid);
        Post(u, Ask(body), all, was, e.sends);
      }
      return false;
    }

    method PullOwner(u: User, kind: string, owner: UserId, peerId: string,
                     ghost e: Effect, ghost all: set<User>, ghost was: map<User, UserState>)
      returns (panicked: bool)
      requires OneEach(all) && u in all && u in was && was[u].open && At(e, all, was)
      modifies router, ids, u`sent, u`reqId
      ensures var d := PullList(e, u.userId, kind, ProducersOf(old(router.State()), owner), peerId);
              panicked == d.panicked && (!panicked ==> At(d, all, was))
    {
      hide Posted, Pull;
      var ps := if owner in router.producers then router.producers[owner] else [];
      for i := 0 to |ps|
        invariant At(PullList(e, u.userId, kind, ps[..i], peerId), all, was)
      {
        assert ps[..i + 1][..i] == ps[..i];
        panicked := PullOne(u, kind, ps[i], peerId, PullList(e, u.userId, kind, ps[..i], peerId), all, was);
        if panicked {
          PullPanicLasts(e, u.userId, kind, ps, peerId, i + 1);
          return;
        }
      }
      assert ps[..|ps|] == ps;
      return false;
    }

    method ReqPullOtherNewProducer(u: User, kind: string, order: seq<UserId>, ghost peers: map<UserId, Peer>,
                                   ghost e: Effect, ghost all: set<User>, ghost was: map<User, UserState>)
      returns (panicked: bool)
      requires Valid() && OneEach(all) && Reachable(order, all, was) && Named(order, peers)
      requires u in all && u in was && was[u].open && At(e, all, was)
      modifies router, ids, u`sent, u`reqId
      ensures panicked == PullFromOthers(e, u.userId, kind, peers, order).panicked
      ensures !panicked ==> At(PullFromOthers(e, u.userId, kind, peers, order), all, was)
    {
      hide Posted, PullList;
      for k := 0 to |order|
        invariant At(PullFromOthers(e, u.userId, kind, peers, order[..k]), all, was)
      {
        assert order[..k + 1][..k] == order[..k];
        if order[k] != u.userId {
          ghost var d := PullFromOthers(e, u.userId, kind, peers, order[..k]);
          panicked := PullOwner(u, kind, order[k], users[order[k]].peerId, d, all, was);
          if panicked {
            PullAllPanicLasts(e, u.userId, kind, peers, order, k + 1);
            return;
          }
        }
      }
      assert order[..|order|] == order;
      return false;
    }

    /** peers has the peer id of everybody in the order. */
    ghost predicate Named(order: seq<UserId>, peers: map<UserId, Peer>)
      reads this
    {
      forall id | id in order :: id in users && id in peers && users[id].peerId == peers[id].peerId
    }

    /** others and owners are the orders of the two loops over r.users; peers describes the users. */
    method Produce(u: User, request: ProduceRequest, others: seq<UserId>, owners: seq<UserId>,
                   ghost peers: map<UserId, Peer>, ghost all: set<User>)
      returns (panicked: bool, producerId: nat)
      requires Ready(all, {}) && u in all && u.open
      requires Enumerates(others, users.Keys) && Enumerates(owners, users.Keys)
      requires Named(owners, peers) && u.userId in peers && peers[u.userId].peerId == u.peerId
      modifies this`history, router, ids, all
      ensures var e := ProduceEffect(old(router.State()), old(ids.nextId), peers, u.userId, request, others, owners);
              panicked == e.panicked && (!panicked ==> At(e, all, old(Snapshot(all))))
      ensures !panicked ==>
                && Valid() && producerId == old(ids.nextId)
                && State() == ProduceIn(old(State()), old(ids.nextId), peers, u.userId, request, others, owners)
    {
      hide Posted, OfferToOthers, PullFromOthers, WithProducer, Snapshot;
      ghost var was := Snapshot(all);
      NothingPosted(all);
      SnapshotOf(all);
      producerId := ids.RandString();
      var producer := NewProducer(producerId, request);
      router.AddProducer(u.userId, producer);
      ghost var e := Effect(router.State(), ids.nextId, [], false);
      ghost var d := OfferToOthers(e, u.userId, producer, u.peerId, others);
      if request.shape.nullEncoding && router.workerId != "" {
        PanicEnds(e.(panicked := true), u.userId, producer, u.peerId, peers, others, owners);
        return true, producerId;
      }
      panicked := ReqOtherNewConsumer(u, producer, others, e, all, was);
      if panicked {
        PanicEnds(e, u.userId, producer, u.peerId, peers, others, owners);
        return;
      }
      panicked := ReqPullOtherNewProducer(u, producer.kind, owners, peers, d, all, was);
      assert PullFromOthers(d, u.userId, request.kind, peers, owners) ==
             ProduceEffect(old(router.State()), old(ids.nextId), peers, u.userId, request, others, owners);
      history := history + [Produced(u.userId, producerId, request.kind)];
    }

    /** shifts and order are the orders of the loops over the consumers and over what was closed. */
    method CloseProducer(u: User, producerId: nat, shifts: seq<UserId>, order: seq<UserId>,
                         ghost all: set<User>) returns (found: bool)
      requires Ready(all, {})
      requires Enumerates(shifts, router.consumers.Keys)
      requires Enumerates(order, ClosedConsumers(router.State(), u.userId, producerId).Keys)
      modifies this`history, router, all
      ensures Valid() && found == Owns(old(router.State()), u.userId, producerId)
      ensures State() == CloseIn(old(State()), u.userId, producerId)
      ensures Posted(all, old(Snapshot(all)), CloseSends(old(State()), u.userId, producerId, order))
    {
      hide Posted, ClosedNotices, WithoutProducer, WithoutConsumers, ClosedConsumers;
      ghost var was := Snapshot(all);
      NothingPosted(all);
      var producer := router.GetProducer(u.userId, producerId);
      if producer.None? {
        return false;
      }
      found := true;
      router.RemoveProducer(u.userId, producerId);
      RemovalKeepsConsumers(old(router.State()), u.userId, producerId);
      var closed := router.RemoveConsumerByProducerId(u.userId, producerId, shifts);
      history := history + [Closed(u.userId, producerId)];
      TellClosed(closed, order, all, was);
    }

    /** The loop over what was closed; users who have left are passed over. */
    method TellClosed(closed: map<UserId, nat>, order: seq<UserId>, ghost all: set<User>, ghost was: map<User, UserState>)
      requires Valid() && OneEach(all) && users.Values <= all && Posted(all, was, [])
      requires forall v | v in users.Values :: was[v].open
      modifies all
      ensures Posted(all, was, ClosedNotices(users.Keys, closed, order))
    {
      hide Posted;
      ghost var sends: seq<Send> := [];
      for k := 0 to |order|
        invariant sends == ClosedNotices(users.Keys, closed, order[..k]) && Posted(all, was, sends)
      {
        assert order[..k + 1][..k] == order[..k];
        if order[k] in closed && order[k] in users {
          Post(users[order[k]], Tell(ConsumerClosed(closed[order[k]])), all, was, sends);
          sends := sends + [Send(order[k], Tell(ConsumerClosed(closed[order[k]])))];
        }
      }
      assert order[..|order|] == order;
    }

    /** The worker's transport becomes u's own in that direction, unless u has one. */
    method CreateWebrtcTransport(direction: Direction, u: User, transportId: string) returns (ok: bool)
      modifies router`produceTransportIds, router`consumeTransportIds
      ensures ok == (direction != Unknown)
      ensures State() == ConnectTransport(old(State()), u.userId, direction, transportId)
    {
      match direction {
        case ForProducing => router.SaveProducerTransportId(u.userId, transportId);
        case ForConsuming => router.SaveConsumeTransportId(u.userId, transportId);
        case Unknown =>
      }
      return direction != Unknown;
    }

    /** Two ids are drawn, unless the transport is u's own for consuming. */
    method CreateNewDataConsumer(u: User, transportId: string) returns (made: bool, body: Payload)
      modifies ids
      ensures var own := ConsumerTransport(router.State(), u.userId);
              && made == (own != transportId)
              && ids.nextId == old(ids.nextId) + (if made then 2 else 0)
              && (made ==> body == NewDataConsumer(own, old(ids.nextId), old(ids.nextId) + 1))
    {
      var own := router.GetConsumerTransportId(u.userId);
      if own == transportId {
        return false, Nothing;
      }
      var dataProducerId := ids.RandString();
      var dataConsumerId := ids.RandString();
      return true, NewDataConsumer(own, dataProducerId, dataConsumerId);
    }

    method NotifyOtherUsers(u: User, order: seq<UserId>, ghost all: set<User>)
      requires Ready(all, {}) && Enumerates(order, users.Keys)
      modifies all
      ensures Posted(all, old(Snapshot(all)), Broadcast(order, u.userId, NewPeer(old(u.PeerData()))))
    {
      ghost var was := Snapshot(all);
      NothingPosted(all);
      Announce(order, u.userId, NewPeer(u.PeerData()), all, was);
    }

    method GetOtherUsers(u: User, order: seq<UserId>, ghost peers: map<UserId, Peer>) returns (list: seq<Peer>)
      requires Valid() && Enumerates(order, users.Keys)
      requires forall id | id in users :: id in peers && users[id].PeerData() == peers[id]
      ensures list == OtherPeers(peers, u.userId, order)
    {
      list := [];
      for k := 0 to |order|
        invariant list == OtherPeers(peers, u.userId, order[..k])
      {
        assert order[..k + 1][..k] == order[..k];
        if order[k] != u.userId {
          list := list + [users[order[k]].PeerData()];
        }
      }
      assert order[..|order|] == order;
    }
  }

  // A panic does not go away.

  lemma {:induction false} OfferPanicLasts(e: Effect, u: UserId, p: Producer, peerId: string, order: seq<UserId>, k: nat)
    requires k <= |order| && OfferToOthers(e, u, p, peerId, order[..k]).panicked
    ensures OfferToOthers(e, u, p, peerId, order).panicked
  {
    if k == |order| {
      assert order[..k] == order;
    } else {
      assert order[..|order| - 1][..k] == order[..k];
      OfferPanicLasts(e, u, p, peerId, order[..|order| - 1], k);
    }
  }

  lemma {:induction false} PullPanicLasts(e: Effect, u: UserId, kind: string, ps: seq<Producer>, peerId: string, k: nat)
    requires k <= |ps| && PullList(e, u, kind, ps[..k], peerId).panicked
    ensures PullList(e, u, kind, ps, peerId).panicked
  {
    if k == |ps| {
      assert ps[..k] == ps;
    } else {
      assert ps[..|ps| - 1][..k] == ps[..k];
      PullPanicLasts(e, u, kind, ps[..|ps| - 1], peerId, k);
    }
  }

  lemma {:induction false} PullAllPanicLasts(e: Effect, u: UserId, kind: string, peers: map<UserId, Peer>,
                                             order: seq<UserId>, k: nat)
    requires k <= |order| && PullFromOthers(e, u, kind, peers, order[..k]).panicked
    ensures PullFromOthers(e, u, kind, peers, order).panicked
  {
    if k == |order| {
      assert order[..k] == order;
    } else {
      var front, last := order[..|order| - 1], order[|order| - 1];
      assert front[..k] == order[..k];
      PullAllPanicLasts(e, u, kind, peers, front, k);
      var d := PullFromOthers(e, u, kind, peers, front);
      var ps := ProducersOf(d.router, last);
      assert ps[..0] == [];
      PullPanicLasts(d, u, kind, ps, PeerIdOf(peers, last), 0);
    }
  }

  lemma PanicEnds(e: Effect, u: UserId, p: Producer, peerId: string, peers: map<UserId, Peer>,
                  others: seq<UserId>, owners: seq<UserId>)
    requires e.panicked || OfferToOthers(e, u, p, peerId, others).panicked
    ensures PullFromOthers(OfferToOthers(e, u, p, peerId, others), u, p.kind, peers, owners).panicked
  {
    if e.panicked {
      assert others[..0] == [];
      OfferPanicLasts(e, u, p, peerId, others, 0);
    }
    assert owners[..0] == [];
    PullAllPanicLasts(OfferToOthers(e, u, p, peerId, others), u, p.kind, peers, owners, 0);
  }

  /** Taking a producer off its owner's list touches no consumer. */
  lemma RemovalKeepsConsumers(r: RouterState, u: UserId, p: nat)
    ensures WithoutProducer(r, u, p).consumers == r.consumers
    ensures ClosedConsumers(WithoutProducer(r, u, p), u, p) == ClosedConsumers(r, u, p)
  {
  }

  lemma BroadcastNone(except: UserId, body: Payload)
    ensures Broadcast([], except, body) == []
  {
  }

  lemma BroadcastNext(order: seq<UserId>, v: UserId, except: UserId, body: Payload)
    ensures Broadcast(order + [v], except, body) ==
            if v == except then Broadcast(order, except, body)
            else Broadcast(order, except, body) + [Send(v, Tell(body))]
  {
    assert (order + [v])[..|order|] == order;
  }
}
