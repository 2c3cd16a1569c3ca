/**
  What each event sends to whom: for every user, exactly the messages its channel gains.
  Nothing here is stated in terms of the operations that do the sending.
*/
module Deliveries {
  import opened Basics
  import opened Decimal
  import opened History
  import opened Messages
  import opened Routing
  import opened RoomModel
  import opened Subscriptions
  import opened Offers
  import opened Conference
  import opened Invariants
  import opened Reachable
  import opened Handlers

  /** From w to p v was sent exactly news. */
  ghost predicate Sent(w: World, p: World, v: UserId, news: seq<WsMessage>) {
    v in w.users && v in p.users && p.users[v].sent == w.users[v].sent + news
  }

  lemma SentThen(w: World, p: World, q: World, v: UserId, a: seq<WsMessage>, b: seq<WsMessage>)
    requires Sent(w, p, v, a) && Sent(p, q, v, b)
    ensures Sent(w, q, v, a + b)
  {
  }

  lemma PostSent(w: World, sends: seq<Send>, v: UserId)
    requires v in w.users
    ensures Sent(w, Post(w, sends), v, Wire(w.users[v].reqId, To(v, sends)))
    ensures Post(w, sends).users[v].reqId == w.users[v].reqId + AskCount(To(v, sends))
    ensures Post(w, sends).users[v] ==
            w.users[v].(sent := Post(w, sends).users[v].sent, reqId := Post(w, sends).users[v].reqId)
  {
    PutAllSent(w.users[v], v, sends);
  }

  lemma UpdateSent(w: World, roomId: RoomId, rm: RoomState, nextId: nat, sends: seq<Send>, v: UserId)
    requires v in w.users && roomId in w.rooms
    ensures Sent(w, Update(w, roomId, rm, nextId, sends), v, Wire(w.users[v].reqId, To(v, sends)))
  {
    PostSent(WithRoom(w, roomId, rm, nextId), sends, v);
  }

  lemma RespondSent(w: World, u: UserId, id: int, ok: bool, body: Payload, v: UserId)
    requires v in w.users
    ensures Sent(w, Respond(w, u, id, ok, body), v, if v == u then [Response(id, ok, body)] else [])
  {
    var sends := [Send(u, Answer(id, ok, body))];
    assert sends[..0] == [];
    PostSent(w, sends, v);
    WireOne(w.users[v].reqId, Answer(id, ok, body));
  }

  lemma WireOne(n: int, what: Outgoing)
    ensures Wire(n, []) == []
    ensures Wire(n, [what]) == [Wired(n, what)]
  {
    assert [what][..0] == [];
  }

  // Whom the loops reach.

  lemma {:induction false} BroadcastTo(order: seq<UserId>, except: UserId, body: Payload, v: UserId)
    requires Distinct(order)
    ensures To(v, Broadcast(order, except, body)) == if v in order && v != except then [Tell(body)] else []
  {
    if order != [] {
      var front, last := order[..|order| - 1], order[|order| - 1];
      assert order == front + [last] && last !in front;
      BroadcastTo(front, except, body, v);
      ToConcat(v, Broadcast(front, except, body), if last == except then [] else [Send(last, Tell(body))]);
      ToOne(v, Send(last, Tell(body)));
    }
  }

  lemma ToOne(v: UserId, s: Send)
    ensures To(v, []) == [] && To(v, [s]) == if s.to == v then [s.what] else []
  {
    assert [s][..0] == [];
  }

  lemma {:induction false} NoticesTo(users: set<UserId>, closed: map<UserId, nat>, order: seq<UserId>, v: UserId)
    requires Distinct(order)
    ensures To(v, ClosedNotices(users, closed, order)) ==
            if v in order && v in users && v in closed then [Tell(ConsumerClosed(closed[v]))] else []
  {
    if order != [] {
      var front, last := order[..|order| - 1], order[|order| - 1];
      assert order == front + [last] && last !in front;
      NoticesTo(users, closed, front, v);
      if last in users && last in closed {
        var one := Send(last, Tell(ConsumerClosed(closed[last])));
        ToConcat(v, ClosedNotices(users, closed, front), [one]);
        ToOne(v, one);
      } else {
        assert ClosedNotices(users, closed, order) == ClosedNotices(users, closed, front);
      }
    }
  }

  /** The order without one user. */
  function Without(order: seq<UserId>, u: UserId): (r: seq<UserId>) {
    if order == [] then []
    else Without(order[..|order| - 1], u) + if order[|order| - 1] == u then [] else [order[|order| - 1]]
  }

  lemma {:induction false} WithoutEnumerates(order: seq<UserId>, users: set<UserId>, u: UserId)
    requires Enumerates(order, users)
    ensures Enumerates(Without(order, u), users - {u})
  {
    if order != [] {
      var front, last := order[..|order| - 1], order[|order| - 1];
      assert order == front + [last] && last !in front;
      WithoutEnumerates(front, users - {last}, u);
      assert last !in Without(front, u);
      assert forall i | 0 <= i < |Without(front, u)| :: Without(front, u)[i] != last;
    }
  }

  /** The list is of the given users' peers. */
  ghost predicate Lists(peers: seq<Peer>, users: map<UserId, UserState>, order: seq<UserId>) {
    |peers| == |order| && forall k | 0 <= k < |order| :: order[k] in users && peers[k] == users[order[k]].peer
  }

  lemma {:induction false} OthersListed(w: World, u: UserId, order: seq<UserId>)
    requires forall v | v in order :: v in w.users
    ensures Lists(OtherPeers(PeersOf(w), u, order), w.users, Without(order, u))
  {
    if order != [] {
      var front, last := order[..|order| - 1], order[|order| - 1];
      assert order == front + [last];
      OthersListed(w, u, front);
      assert last in order;
    }
  }

  // Looking up the room sends nothing and changes no room that was there.

  lemma Lookup(w: World, roomId: RoomId, worker: Opening)
    ensures var v := GetOrCreateRoom(w, roomId, worker);
            && v.users == w.users && v.connected == w.connected && v.panicked == w.panicked
            && (roomId in v.rooms <==> roomId in w.rooms || worker.Opened?)
            && (forall r :: RoomUsers(v, r) == RoomUsers(w, r))
            && (forall r :: RouterOf(v, r).producers == RouterOf(w, r).producers
                            && RouterOf(v, r).consumers == RouterOf(w, r).consumers
                            && RouterOf(v, r).consumeTransportIds == RouterOf(w, r).consumeTransportIds)
            && w.rooms.Keys <= v.rooms.Keys
  {
  }

  lemma MembersKnown(w: World, roomId: RoomId)
    requires Invariant(w)
    ensures forall x | x in RoomUsers(w, roomId) :: x in w.users && x in w.connected && w.users[x].roomId == roomId
  {
    forall x | x in RoomUsers(w, roomId) ensures Names(w, x, roomId) {
    }
  }

  // One law for each event.

  /** The name u goes by once its join has been handled. */
  function JoinedAs(peer: Peer, decoded: Option<(string, string)>): Peer {
    match decoded
    case None => peer
    case Some((displayName, device)) => Peer(peer.peerId, displayName, device, peer.remoteAddress)
  }

  /** Joining: each other member is told once, under u's new name; u is answered with the list of the others, each once. */
  lemma JoinTells(w: World, u: UserId, id: int, decoded: Option<(string, string)>,
                  told: seq<UserId>, listed: seq<UserId>, worker: Opening, v: UserId)
    requires Enabled(w, Handle(u, Join(id, decoded, told, listed), worker)) && v in w.users && Invariant(w)
    requires w.users[u].roomId in w.rooms || worker.Opened?
    ensures var p := HandleStep(w, u, Join(id, decoded, told, listed), worker);
            var members := RoomUsers(w, w.users[u].roomId);
            && v in p.users && p.users[v].peer == (if v == u then JoinedAs(w.users[u].peer, decoded) else w.users[v].peer)
            && if v != u
               then Sent(w, p, v, if v in members then [Notification(NewPeer(JoinedAs(w.users[u].peer, decoded)))] else [])
               else exists peers, os :: Enumerates(os, members - {u}) && Lists(peers, w.users, os)
                                        && Sent(w, p, u, [Response(id, true, Peers(peers))])
  {
    var roomId := w.users[u].roomId;
    Lookup(w, roomId, worker);
    MembersKnown(w, roomId);
    hide Invariant, GetOrCreateRoom, JoinStep, Sent, Lists;
    var q := GetOrCreateRoom(w, roomId, worker);
    JoinTellsAt(w, q, RoomUsers(w, roomId), u, id, decoded, told, listed, v);
  }

  /** q is w with the room looked up. */
  lemma JoinTellsAt(w: World, q: World, members: set<UserId>, u: UserId, id: int, decoded: Option<(string, string)>,
                    told: seq<UserId>, listed: seq<UserId>, v: UserId)
    requires q.users == w.users && u in w.users && v in w.users && w.users[u].roomId in q.rooms
    requires members <= w.users.Keys && Enumerates(told, members) && Enumerates(listed, members)
    ensures var p := JoinStep(q, u, id, decoded, told, listed);
            && v in p.users && p.users[v].peer == (if v == u then JoinedAs(w.users[u].peer, decoded) else w.users[v].peer)
            && if v != u
               then Sent(w, p, v, if v in members then [Notification(NewPeer(JoinedAs(w.users[u].peer, decoded)))] else [])
               else exists peers, os :: Enumerates(os, members - {u}) && Lists(peers, w.users, os)
                                        && Sent(w, p, u, [Response(id, true, Peers(peers))])
  {
    hide JoinStep, Broadcast, OtherPeers, Post;
    JoinSent(q, u, id, decoded, told, listed, v);
    if v == u {
      var sends := Broadcast(told, u, NewPeer(JoinedAs(w.users[u].peer, decoded)));
      JoinList(w, q.(users := q.users[u := Renamed(q.users[u], decoded)]), sends, u, listed, members);
    }
  }

  function Renamed(user: UserState, decoded: Option<(string, string)>): UserState {
    user.(peer := JoinedAs(user.peer, decoded))
  }

  /** The world once the others have been told of u. */
  function Announced(q: World, u: UserId, decoded: Option<(string, string)>, told: seq<UserId>): World
    requires u in q.users
  {
    var me := Renamed(q.users[u], decoded);
    Post(q.(users := q.users[u := me]), Broadcast(told, u, NewPeer(me.peer)))
  }

  lemma JoinSent(q: World, u: UserId, id: int, decoded: Option<(string, string)>,
                 told: seq<UserId>, listed: seq<UserId>, v: UserId)
    requires u in q.users && v in q.users && q.users[u].roomId in q.rooms && Distinct(told)
    ensures var p := JoinStep(q, u, id, decoded, told, listed);
            var peers := OtherPeers(PeersOf(Announced(q, u, decoded, told)), u, listed);
            && v in p.users && p.users[v].peer == (if v == u then JoinedAs(q.users[u].peer, decoded) else q.users[v].peer)
            && Sent(q, p, v, if v == u then [Response(id, true, Peers(peers))]
                             else if v in told then [Notification(NewPeer(JoinedAs(q.users[u].peer, decoded)))] else [])
  {
    JoinIs(q, u, id, decoded, told, listed);
    var me := Renamed(q.users[u], decoded);
    var named := q.(users := q.users[u := me]);
    var sends := Broadcast(told, u, NewPeer(me.peer));
    var after := Announced(q, u, decoded, told);
    var body := Peers(OtherPeers(PeersOf(after), u, listed));
    BroadcastTo(told, u, NewPeer(me.peer), v);
    hide Broadcast, Wire, To, Post, Respond, JoinStep, OtherPeers;
    PostSent(named, sends, v);
    WireOne(named.users[v].reqId, Tell(NewPeer(me.peer)));
    RespondSent(after, u, id, true, body, v);
    RespondKeepsPeers(after, u, id, true, body, v);
    assert Sent(q, after, v, if v != u && v in told then [Notification(NewPeer(me.peer))] else []);
  }

  lemma JoinIs(q: World, u: UserId, id: int, decoded: Option<(string, string)>, told: seq<UserId>, listed: seq<UserId>)
    requires u in q.users && q.users[u].roomId in q.rooms
    ensures var after := Announced(q, u, decoded, told);
            JoinStep(q, u, id, decoded, told, listed) ==
            Respond(after, u, id, true, Peers(OtherPeers(PeersOf(after), u, listed)))
  {
  }

  lemma RespondKeepsPeers(w: World, u: UserId, id: int, ok: bool, body: Payload, v: UserId)
    requires v in w.users
    ensures v in Respond(w, u, id, ok, body).users && Respond(w, u, id, ok, body).users[v].peer == w.users[v].peer
  {
    PostSent(w, [Send(u, Answer(id, ok, body))], v);
  }

  lemma JoinList(w: World, named: World, sends: seq<Send>, u: UserId, listed: seq<UserId>, members: set<UserId>)
    requires Enumerates(listed, members) && members <= w.users.Keys && named.users.Keys == w.users.Keys
    requires forall x | x in w.users && x != u :: named.users[x] == w.users[x]
    ensures var after := Post(named, sends);
            var os := Without(listed, u);
            Enumerates(os, members - {u}) && Lists(OtherPeers(PeersOf(after), u, listed), w.users, os)
  {
    var after := Post(named, sends);
    forall x | x in w.users ensures after.users[x].peer == named.users[x].peer {
      PostSent(named, sends, x);
    }
    WithoutEnumerates(listed, members, u);
    OthersListed(after, u, listed);
  }

  /** Leaving: each remaining member is told once, and nobody else is told anything. */
  lemma LeaveTells(w: World, u: UserId, worker: Opening, order: seq<UserId>, v: UserId)
    requires Enabled(w, Unregister(u, worker, order)) && v in w.users
    ensures var p := UnregisterStep(w, u, worker, order);
            Sent(w, p, v, if u in w.connected && v != u && v in RoomUsers(w, w.users[u].roomId)
                          then [Notification(PeerClosed(w.users[u].peer.peerId))] else [])
  {
    if u in w.connected {
      var roomId, body := w.users[u].roomId, PeerClosed(w.users[u].peer.peerId);
      var closed := w.(users := w.users[u := w.users[u].(open := false)], connected := w.connected - {u},
                       panicked := w.panicked || !w.users[u].open);
      Lookup(closed, roomId, worker);
      var q := GetOrCreateRoom(closed, roomId, worker);
      BroadcastTo(order, u, body, v);
      WireOne(w.users[v].reqId, Tell(body));
      if roomId in q.rooms {
        UpdateSent(q, roomId, Leave(q.rooms[roomId].state, u), q.nextId, Broadcast(order, u, body), v);
      }
      hide Broadcast, Wire, To, Update, GetOrCreateRoom;
    }
  }

  /**
    Closing: every member but the closer that holds a consumer of the closed producer is told
    once, of the first such consumer; nobody else is told anything, and nobody at all unless
    the producer was the closer's own.
  */
  lemma CloseTells(w: World, u: UserId, decoded: Option<nat>, order: seq<UserId>, worker: Opening, v: UserId)
    requires Enabled(w, Handle(u, CloseProducer(decoded, order), worker)) && v in w.users
    ensures var p := HandleStep(w, u, CloseProducer(decoded, order), worker);
            var r, members := RouterOf(w, w.users[u].roomId), RoomUsers(w, w.users[u].roomId);
            var cs := ConsumersOf(r, v);
            if decoded.Some? && (exists q | q in ProducersOf(r, u) :: q.producerId == decoded.value)
               && v in members && v != u && Holds(cs, decoded.value)
            then exists i | 0 <= i < |cs| ::
                   && cs[i].producerId == decoded.value && (forall j | 0 <= j < i :: cs[j].producerId != decoded.value)
                   && Sent(w, p, v, [Notification(ConsumerClosed(cs[i].consumerId))])
            else Sent(w, p, v, [])
  {
    var roomId := w.users[u].roomId;
    Lookup(w, roomId, worker);
    var q := GetOrCreateRoom(w, roomId, worker);
    if decoded.Some? && roomId in q.rooms {
      var rm, p := q.rooms[roomId].state, decoded.value;
      var sends := CloseSends(rm, u, p, order);
      UpdateSent(q, roomId, CloseIn(rm, u, p), q.nextId, sends, v);
      CloseSendsTo(rm, u, p, order, v);
      hide Update, CloseSends, Wire, To, GetOrCreateRoom, CloseIn;
      assert ConsumersOf(rm.router, v) == ConsumersOf(RouterOf(w, roomId), v);
      assert ProducersOf(rm.router, u) == ProducersOf(RouterOf(w, roomId), u);
      ToWireNotice(w.users[v].reqId);
    }
  }

  lemma ToWireNotice(n: int)
    ensures Wire(n, []) == [] && forall c :: Wire(n, [Tell(ConsumerClosed(c))]) == [Notification(ConsumerClosed(c))]
  {
    forall c: nat ensures Wire(n, [Tell(ConsumerClosed(c))]) == [Notification(ConsumerClosed(c))] {
      WireOne(n, Tell(ConsumerClosed(c)));
    }
  }

  lemma CloseSendsTo(rm: RoomState, u: UserId, p: nat, order: seq<UserId>, v: UserId)
    requires Enumerates(order, ClosedConsumers(rm.router, u, p).Keys)
    ensures var cs := ConsumersOf(rm.router, v);
            if Owns(rm.router, u, p) && v in rm.users && v != u && Holds(cs, p)
            then exists i | 0 <= i < |cs| ::
                   && cs[i].producerId == p && (forall j | 0 <= j < i :: cs[j].producerId != p)
                   && To(v, CloseSends(rm, u, p, order)) == [Tell(ConsumerClosed(cs[i].consumerId))]
            else To(v, CloseSends(rm, u, p, order)) == []
  {
    ClosingReports(rm.router, u, p, v);
    NoticesTo(rm.users, ClosedConsumers(rm.router, u, p), order, v);
    hide ClosedNotices, ClosedConsumers;
  }

  /** The request offers the k-th consumer c of its user, in the name of whoever produces. */
  ghost predicate Offered(m: WsMessage, c: Consumer, k: nat, r: RouterState, peers: map<UserId, Peer>) {
    && m.Request? && m.body.NewConsumer?
    && m.body.consumerId == c.consumerId && m.body.producerId == c.producerId
    && m.body.kind == c.kind && m.body.transportId == c.transportId
    && m.body.mid == Itoa(k)
    && ProducedBy(r, peers, c.producerId, c.kind, m.body.peerId)
  }

  /** It has the number n, too. */
  ghost predicate OffersIt(m: WsMessage, n: int, c: Consumer, k: nat, r: RouterState, peers: map<UserId, Peer>) {
    Offered(m, c, k, r, peers) && m.id == n
  }

  /** One request for each consumer that took the list from cs to ds, in order, numbered from n. */
  ghost predicate OffersGained(offers: seq<WsMessage>, n: int, cs: seq<Consumer>, ds: seq<Consumer>, r: RouterState,
                               peers: map<UserId, Peer>) {
    && cs <= ds && |offers| == |ds| - |cs|
    && forall j | 0 <= j < |offers| :: OffersIt(offers[j], n + j, ds[|cs| + j], |cs| + j + 1, r, peers)
  }

  lemma {:induction false} WireAsks(n: int, whats: seq<Outgoing>)
    requires forall j | 0 <= j < |whats| :: whats[j].Ask?
    ensures AskCount(whats) == |whats| && |Wire(n, whats)| == |whats|
    ensures forall j | 0 <= j < |whats| :: Wire(n, whats)[j] == Request(n + j, whats[j].body)
  {
    if whats != [] {
      WireAsks(n, whats[..|whats| - 1]);
    }
  }

  lemma AnnouncedOffers(d: Effect, e: Effect, v: UserId, peers: map<UserId, Peer>, n: int)
    requires Announces(d, e, v, peers) && d.sends == []
    ensures OffersGained(Wire(n, To(v, e.sends)), n, ConsumersOf(d.router, v), ConsumersOf(e.router, v), e.router, peers)
  {
    hide Announces, Describes, OffersIt, ConsumersOf, To;
    var cs, ds, b := ConsumersOf(d.router, v), ConsumersOf(e.router, v), To(v, e.sends);
    AnnouncedGained(d, e, v, peers);
    SameDescriptions(d.router, e.router, peers);
    forall j | 0 <= j < |b| ensures b[j].Ask? && OffersIt(Request(n + j, b[j].body), n + j, ds[|cs| + j], |cs| + j + 1, e.router, peers) {
      DescribedIsOffered(b[j], n + j, ds[|cs| + j], |cs| + j + 1, e.router, peers);
    }
    WireAsks(n, b);
  }

  lemma AnnouncedGained(d: Effect, e: Effect, v: UserId, peers: map<UserId, Peer>)
    requires Announces(d, e, v, peers) && d.sends == []
    ensures var cs, ds, b := ConsumersOf(d.router, v), ConsumersOf(e.router, v), To(v, e.sends);
            && e.router.producers == d.router.producers
            && cs <= ds && |b| == |ds| - |cs|
            && forall j | 0 <= j < |b| :: Describes(b[j], ds[|cs| + j], |cs| + j + 1, d.router, peers)
  {
    hide Announces, Describes, ConsumersOf, To;
    var cs, ds, b := ConsumersOf(d.router, v), ConsumersOf(e.router, v), To(v, e.sends);
    NothingTo(v);
    AnnouncedCount(d, e, v, peers);
    forall j | 0 <= j < |b| ensures Describes(b[j], ds[|cs| + j], |cs| + j + 1, d.router, peers) {
      AnnouncedAt(d, e, v, peers, |cs| + j);
    }
  }

  lemma AnnouncedCount(d: Effect, e: Effect, v: UserId, peers: map<UserId, Peer>)
    requires Announces(d, e, v, peers)
    ensures e.router.producers == d.router.producers && ConsumersOf(d.router, v) <= ConsumersOf(e.router, v)
    ensures |To(v, e.sends)| - |To(v, d.sends)| == |ConsumersOf(e.router, v)| - |ConsumersOf(d.router, v)|
  {
    hide Describes, ConsumersOf, MadeFor, To;
  }

  lemma AnnouncedAt(d: Effect, e: Effect, v: UserId, peers: map<UserId, Peer>, k: nat)
    requires Announces(d, e, v, peers) && |ConsumersOf(d.router, v)| <= k < |ConsumersOf(e.router, v)|
    ensures var i := |To(v, d.sends)| + (k - |ConsumersOf(d.router, v)|);
            i < |To(v, e.sends)| && Describes(To(v, e.sends)[i], ConsumersOf(e.router, v)[k], k + 1, d.router, peers)
  {
    hide Describes, ConsumersOf, MadeFor, To;
  }

  lemma NothingTo(v: UserId)
    ensures To(v, []) == []
  {
  }

  lemma DescribedIsOffered(what: Outgoing, n: int, c: Consumer, k: nat, r: RouterState, peers: map<UserId, Peer>)
    requires Describes(what, c, k, r, peers)
    ensures what.Ask? && OffersIt(Request(n, what.body), n, c, k, r, peers)
  {
  }

  /**
    From w to p v was sent one offer for each consumer its list in the room gained, in the
    name of whoever produces, and then rest; and nothing else.
  */
  ghost predicate OfferedAndThen(w: World, p: World, roomId: RoomId, v: UserId, rest: seq<WsMessage>) {
    v in w.users && exists offers ::
      && OffersGained(offers, w.users[v].reqId, ConsumersOf(RouterOf(w, roomId), v), ConsumersOf(RouterOf(p, roomId), v),
                      RouterOf(p, roomId), PeersOf(w))
      && Sent(w, p, v, offers + rest)
  }

  /** Producing, in a room that is there. */
  lemma ProduceSent(q: World, u: UserId, id: int, request: ProduceRequest, others: seq<UserId>, owners: seq<UserId>, v: UserId)
    requires u in q.users && v in q.users && q.users[u].roomId in q.rooms
    requires RoomInvariant(q.rooms[q.users[u].roomId].state, q.nextId) && Distinct(others)
    ensures var roomId := q.users[u].roomId;
            var p := ProduceStep(q, u, id, Some(request), others, owners);
            OfferedAndThen(q, p, roomId, v, if v == u then [Response(id, true, ProducerCreated(q.nextId))] else [])
  {
    hide RoomInvariant, ProduceEffect, OffersGained, Wire, To;
    var roomId := q.users[u].roomId;
    var rm, peers := q.rooms[roomId].state, PeersOf(q);
    var e := ProduceEffect(rm.router, q.nextId, peers, u, request, others, owners);
    var made := Producer(q.nextId, request.transportId, request.kind, request.shape);
    var r := rm.router.(producers := rm.router.producers[u := ProducersOf(rm.router, u) + [made]]);
    ProduceAnnounces(rm, q.nextId, peers, u, request, others, owners, v);
    AnnouncedOffers(Effect(r, q.nextId + 1, [], request.shape.nullEncoding && r.workerId != ""), e, v, peers, q.users[v].reqId);
    assert ConsumersOf(r, v) == ConsumersOf(rm.router, v);
    hide Announces, ConsumersOf, PeersOf, Update, Respond;
    var rm' := ProduceIn(rm, q.nextId, peers, u, request, others, owners);
    var posted := Update(q, roomId, rm', e.nextId, e.sends);
    UpdateSent(q, roomId, rm', e.nextId, e.sends, v);
    RespondSent(posted, u, id, true, ProducerCreated(q.nextId), v);
    ProduceLeaves(q, roomId, rm', e.nextId, e.sends, u, id);
    SentThen(q, posted, Respond(posted, u, id, true, ProducerCreated(q.nextId)), v, Wire(q.users[v].reqId, To(v, e.sends)),
             if v == u then [Response(id, true, ProducerCreated(q.nextId))] else []);
  }

  lemma ProduceLeaves(q: World, roomId: RoomId, rm: RoomState, nextId: nat, sends: seq<Send>, u: UserId, id: int)
    requires roomId in q.rooms
    ensures var p := Respond(Update(q, roomId, rm, nextId, sends), u, id, true, ProducerCreated(q.nextId));
            roomId in p.rooms && p.rooms[roomId].state == rm
  {
  }

  predicate HasRoom(w: World, u: UserId, worker: Opening)
    requires u in w.users
  {
    w.users[u].roomId in w.rooms || worker.Opened?
  }

  /** The next random id, once u's room has been looked up: opening a router takes one. */
  function NextIdIn(w: World, u: UserId, worker: Opening): nat
    requires u in w.users
  {
    w.nextId + if w.users[u].roomId in w.rooms || worker.NoWorker? then 0 else 1
  }

  /**
    Producing: every user is sent one offer for each consumer its list gained, in the name of
    whoever produces, and the producing user is answered; nothing else is sent.
  */
  lemma ProduceTells(w: World, u: UserId, id: int, decoded: Option<ProduceRequest>, others: seq<UserId>, owners: seq<UserId>,
                     worker: Opening, v: UserId)
    requires Enabled(w, Handle(u, Produce(id, decoded, others, owners), worker)) && v in w.users && Invariant(w)
    ensures var p := HandleStep(w, u, Produce(id, decoded, others, owners), worker);
            var body := if HasRoom(w, u, worker) && decoded.Some? then ProducerCreated(NextIdIn(w, u, worker)) else Nothing;
            OfferedAndThen(w, p, w.users[u].roomId, v, if v == u then [Response(id, true, body)] else [])
  {
    hide Invariant, ProduceStep, OfferedAndThen, GetOrCreateRoom, Keeps, RoomUsers;
    var roomId := w.users[u].roomId;
    Lookup(w, roomId, worker);
    UserNames(w, u);
    CreatingRoom(w, u, roomId, worker);
    var q := GetOrCreateRoom(w, roomId, worker);
    KeepsInvariant(w, q, u);
    NextId(w, u, worker);
    ProduceTellsAt(q, u, id, decoded, others, owners, v);
    OfferedFrom(w, q, roomId, v);
  }

  lemma KeepsInvariant(w: World, q: World, u: UserId)
    requires Keeps(w, q, u, [])
    ensures Invariant(q)
  {
  }

  lemma OfferedFrom(w: World, q: World, roomId: RoomId, v: UserId)
    requires q.users == w.users && RouterOf(q, roomId).consumers == RouterOf(w, roomId).consumers
    ensures forall p, rest :: OfferedAndThen(q, p, roomId, v, rest) ==> OfferedAndThen(w, p, roomId, v, rest)
  {
    SameLists(q, w, roomId, v);
    assert PeersOf(q) == PeersOf(w);
    hide OffersGained, ConsumersOf, PeersOf;
    assert forall p, news :: Sent(q, p, v, news) <==> Sent(w, p, v, news);
  }

  lemma UserNames(w: World, u: UserId)
    requires u in w.connected && Invariant(w)
    ensures u in w.users && Names(w, u, w.users[u].roomId)
  {
    assert u in w.connected <==> Writable(w, u);
  }

  lemma NextId(w: World, u: UserId, worker: Opening)
    requires u in w.users
    ensures GetOrCreateRoom(w, w.users[u].roomId, worker).nextId == NextIdIn(w, u, worker)
  {
  }

  /** In a world where the room has been looked up. */
  lemma ProduceTellsAt(q: World, u: UserId, id: int, decoded: Option<ProduceRequest>,
                       others: seq<UserId>, owners: seq<UserId>, v: UserId)
    requires u in q.users && v in q.users
    requires q.users[u].roomId in q.rooms ==> Distinct(others)
    requires Invariant(q)
    ensures var roomId := q.users[u].roomId;
            var p := ProduceStep(q, u, id, decoded, others, owners);
            var body := if roomId in q.rooms && decoded.Some? then ProducerCreated(q.nextId) else Nothing;
            OfferedAndThen(q, p, roomId, v, if v == u then [Response(id, true, body)] else [])
  {
    var roomId := q.users[u].roomId;
    if decoded.Some? && roomId in q.rooms {
      assert RoomInvariant(q.rooms[roomId].state, q.nextId);
      hide Invariant, RoomInvariant, ProduceStep, OfferedAndThen, Distinct;
      ProduceSent(q, u, id, decoded.value, others, owners, v);
    } else {
      hide Invariant, Respond, OfferedAndThen;
      ProduceNothing(q, u, id, roomId, v);
    }
  }

  lemma ProduceNothing(q: World, u: UserId, id: int, roomId: RoomId, v: UserId)
    requires v in q.users
    ensures var p := Respond(q, u, id, true, Nothing);
            OfferedAndThen(q, p, roomId, v, if v == u then [Response(id, true, Nothing)] else [])
  {
    RespondSent(q, u, id, true, Nothing, v);
    var p := Respond(q, u, id, true, Nothing);
    assert p.rooms == q.rooms;
    hide Respond, Sent, PeersOf, ConsumersOf;
    var none: seq<WsMessage> := [];
    var news := if v == u then [Response(id, true, Nothing)] else [];
    assert OffersGained(none, q.users[v].reqId, ConsumersOf(RouterOf(q, roomId), v), ConsumersOf(RouterOf(p, roomId), v),
                        RouterOf(p, roomId), PeersOf(q));
    assert none + news == news;
  }

  lemma SameLists(q: World, w: World, roomId: RoomId, v: UserId)
    requires RouterOf(q, roomId).consumers == RouterOf(w, roomId).consumers
    ensures ConsumersOf(RouterOf(q, roomId), v) == ConsumersOf(RouterOf(w, roomId), v)
  {
  }

  /**
    Creating a transport: only u is answered, with ok exactly if there is a room, the request
    decodes to a known direction and the worker replies. The transport becomes u's own in that
    direction, unless u has one; no other transport changes.
  */
  lemma CreateTransportTells(w: World, u: UserId, id: int, decoded: Option<Direction>, reply: Option<string>, worker: Opening, v: UserId)
    requires u in w.users && v in w.users
    ensures var p := HandleStep(w, u, CreateTransport(id, decoded, reply), worker);
            var ok := HasRoom(w, u, worker) && (decoded == Some(ForProducing) || decoded == Some(ForConsuming)) && reply.Some?;
            var r, s := RouterOf(w, w.users[u].roomId), RouterOf(p, w.users[u].roomId);
            && Sent(w, p, v, if v != u then [] else [Response(id, ok, if ok then TransportCreated(reply.value) else Nothing)])
            && (forall x :: ConsumerTransport(s, x) ==
                            if ok && decoded == Some(ForConsuming) && x == u && u !in r.consumeTransportIds then reply.value
                            else ConsumerTransport(r, x))
            && (forall x :: ProducerTransport(s, x) ==
                            if ok && decoded == Some(ForProducing) && x == u && ProducerTransport(r, u) == None then reply
                            else ProducerTransport(r, x))
  {
    var roomId := w.users[u].roomId;
    Lookup(w, roomId, worker);
    LookupTransports(w, roomId, worker);
    var q := GetOrCreateRoom(w, roomId, worker);
    hide GetOrCreateRoom, ConnectTransport, Update;
    if roomId in q.rooms && decoded.Some? && reply.Some? && decoded.value != Unknown {
      var rm := ConnectTransport(q.rooms[roomId].state, u, decoded.value, reply.value);
      UpdateSent(q, roomId, rm, q.nextId, [], v);
      WireOne(q.users[v].reqId, Tell(Nothing));
      ToOne(v, Send(u, Tell(Nothing)));
      RespondSent(Update(q, roomId, rm, q.nextId, []), u, id, true, TransportCreated(reply.value), v);
      TransportsAfter(q, roomId, u, decoded.value, reply.value, id);
    } else {
      RespondSent(q, u, id, false, Nothing, v);
    }
  }

  lemma TransportsAfter(q: World, roomId: RoomId, u: UserId, direction: Direction, transportId: string, id: int)
    requires roomId in q.rooms && direction != Unknown
    ensures var rm := q.rooms[roomId].state;
            var p := Respond(Update(q, roomId, ConnectTransport(rm, u, direction, transportId), q.nextId, []), u, id, true,
                             TransportCreated(transportId));
            var r, s := rm.router, RouterOf(p, roomId);
            && (forall x :: ConsumerTransport(s, x) ==
                            if direction == ForConsuming && x == u && u !in r.consumeTransportIds then transportId
                            else ConsumerTransport(r, x))
            && (forall x :: ProducerTransport(s, x) ==
                            if direction == ForProducing && x == u && ProducerTransport(r, u) == None then Some(transportId)
                            else ProducerTransport(r, x))
  {
    hide To;
  }

  function ProducerTransport(r: RouterState, x: UserId): Option<string> {
    if x in r.produceTransportIds then Some(r.produceTransportIds[x]) else None
  }

  lemma LookupTransports(w: World, roomId: RoomId, worker: Opening)
    ensures var v := GetOrCreateRoom(w, roomId, worker);
            RouterOf(v, roomId).produceTransportIds == RouterOf(w, roomId).produceTransportIds
  {
  }

  /** Whether handling the request asks u for a data consumer: only the first time that another transport than its consuming one is connected. */
  predicate AsksForData(w: World, u: UserId, decoded: Option<string>, worker: Opening)
    requires u in w.users
  {
    && HasRoom(w, u, worker) && decoded.Some? && !w.users[u].newDataConsumerReq
    && ConsumerTransport(RouterOf(w, w.users[u].roomId), u) != decoded.value
  }

  /** Connecting a transport: u may be asked for a data consumer, and is answered; nothing else is sent. */
  lemma ConnectTells(w: World, u: UserId, id: int, decoded: Option<string>, accepted: bool, worker: Opening, v: UserId)
    requires u in w.users && v in w.users
    ensures var p := HandleStep(w, u, ConnectClientTransport(id, decoded, accepted), worker);
            var ok := HasRoom(w, u, worker) && decoded.Some? && accepted;
            var answer := Response(id, ok, if ok then Acknowledged else Nothing);
            && v in p.users
            && p.users[v].newDataConsumerReq == (w.users[v].newDataConsumerReq || (v == u && AsksForData(w, u, decoded, worker)))
            && if v != u then Sent(w, p, v, [])
               else if !AsksForData(w, u, decoded, worker) then Sent(w, p, u, [answer])
               else exists a: nat, b: nat | w.nextId <= a < b < p.nextId ::
                      var own := ConsumerTransport(RouterOf(w, w.users[u].roomId), u);
                      Sent(w, p, u, [Request(w.users[u].reqId, NewDataConsumer(own, a, b)), answer])
  {
    var roomId := w.users[u].roomId;
    Lookup(w, roomId, worker);
    var q := GetOrCreateRoom(w, roomId, worker);
    assert w.nextId <= q.nextId;
    hide GetOrCreateRoom, Respond, Post, ConsumerTransport, Sent;
    SameTransport(w, q, roomId, u);
    ConnectSent(q, u, id, decoded, accepted, v);
    SentFrom(w, q);
  }

  lemma SentFrom(w: World, q: World)
    requires q.users == w.users
    ensures forall p, v, news :: Sent(q, p, v, news) <==> Sent(w, p, v, news)
  {
  }

  /** In a world where the room has been looked up. */
  lemma ConnectSent(q: World, u: UserId, id: int, decoded: Option<string>, accepted: bool, v: UserId)
    requires u in q.users && v in q.users
    ensures var p := ConnectStep(q, u, id, decoded, accepted);
            var own := ConsumerTransport(RouterOf(q, q.users[u].roomId), u);
            var found := q.users[u].roomId in q.rooms && decoded.Some?;
            var asks := found && !q.users[u].newDataConsumerReq && own != decoded.value;
            var answer := Response(id, found && accepted, if found && accepted then Acknowledged else Nothing);
            && v in p.users && p.users[v].newDataConsumerReq == (q.users[v].newDataConsumerReq || (v == u && asks))
            && (asks ==> p.nextId == q.nextId + 2)
            && Sent(q, p, v, if v != u then []
                             else if asks then [Request(q.users[u].reqId, NewDataConsumer(own, q.nextId, q.nextId + 1)), answer]
                             else [answer])
  {
    hide Respond, Post, ConsumerTransport;
    if q.users[u].roomId in q.rooms && decoded.Some? {
      var own := ConsumerTransport(q.rooms[q.users[u].roomId].state.router, u);
      var body := if accepted then Acknowledged else Nothing;
      if q.users[u].newDataConsumerReq || own == decoded.value {
        RespondSent(q, u, id, accepted, body, v);
        RespondKeepsUser(q, u, id, accepted, body, v);
      } else {
        AskedSent(q, u, own, v);
        AskedNext(q, u, own);
        var asked := Asked(q, u, own);
        RespondSent(asked, u, id, accepted, body, v);
        RespondKeepsUser(asked, u, id, accepted, body, v);
      }
    } else {
      RespondSent(q, u, id, false, Nothing, v);
      RespondKeepsUser(q, u, id, false, Nothing, v);
    }
  }

  lemma AskedNext(q: World, u: UserId, own: string)
    requires u in q.users
    ensures Asked(q, u, own).nextId == q.nextId + 2
  {
  }

  lemma SameTransport(w: World, q: World, roomId: RoomId, u: UserId)
    requires RouterOf(q, roomId).consumeTransportIds == RouterOf(w, roomId).consumeTransportIds
    ensures ConsumerTransport(RouterOf(q, roomId), u) == ConsumerTransport(RouterOf(w, roomId), u)
  {
  }

  /** The world once u has been asked for a data consumer. */
  function Asked(q: World, u: UserId, own: string): World
    requires u in q.users
  {
    Post(q.(users := q.users[u := q.users[u].(newDataConsumerReq := true)], nextId := q.nextId + 2),
         [Send(u, Ask(NewDataConsumer(own, q.nextId, q.nextId + 1)))])
  }

  lemma AskedSent(q: World, u: UserId, own: string, v: UserId)
    requires u in q.users && v in q.users
    ensures Sent(q, Asked(q, u, own), v,
                 if v == u then [Request(q.users[u].reqId, NewDataConsumer(own, q.nextId, q.nextId + 1))] else [])
    ensures Asked(q, u, own).users[v].newDataConsumerReq == (q.users[v].newDataConsumerReq || v == u)
  {
    var what := Ask(NewDataConsumer(own, q.nextId, q.nextId + 1));
    var flagged := q.(users := q.users[u := q.users[u].(newDataConsumerReq := true)], nextId := q.nextId + 2);
    PostSent(flagged, [Send(u, what)], v);
    ToOne(v, Send(u, what));
    WireOne(q.users[v].reqId, what);
  }

  lemma RespondKeepsUser(w: World, u: UserId, id: int, ok: bool, body: Payload, v: UserId)
    requires v in w.users
    ensures var p := Respond(w, u, id, ok, body);
            v in p.users && p.users[v].newDataConsumerReq == w.users[v].newDataConsumerReq && p.nextId == w.nextId
  {
    PostSent(w, [Send(u, Answer(id, ok, body))], v);
  }

  /** Producing data: u is answered, with a fresh id exactly if there is a room and the request decodes. */
  lemma ProduceDataTells(w: World, u: UserId, id: int, decodes: bool, worker: Opening, v: UserId)
    requires u in w.users && v in w.users
    ensures var p := HandleStep(w, u, ProduceData(id, decodes), worker);
            if v != u then Sent(w, p, v, [])
            else if HasRoom(w, u, worker) && decodes
            then exists d: nat | w.nextId <= d < p.nextId :: Sent(w, p, u, [Response(id, true, DataProducerCreated(d))])
            else Sent(w, p, u, [Response(id, false, Nothing)])
  {
    var roomId := w.users[u].roomId;
    Lookup(w, roomId, worker);
    var q := GetOrCreateRoom(w, roomId, worker);
    assert w.nextId <= q.nextId;
    hide GetOrCreateRoom;
    if roomId in q.rooms && decodes {
      var drawn := q.(nextId := q.nextId + 1);
      RespondSent(drawn, u, id, true, DataProducerCreated(q.nextId), v);
      RespondKeepsUser(drawn, u, id, true, DataProducerCreated(q.nextId), v);
    } else {
      RespondSent(q, u, id, false, Nothing, v);
    }
  }

  /** The capabilities are sent to whoever asks, and an unknown method is passed over. */
  lemma OtherRequestsTell(w: World, u: UserId, id: int, worker: Opening, v: UserId)
    requires u in w.users && v in w.users
    ensures Sent(w, HandleStep(w, u, GetCapabilities(id), worker), v, if v == u then [Response(id, true, Capabilities)] else [])
    ensures HandleStep(w, u, UnknownMethod, worker) == w
  {
    RespondSent(w, u, id, true, Capabilities, v);
  }

  /** Connecting sends nothing to anybody; the new user's channel is open and empty. */
  lemma RegisterTells(w: World, u: UserId, roomId: RoomId, peer: Peer, firstReqId: int, worker: Opening, v: UserId)
    requires v in w.users || v == u
    ensures var p := RegisterStep(w, u, roomId, peer, firstReqId, worker);
            && v in p.users
            && p.users[v] == if v == u then UserState(roomId, peer, firstReqId, firstReqId, false, true, []) else w.users[v]
  {
    var user := UserState(roomId, peer, firstReqId, firstReqId, false, true, []);
    var q := GetOrCreateRoom(w.(users := w.users[u := user], connected := w.connected + {u}), roomId, worker);
    if roomId in q.rooms {
      var rm := Enter(q.rooms[roomId].state, u);
      EmptyPost(WithRoom(q, roomId, rm, q.nextId));
    }
  }
}
