/** Every step keeps the invariant, and answers the request it handles. */
module Reachable {
  import opened Basics
  import opened History
  import opened Messages
  import opened Routing
  import opened RoomModel
  import opened Subscriptions
  import opened Conference
  import opened Invariants

  /** The number of the request the event answers, if it answers one. */
  function Answered(e: ServerEvent, u: UserId): seq<int> {
    if e.Handle? && e.user == u && !e.request.CloseProducer? && !e.request.UnknownMethod?
    then [e.request.id] else []
  }

  /** The step keeps the invariant, does not panic, and answers u with the given numbers. */
  ghost predicate Keeps(w: World, p: World, u: UserId, answers: seq<int>) {
    && Invariant(p) && p.panicked == w.panicked
    && p.users.Keys == w.users.Keys && p.connected == w.connected && w.rooms.Keys <= p.rooms.Keys
    && (forall v | v in w.users :: Follows(w, p, v))
    && forall v | v in w.users ::
         && p.users[v].roomId == w.users[v].roomId
         && ResponseIds(p.users[v].sent) == ResponseIds(w.users[v].sent) + if v == u then answers else []
  }

  lemma KeepsThen(w: World, p: World, q: World, u: UserId, a: seq<int>, b: seq<int>)
    requires Keeps(w, p, u, a) && Keeps(p, q, u, b)
    ensures Keeps(w, q, u, a + b)
  {
    hide Invariant, Follows;
    forall v | v in w.users ensures Follows(w, q, v) {
      FollowsThen(w, p, q, v);
    }
    forall v | v in w.users
      ensures ResponseIds(q.users[v].sent) == ResponseIds(w.users[v].sent) + if v == u then a + b else []
    {
      assert ResponseIds(p.users[v].sent) + [] == ResponseIds(p.users[v].sent);
    }
  }

  // What the operations send.

  lemma {:induction false} BroadcastSends(order: seq<UserId>, except: UserId, body: Payload)
    ensures forall s | s in Broadcast(order, except, body) :: s.to in order && s.to != except && s.what.Tell?
  {
    if order != [] {
      BroadcastSends(order[..|order| - 1], except, body);
    }
  }

  lemma {:induction false} NoticeSends(users: set<UserId>, closed: map<UserId, nat>, order: seq<UserId>)
    ensures forall s | s in ClosedNotices(users, closed, order) :: s.to in users && s.what.Tell?
  {
    if order != [] {
      NoticeSends(users, closed, order[..|order| - 1]);
    }
  }

  ghost predicate AsksOnly(sends: seq<Send>, u: UserId, others: seq<UserId>) {
    forall s | s in sends :: (s.to == u || s.to in others) && s.what.Ask?
  }

  lemma {:induction false} OfferSends(e: Effect, u: UserId, p: Producer, peerId: string, order: seq<UserId>, all: seq<UserId>)
    requires AsksOnly(e.sends, u, all) && forall v | v in order :: v in all
    ensures AsksOnly(OfferToOthers(e, u, p, peerId, order).sends, u, all)
  {
    if order != [] {
      OfferSends(e, u, p, peerId, order[..|order| - 1], all);
    }
  }

  lemma {:induction false} PullListSends(e: Effect, u: UserId, kind: string, ps: seq<Producer>, peerId: string, all: seq<UserId>)
    requires AsksOnly(e.sends, u, all)
    ensures AsksOnly(PullList(e, u, kind, ps, peerId).sends, u, all)
  {
    if ps != [] {
      PullListSends(e, u, kind, ps[..|ps| - 1], peerId, all);
    }
  }

  lemma {:induction false} PullSends(e: Effect, u: UserId, kind: string, peers: map<UserId, Peer>, order: seq<UserId>,
                                     all: seq<UserId>)
    requires AsksOnly(e.sends, u, all)
    ensures AsksOnly(PullFromOthers(e, u, kind, peers, order).sends, u, all)
  {
    if order != [] {
      PullSends(e, u, kind, peers, order[..|order| - 1], all);
      var d := PullFromOthers(e, u, kind, peers, order[..|order| - 1]);
      var k := order[|order| - 1];
      PullListSends(d, u, kind, ProducersOf(d.router, k), PeerIdOf(peers, k), all);
    }
  }

  // Steps that leave the rooms alone.

  lemma PlainPost(w: World, u: UserId, sends: seq<Send>)
    requires Invariant(w) && AllWritable(w, sends)
    requires forall s | s in sends :: s.what.Tell? || (s.what.Ask? && !s.what.body.NewConsumer?)
    ensures Keeps(w, Post(w, sends), u, [])
  {
    forall v ensures OfferedMids(v, sends) == [] && AnswerIds(v, sends) == [] {
      NoOffers(v, sends);
      NoAnswers(v, sends);
    }
    PostKeeps(w, sends);
  }

  lemma Answering(w: World, u: UserId, id: int, ok: bool, body: Payload)
    requires Invariant(w) && u in w.connected
    ensures Keeps(w, Respond(w, u, id, ok, body), u, [id])
  {
    RespondKeeps(w, u, id, ok, body);
  }

  lemma ThenAnswer(w: World, p: World, u: UserId, id: int, ok: bool, body: Payload)
    requires Keeps(w, p, u, []) && u in w.connected
    ensures Keeps(w, Respond(p, u, id, ok, body), u, [id])
  {
    hide Invariant, Respond;
    Answering(p, u, id, ok, body);
    KeepsThen(w, p, Respond(p, u, id, ok, body), u, [], [id]);
    assert [] + [id] == [id];
  }

  lemma ThenPost(w: World, p: World, u: UserId, sends: seq<Send>)
    requires Keeps(w, p, u, []) && AllWritable(w, sends)
    requires forall s | s in sends :: s.what.Tell? || (s.what.Ask? && !s.what.body.NewConsumer?)
    ensures Keeps(w, Post(p, sends), u, [])
  {
    hide Invariant, Post;
    PlainPost(p, u, sends);
    KeepsThen(w, p, Post(p, sends), u, [], []);
  }

  /** A change to a user's name or flag, and to the id supply. */
  lemma UserChange(w: World, u: UserId, user: UserState, nextId: nat)
    requires Invariant(w) && u in w.users && nextId >= w.nextId
    requires user == w.users[u].(peer := user.peer, newDataConsumerReq := user.newDataConsumerReq)
    ensures Keeps(w, w.(users := w.users[u := user], nextId := nextId), u, [])
  {
    var p := w.(users := w.users[u := user], nextId := nextId);
    SamePlacesKeep(w, p);
    UserChangeOrder(w, u, user, p);
    hide ChannelsMatch, MembersConnected, RoomsNamed, RoutersAccounted, RoomsValid, RequestsNumbered, MidsMatch;
    QuietlyKeeps(w, p, u);
  }

  lemma SameRoomsFollow(w: World, p: World)
    requires p.users.Keys == w.users.Keys
    requires forall v | v in w.users :: p.users[v].roomId == w.users[v].roomId && p.users[v].sent == w.users[v].sent
    requires forall r | r in w.rooms :: r in p.rooms && p.rooms[r] == w.rooms[r]
    ensures forall v | v in w.users :: Follows(w, p, v)
  {
    hide WireMids;
    forall v | v in w.users ensures Follows(w, p, v) {
      FollowsSame(w, p, v);
    }
  }

  lemma UserChangeOrder(w: World, u: UserId, user: UserState, p: World)
    requires u in w.users && p.users == w.users[u := user] && p.rooms == w.rooms
    requires user == w.users[u].(peer := user.peer, newDataConsumerReq := user.newDataConsumerReq)
    requires RequestsNumbered(w) && MidsMatch(w)
    ensures RequestsNumbered(p) && MidsMatch(p)
  {
    assert forall v | v in w.users :: p.users[v].sent == w.users[v].sent;
    assert Numbered(w.users[u]);
  }

  lemma CreatingRoom(w: World, u: UserId, roomId: RoomId, worker: Opening)
    requires Invariant(w) && Names(w, u, roomId)
    ensures var p := GetOrCreateRoom(w, roomId, worker);
            && Keeps(w, p, u, []) && Names(p, u, roomId) && p.users == w.users && p.connected == w.connected
            && RoomUsers(p, roomId) == RoomUsers(w, roomId)
            && (roomId in p.rooms <==> roomId in w.rooms || worker.Opened?)
  {
    var p := GetOrCreateRoom(w, roomId, worker);
    hide Invariant, Keeps;
    if p != w {
      if worker.Opened? {
        CreatedKeeps(w, u, roomId, worker.workerId, p);
      } else {
        UnansweredKeeps(w, p);
      }
    }
    QuietlyKeeps(w, p, u);
  }

  lemma UnansweredKeeps(w: World, p: World)
    requires p == w.(opens := w.opens.(asked := w.opens.asked + {w.nextId}), nextId := w.nextId + 1)
    requires Invariant(w)
    ensures Invariant(p)
  {
    var q := w.(nextId := w.nextId + 1);
    SamePlacesKeep(w, q);
    assert forall r :: Live(p, r) <==> Live(q, r);
    assert forall v :: Writable(p, v) <==> Writable(q, v);
    assert forall v, roomId :: Names(p, v, roomId) <==> Names(q, v, roomId);
    hide RoomInvariant, EntersFirst, Numbered, Distinct;
    forall roomId | roomId in p.rooms ensures Named(p, roomId) {
      assert Named(q, roomId);
      var u :| Names(q, u, roomId);
      assert Names(p, u, roomId);
    }
  }

  lemma CreatedKeeps(w: World, u: UserId, roomId: RoomId, worker: string, p: World)
    requires Names(w, u, roomId) && Created(w, roomId, worker, p) && Invariant(w)
    ensures Invariant(p)
  {
    CreatedPlaces(w, u, roomId, worker, p);
    CreatedRouters(w, roomId, worker, p);
    CreatedRooms(w, roomId, worker, p);
    hide ChannelsMatch, MembersConnected, RoomsNamed, RoutersAccounted, RoomsValid, RequestsNumbered, MidsMatch;
  }

  /** Nothing was sent, and no room changed that was there before. */
  lemma QuietlyKeeps(w: World, p: World, u: UserId)
    requires p.users.Keys == w.users.Keys && p.connected == w.connected && p.panicked == w.panicked
    requires forall v | v in w.users :: p.users[v].roomId == w.users[v].roomId && p.users[v].sent == w.users[v].sent
    requires forall r | r in w.rooms :: r in p.rooms && p.rooms[r] == w.rooms[r]
    requires Invariant(p)
    ensures Keeps(w, p, u, [])
  {
    hide Invariant, ResponseIds, Follows;
    SameRoomsFollow(w, p);
    forall v | v in w.users ensures ResponseIds(w.users[v].sent) + [] == ResponseIds(w.users[v].sent) {
    }
  }

  ghost predicate Created(w: World, roomId: RoomId, worker: string, p: World) {
    && roomId !in w.rooms
    && p == w.(rooms := w.rooms[roomId := Room(w.nextId, EmptyRoom(worker))],
               opens := Opens(w.opens.asked + {w.nextId}, w.opens.acknowledged + {w.nextId}), nextId := w.nextId + 1)
  }

  lemma CreatedPlaces(w: World, u: UserId, roomId: RoomId, worker: string, p: World)
    requires Invariant(w) && Names(w, u, roomId) && Created(w, roomId, worker, p)
    ensures ChannelsMatch(p) && MembersConnected(p) && RoomsNamed(p) && MidsMatch(p) && RequestsNumbered(p)
  {
    hide RoutersAccounted, RoomsValid, Numbered;
    assert forall v :: Writable(p, v) <==> Writable(w, v);
    assert forall v, other :: Names(p, v, other) <==> Names(w, v, other);
    forall other | other in p.rooms ensures Named(p, other) {
      if other == roomId {
        assert Names(p, u, roomId);
      } else {
        assert Named(w, other);
        var x :| Names(w, x, other);
        assert Names(p, x, other);
      }
    }
  }

  lemma CreatedRouters(w: World, roomId: RoomId, worker: string, p: World)
    requires RoutersAccounted(w) && Created(w, roomId, worker, p)
    ensures RoutersAccounted(p)
  {
    forall r ensures Live(p, r) <==> Live(w, r) || r == w.nextId {
      if Live(w, r) {
        var x :| x in w.rooms && w.rooms[x].routerId == r;
        assert x in p.rooms && p.rooms[x].routerId == r;
      }
      assert p.rooms[roomId].routerId == w.nextId;
    }
    assert forall a | a in w.rooms :: Live(w, w.rooms[a].routerId);
  }

  lemma CreatedRooms(w: World, roomId: RoomId, worker: string, p: World)
    requires RoomsValid(w) && Created(w, roomId, worker, p)
    ensures RoomsValid(p)
  {
    hide RoomInvariant, EntersFirst;
    forall other | other in p.rooms ensures RoomInvariant(p.rooms[other].state, p.nextId) {
      if other == roomId {
        EmptyRoomHolds(worker, p.nextId);
      } else {
        LargerBound(w.rooms[other].state, w.nextId, p.nextId);
      }
    }
    assert EntersFirst(EmptyRoom(worker).history) by {
      assert |EmptyRoom(worker).history| == 0;
      NothingEnteredTwice();
    }
  }

  lemma NothingEnteredTwice()
    ensures EntersFirst([])
  {
  }
}
