/** Membership, offers and data consumers over whole runs. */
module RunLaws {
  import opened Basics
  import opened Decimal
  import opened History
  import opened Messages
  import opened Routing
  import opened RoomModel
  import opened Subscriptions
  import opened Offers
  import opened Conference
  import opened Invariants
  import opened Reachable
  import opened Handlers
  import opened Deliveries
  import opened Runs

  // Who is in which room.

  /** Connecting puts the user in its room, if that is there or can be opened, and touches no other room. */
  lemma RegisterMembers(w: World, u: UserId, roomId: RoomId, peer: Peer, firstReqId: int, worker: Opening)
    ensures var p := RegisterStep(w, u, roomId, peer, firstReqId, worker);
            && (roomId in p.rooms <==> roomId in w.rooms || worker.Opened?)
            && (roomId in p.rooms ==> p.rooms[roomId].state.users == RoomUsers(w, roomId) + {u})
            && (forall r | r != roomId :: (r in p.rooms <==> r in w.rooms) && (r in w.rooms ==> p.rooms[r] == w.rooms[r]))
  {
  }

  lemma UnregisterMembers(w: World, u: UserId, worker: Opening, order: seq<UserId>)
    requires u in w.users
    ensures var p := UnregisterStep(w, u, worker, order);
            forall r :: RoomUsers(p, r) ==
                        if u in w.connected && r == w.users[u].roomId then RoomUsers(w, r) - {u} else RoomUsers(w, r)
  {
    if u in w.connected {
      UnregisterRooms(w, u, worker, order);
      hide UnregisterStep;
    }
  }

  ghost predicate SameMembers(w: World, p: World) {
    forall r :: RoomUsers(p, r) == RoomUsers(w, r)
  }

  lemma UpdateMembers(w: World, roomId: RoomId, rm: RoomState, nextId: nat, sends: seq<Send>)
    requires roomId in w.rooms && rm.users == w.rooms[roomId].state.users
    ensures SameMembers(w, Update(w, roomId, rm, nextId, sends))
  {
  }

  /** No request moves anybody in or out of a room. */
  lemma HandleMembers(w: World, u: UserId, request: ClientRequest, worker: Opening)
    requires u in w.users
    ensures SameMembers(w, HandleStep(w, u, request, worker))
  {
    var roomId := w.users[u].roomId;
    Lookup(w, roomId, worker);
    var q := GetOrCreateRoom(w, roomId, worker);
    hide GetOrCreateRoom, Update, Broadcast, OtherPeers, ProduceEffect, ConnectTransport;
    if roomId in q.rooms {
      var rm := q.rooms[roomId].state;
      match request {
        case CreateTransport(_, Some(direction), Some(reply)) =>
          UpdateMembers(q, roomId, ConnectTransport(rm, u, direction, reply), q.nextId, []) by {
            assert ConnectTransport(rm, u, direction, reply).users == rm.users by { ConnectUsers(rm, u, direction, reply); }
          }
        case Produce(_, Some(produce), others, owners) =>
          var e := ProduceEffect(rm.router, q.nextId, PeersOf(q), u, produce, others, owners);
          UpdateMembers(q, roomId, ProduceIn(rm, q.nextId, PeersOf(q), u, produce, others, owners), e.nextId, e.sends);
        case CloseProducer(Some(p), order) =>
          UpdateMembers(q, roomId, CloseIn(rm, u, p), q.nextId, CloseSends(rm, u, p, order));
        case _ =>
      }
    }
  }

  lemma ConnectUsers(rm: RoomState, u: UserId, direction: Direction, id: string)
    ensures ConnectTransport(rm, u, direction, id).users == rm.users
  {
  }

  /** u stays in its room, or out of it, until it disconnects. */
  lemma MembershipStep(w: World, e: ServerEvent, v: UserId)
    requires Enabled(w, e) && !Panics(w, e) && v in w.users && v in Step(w, e).connected && Invariant(w)
    ensures var p := Step(w, e);
            && v in p.users && p.users[v].roomId == w.users[v].roomId && v in w.connected
            && (v in RoomUsers(p, w.users[v].roomId) <==> v in RoomUsers(w, w.users[v].roomId))
  {
    hide RegisterStep, UnregisterStep, HandleStep, ProducesBroken, Follows, RoomUsers;
    StepFollows(w, e, v);
    match e {
      case Register(u, roomId, peer, firstReqId, worker) =>
        RegisterConnects(w, u, roomId, peer, firstReqId, worker, v);
      case Unregister(u, worker, order) =>
        UnregisterConnects(w, u, worker, order);
        UnregisterMembers(w, u, worker, order);
      case Handle(u, request, worker) =>
        hide Invariant;
        HandleMembers(w, u, request, worker);
        HandleKeeps(w, u, request, worker);
    }
  }

  lemma RegisterConnects(w: World, u: UserId, roomId: RoomId, peer: Peer, firstReqId: int, worker: Opening, v: UserId)
    requires u !in w.users && v in w.users
    ensures var p := RegisterStep(w, u, roomId, peer, firstReqId, worker);
            && p.connected == w.connected + {u}
            && forall r :: v in RoomUsers(p, r) <==> v in RoomUsers(w, r)
  {
    RegisterMembers(w, u, roomId, peer, firstReqId, worker);
  }

  lemma UnregisterConnects(w: World, u: UserId, worker: Opening, order: seq<UserId>)
    requires u in w.users
    ensures UnregisterStep(w, u, worker, order).connected == w.connected - {u}
  {
  }

  lemma {:induction false} StaysMember(w: World, es: seq<ServerEvent>, v: UserId)
    requires Legal(w, es) && Unbroken(w, es) && v in w.users && v in After(w, es).connected && Invariant(w)
    ensures var p := After(w, es);
            && v in p.users && p.users[v].roomId == w.users[v].roomId && v in w.connected
            && (v in RoomUsers(p, w.users[v].roomId) <==> v in RoomUsers(w, w.users[v].roomId))
    decreases |es|
  {
    hide Invariant, Panics, Enabled, Step, RoomUsers;
    if es != [] {
      EnabledUser(w, es[0]);
      StepKeeps(w, es[0]);
      StaysMember(Step(w, es[0]), es[1..], v);
      MembershipStep(w, es[0], v);
    }
  }

  /** A connected user is a member of its room exactly if its own connecting found or opened that room. */
  lemma RunMembership(w: World, es: seq<ServerEvent>, u: UserId, roomId: RoomId, peer: Peer, firstReqId: int, worker: Opening,
                      fs: seq<ServerEvent>, p: World)
    requires Reached(w, es) && Enabled(w, ServerEvent.Register(u, roomId, peer, firstReqId, worker))
    requires var q := RegisterStep(w, u, roomId, peer, firstReqId, worker); Legal(q, fs) && p == After(q, fs)
    requires !p.panicked && u in p.connected
    ensures u in p.users && p.users[u].roomId == roomId
    ensures u in RoomUsers(p, roomId) <==> roomId in w.rooms || worker.Opened?
  {
    var e := ServerEvent.Register(u, roomId, peer, firstReqId, worker);
    var q := RegisterStep(w, u, roomId, peer, firstReqId, worker);
    assert Step(w, e) == q;
    ReachedThen(w, es, e);
    RegisterMembers(w, u, roomId, peer, firstReqId, worker);
    RegisterTells(w, u, roomId, peer, firstReqId, worker, u);
    hide RegisterStep, Reached, Invariant, Legal, After, Enabled;
    RunKeeps(q, fs);
    StaysMember(q, fs, u);
  }

  // What each step of a run offers.

  /** The requests among the messages that offer a consumer, in order. */
  function OffersIn(ms: seq<WsMessage>): seq<WsMessage> {
    if ms == [] then []
    else
      var last := ms[|ms| - 1];
      OffersIn(ms[..|ms| - 1]) + if last.Request? && last.body.NewConsumer? then [last] else []
  }

  /** How many of the messages ask for a data consumer. */
  function DataAsks(ms: seq<WsMessage>): nat {
    if ms == [] then 0
    else
      var last := ms[|ms| - 1];
      DataAsks(ms[..|ms| - 1]) + if last.Request? && last.body.NewDataConsumer? then 1 else 0
  }

  lemma {:induction false} MessagesConcat(a: seq<WsMessage>, b: seq<WsMessage>)
    ensures OffersIn(a + b) == OffersIn(a) + OffersIn(b)
    ensures DataAsks(a + b) == DataAsks(a) + DataAsks(b)
  {
    if b == [] {
      assert a + b == a;
    } else {
      MessagesConcat(a, b[..|b| - 1]);
      assert (a + b)[..|a + b| - 1] == a + b[..|b| - 1];
    }
  }

  lemma OneMessage(m: WsMessage)
    ensures OffersIn([]) == [] && DataAsks([]) == 0
    ensures OffersIn([m]) == if m.Request? && m.body.NewConsumer? then [m] else []
    ensures DataAsks([m]) == if m.Request? && m.body.NewDataConsumer? then 1 else 0
  {
    assert [m][..0] == [];
  }

  lemma {:induction false} AllOffers(ms: seq<WsMessage>)
    requires forall j | 0 <= j < |ms| :: ms[j].Request? && ms[j].body.NewConsumer?
    ensures OffersIn(ms) == ms && DataAsks(ms) == 0
  {
    if ms != [] {
      AllOffers(ms[..|ms| - 1]);
    }
  }

  /** One offer for each consumer that the list gained, in order. */
  ghost predicate OffersFit(offers: seq<WsMessage>, cs: seq<Consumer>, ds: seq<Consumer>, r: RouterState, peers: map<UserId, Peer>) {
    && |ds| == |cs| + |offers|
    && (offers != [] ==> cs <= ds && forall j | 0 <= j < |offers| :: Offered(offers[j], ds[|cs| + j], |cs| + j + 1, r, peers))
  }

  /**
    Of the news to v, the offers are, one by one, the consumers its list in its room gained,
    and it is asked for a data consumer exactly when its flag goes up.
  */
  ghost predicate NewsFits(w: World, p: World, v: UserId, news: seq<WsMessage>) {
    && v in w.users && v in p.users
    && Sent(w, p, v, news)
    && DataAsks(news) + (if w.users[v].newDataConsumerReq then 1 else 0) == (if p.users[v].newDataConsumerReq then 1 else 0)
    && var roomId := w.users[v].roomId;
       if roomId in p.rooms
       then OffersFit(OffersIn(news), ConsumersOf(RouterOf(w, roomId), v), ConsumersOf(RouterOf(p, roomId), v),
                      RouterOf(p, roomId), PeersOf(w))
       else OffersIn(news) == []
  }

  /** The lists are as long as they were, as far as the rooms are still there. */
  ghost predicate SameLengths(w: World, p: World, v: UserId) {
    forall r | r in p.rooms :: |ConsumersOf(RouterOf(p, r), v)| == |ConsumersOf(RouterOf(w, r), v)|
  }

  ghost predicate SameFlag(w: World, p: World, v: UserId) {
    v in w.users && v in p.users && p.users[v].newDataConsumerReq == w.users[v].newDataConsumerReq
  }

  /** News with no request in it fits where no list grew. */
  lemma QuietNews(w: World, p: World, v: UserId, m: seq<WsMessage>)
    requires |m| <= 1 && (m == [] || !m[0].Request?)
    requires Sent(w, p, v, m) && SameLengths(w, p, v) && SameFlag(w, p, v)
    ensures NewsFits(w, p, v, m)
  {
    if m != [] {
      OneMessage(m[0]);
      assert m == [m[0]];
    } else {
      OneMessage(Notification(Nothing));
    }
  }

  lemma PostFlag(w: World, sends: seq<Send>, v: UserId)
    requires v in w.users
    ensures SameFlag(w, Post(w, sends), v)
  {
    PostSent(w, sends, v);
  }

  lemma UpdateLists(w: World, roomId: RoomId, rm: RoomState, nextId: nat, sends: seq<Send>, v: UserId)
    requires roomId in w.rooms && v in w.users
    requires |ConsumersOf(rm.router, v)| == |ConsumersOf(w.rooms[roomId].state.router, v)|
    ensures SameLengths(w, Update(w, roomId, rm, nextId, sends), v) && SameFlag(w, Update(w, roomId, rm, nextId, sends), v)
  {
    PostFlag(WithRoom(w, roomId, rm, nextId), sends, v);
  }

  lemma RespondLists(w: World, u: UserId, id: int, ok: bool, body: Payload, v: UserId)
    requires v in w.users
    ensures SameLengths(w, Respond(w, u, id, ok, body), v) && SameFlag(w, Respond(w, u, id, ok, body), v)
  {
    PostFlag(w, [Send(u, Answer(id, ok, body))], v);
  }

  lemma LookupLists(w: World, roomId: RoomId, worker: Opening, v: UserId)
    requires v in w.users
    ensures SameLengths(w, GetOrCreateRoom(w, roomId, worker), v) && SameFlag(w, GetOrCreateRoom(w, roomId, worker), v)
  {
    Lookup(w, roomId, worker);
    hide GetOrCreateRoom;
    forall r ensures ConsumersOf(RouterOf(GetOrCreateRoom(w, roomId, worker), r), v) == ConsumersOf(RouterOf(w, r), v) {
    }
  }

  lemma SameThen(w: World, p: World, q: World, v: UserId)
    requires SameLengths(w, p, v) && SameLengths(p, q, v) && SameFlag(w, p, v) && SameFlag(p, q, v)
    requires q.rooms.Keys <= p.rooms.Keys
    ensures SameLengths(w, q, v) && SameFlag(w, q, v)
  {
  }

  ghost predicate HasNews(w: World, p: World, v: UserId) {
    exists news :: NewsFits(w, p, v, news)
  }

  lemma RegisterNews(w: World, u: UserId, roomId: RoomId, peer: Peer, firstReqId: int, worker: Opening, v: UserId)
    requires v in w.users && v != u
    ensures HasNews(w, RegisterStep(w, u, roomId, peer, firstReqId, worker), v)
  {
    var p := RegisterStep(w, u, roomId, peer, firstReqId, worker);
    RegisterTells(w, u, roomId, peer, firstReqId, worker, v);
    RegisterMembers(w, u, roomId, peer, firstReqId, worker);
    RegisterLists(w, u, roomId, peer, firstReqId, worker);
    RegisterEmpty(w, u, roomId, peer, firstReqId, worker);
    hide RegisterStep;
    forall r | r in p.rooms ensures ConsumersOf(RouterOf(p, r), v) == ConsumersOf(RouterOf(w, r), v) {
    }
    QuietNews(w, p, v, []);
  }

  lemma RegisterEmpty(w: World, u: UserId, roomId: RoomId, peer: Peer, firstReqId: int, worker: Opening)
    ensures var p := RegisterStep(w, u, roomId, peer, firstReqId, worker);
            roomId !in w.rooms && roomId in p.rooms ==> p.rooms[roomId].state.router.consumers == map[]
  {
  }

  lemma UnregisterNews(w: World, u: UserId, worker: Opening, order: seq<UserId>, v: UserId)
    requires Enabled(w, Unregister(u, worker, order)) && v in w.users
    ensures HasNews(w, UnregisterStep(w, u, worker, order), v)
  {
    var p := UnregisterStep(w, u, worker, order);
    LeaveTells(w, u, worker, order, v);
    UnregisterFlag(w, u, worker, order, v);
    if u in w.connected {
      UnregisterRooms(w, u, worker, order);
    }
    hide UnregisterStep, Enabled;
    assert SameLengths(w, p, v);
    QuietNews(w, p, v, if u in w.connected && v != u && v in RoomUsers(w, w.users[u].roomId)
                       then [Notification(PeerClosed(w.users[u].peer.peerId))] else []);
  }

  lemma UnregisterFlag(w: World, u: UserId, worker: Opening, order: seq<UserId>, v: UserId)
    requires u in w.users && v in w.users
    ensures SameFlag(w, UnregisterStep(w, u, worker, order), v)
  {
    if u in w.connected {
      var user := w.users[u];
      var q := GetOrCreateRoom(w.(users := w.users[u := user.(open := false)], connected := w.connected - {u},
                                  panicked := w.panicked || !user.open), user.roomId, worker);
      hide Broadcast;
      if user.roomId in q.rooms {
        PostFlag(WithRoom(q, user.roomId, Leave(q.rooms[user.roomId].state, u), q.nextId),
                 Broadcast(order, u, PeerClosed(user.peer.peerId)), v);
      }
    }
  }

  /** Requests that lengthen no list and raise no flag. */
  lemma PlainLists(w: World, u: UserId, request: ClientRequest, worker: Opening, v: UserId)
    requires u in w.users && v in w.users && !request.Produce? && !request.ConnectClientTransport?
    requires request.Join? ==> HasRoom(w, u, worker)
    ensures var p := HandleStep(w, u, request, worker);
            SameLengths(w, p, v) && SameFlag(w, p, v)
  {
    if request.GetCapabilities? {
      RespondLists(w, u, request.id, true, Capabilities, v);
    } else if !request.UnknownMethod? {
      var roomId := w.users[u].roomId;
      Lookup(w, roomId, worker);
      LookupLists(w, roomId, worker, v);
      var q := GetOrCreateRoom(w, roomId, worker);
      PlainListsAt(q, u, request, v);
      var p := HandleStep(w, u, request, worker);
      hide GetOrCreateRoom, HandleStep;
      AfterRoom(w, u, request, worker);
      SameThen(w, q, p, v);
    }
  }

  /** The handler proper: where the room has been looked up, looking it up again changes nothing. */
  function Handled(q: World, u: UserId, request: ClientRequest): World
    requires u in q.users
  {
    HandleStep(q, u, request, NoWorker)
  }

  lemma AfterRoom(w: World, u: UserId, request: ClientRequest, worker: Opening)
    requires u in w.users && !request.GetCapabilities? && !request.UnknownMethod?
    ensures var q := GetOrCreateRoom(w, w.users[u].roomId, worker);
            && q.users == w.users
            && HandleStep(w, u, request, worker) == Handled(q, u, request)
            && Handled(q, u, request).rooms.Keys == q.rooms.Keys
  {
    hide Post, Broadcast, OtherPeers, ProduceEffect, ConnectTransport, CloseIn, CloseSends;
    var q := GetOrCreateRoom(w, w.users[u].roomId, worker);
    HandledRooms(q, u, request);
  }

  lemma HandledRooms(q: World, u: UserId, request: ClientRequest)
    requires u in q.users
    ensures Handled(q, u, request).rooms.Keys == q.rooms.Keys
  {
    hide Broadcast, OtherPeers, ProduceEffect, ConnectTransport, CloseIn, CloseSends;
  }

  lemma PlainListsAt(q: World, u: UserId, request: ClientRequest, v: UserId)
    requires u in q.users && v in q.users && !request.Produce? && !request.ConnectClientTransport?
    requires request.Join? ==> q.users[u].roomId in q.rooms
    ensures SameLengths(q, Handled(q, u, request), v) && SameFlag(q, Handled(q, u, request), v)
  {
    hide SameLengths, SameFlag, Respond, Update, Broadcast, OtherPeers, CloseIn, CloseSends, ConnectTransport, Post;
    var roomId := q.users[u].roomId;
    match request {
      case CreateTransport(id, decoded, reply) =>
        if roomId in q.rooms && decoded.Some? && reply.Some? && decoded.value != Unknown {
          TransportLists(q, u, roomId, decoded.value, reply.value, id, v);
        } else {
          RespondLists(q, u, id, false, Nothing, v);
        }
      case Join(id, decoded, told, listed) =>
        JoinLists(q, u, id, decoded, told, listed, v);
      case ProduceData(id, decodes) =>
        DataLists(q, u, id, decodes, v);
      case CloseProducer(decoded, order) =>
        if roomId in q.rooms && decoded.Some? {
          var rm := q.rooms[roomId].state;
          CloseSameLengths(rm, u, decoded.value);
          UpdateLists(q, roomId, CloseIn(rm, u, decoded.value), q.nextId, CloseSends(rm, u, decoded.value, order), v);
        } else {
          SelfSame(q, v);
        }
      case GetCapabilities(id) =>
        RespondLists(q, u, id, true, Capabilities, v);
      case UnknownMethod =>
        SelfSame(q, v);
    }
  }

  lemma SelfSame(q: World, v: UserId)
    requires v in q.users
    ensures SameLengths(q, q, v) && SameFlag(q, q, v)
  {
  }

  lemma TransportLists(q: World, u: UserId, roomId: RoomId, direction: Direction, transportId: string, id: int, v: UserId)
    requires roomId in q.rooms && v in q.users
    ensures var rm := ConnectTransport(q.rooms[roomId].state, u, direction, transportId);
            var p := Respond(Update(q, roomId, rm, q.nextId, []), u, id, true, TransportCreated(transportId));
            SameLengths(q, p, v) && SameFlag(q, p, v)
  {
    var rm := ConnectTransport(q.rooms[roomId].state, u, direction, transportId);
    var posted := Update(q, roomId, rm, q.nextId, []);
    UpdateLists(q, roomId, rm, q.nextId, [], v);
    RespondLists(posted, u, id, true, TransportCreated(transportId), v);
    SameThen(q, posted, Respond(posted, u, id, true, TransportCreated(transportId)), v);
  }

  lemma JoinLists(q: World, u: UserId, id: int, decoded: Option<(string, string)>, told: seq<UserId>, listed: seq<UserId>, v: UserId)
    requires u in q.users && v in q.users && q.users[u].roomId in q.rooms
    ensures SameLengths(q, JoinStep(q, u, id, decoded, told, listed), v) && SameFlag(q, JoinStep(q, u, id, decoded, told, listed), v)
  {
    JoinIs(q, u, id, decoded, told, listed);
    var me := Renamed(q.users[u], decoded);
    var after := Announced(q, u, decoded, told);
    PostFlag(q.(users := q.users[u := me]), Broadcast(told, u, NewPeer(me.peer)), v);
    hide JoinStep, Broadcast, OtherPeers;
    RespondLists(after, u, id, true, Peers(OtherPeers(PeersOf(after), u, listed)), v);
  }

  lemma DataLists(q: World, u: UserId, id: int, decodes: bool, v: UserId)
    requires u in q.users && v in q.users
    ensures SameLengths(q, ProduceDataStep(q, u, id, decodes), v) && SameFlag(q, ProduceDataStep(q, u, id, decodes), v)
  {
    if q.users[u].roomId in q.rooms && decodes {
      RespondLists(q.(nextId := q.nextId + 1), u, id, true, DataProducerCreated(q.nextId), v);
    } else {
      RespondLists(q, u, id, false, Nothing, v);
    }
  }

  lemma PlainNews(w: World, u: UserId, request: ClientRequest, worker: Opening, v: UserId)
    requires Enabled(w, Handle(u, request, worker)) && v in w.users && Invariant(w)
    requires !request.Produce? && !request.ConnectClientTransport? && (request.Join? ==> HasRoom(w, u, worker))
    ensures HasNews(w, HandleStep(w, u, request, worker), v)
  {
    PlainLists(w, u, request, worker, v);
    PlainSent(w, u, request, worker, v);
    hide Enabled, Invariant, HandleStep, NewsFits, SameLengths, SameFlag, Sent;
    var p := HandleStep(w, u, request, worker);
    var m: seq<WsMessage> :| |m| <= 1 && (m == [] || !m[0].Request?) && Sent(w, p, v, m);
    QuietNews(w, p, v, m);
  }

  /** At most one message, and no request. */
  lemma PlainSent(w: World, u: UserId, request: ClientRequest, worker: Opening, v: UserId)
    requires Enabled(w, Handle(u, request, worker)) && v in w.users && Invariant(w)
    requires !request.Produce? && !request.ConnectClientTransport? && (request.Join? ==> HasRoom(w, u, worker))
    ensures exists m: seq<WsMessage> :: |m| <= 1 && (m == [] || !m[0].Request?) && Sent(w, HandleStep(w, u, request, worker), v, m)
  {
    hide Invariant, HandleStep, RoomUsers, RouterOf, ClosedConsumers, Lists;
    match request {
      case GetCapabilities(id) => OtherRequestsTell(w, u, id, worker, v);
      case UnknownMethod =>
        OtherRequestsTell(w, u, 0, worker, v);
        assert Sent(w, w, v, []);
      case CreateTransport(id, decoded, reply) => CreateTransportTells(w, u, id, decoded, reply, worker, v);
      case Join(id, decoded, told, listed) => JoinTells(w, u, id, decoded, told, listed, worker, v);
      case ProduceData(id, decodes) => ProduceDataTells(w, u, id, decodes, worker, v);
      case CloseProducer(decoded, order) => CloseTells(w, u, decoded, order, worker, v);
    }
  }

  lemma ConnectNews(w: World, u: UserId, id: int, decoded: Option<string>, accepted: bool, worker: Opening, v: UserId)
    requires u in w.users && v in w.users
    ensures HasNews(w, HandleStep(w, u, ConnectClientTransport(id, decoded, accepted), worker), v)
  {
    var p := HandleStep(w, u, ConnectClientTransport(id, decoded, accepted), worker);
    var ok := HasRoom(w, u, worker) && decoded.Some? && accepted;
    var answer := Response(id, ok, if ok then Acknowledged else Nothing);
    ConnectTells(w, u, id, decoded, accepted, worker, v);
    ConnectLists(w, u, id, decoded, accepted, worker, v);
    hide HandleStep, SameLengths;
    if v != u {
      QuietNews(w, p, v, []);
    } else if !AsksForData(w, u, decoded, worker) {
      QuietNews(w, p, v, [answer]);
    } else {
      hide ConsumerTransport;
      var own := ConsumerTransport(RouterOf(w, w.users[u].roomId), u);
      var a: nat, b: nat :| Sent(w, p, u, [Request(w.users[u].reqId, NewDataConsumer(own, a, b)), answer]);
      DataNews(w, p, u, w.users[u].reqId, NewDataConsumer(own, a, b), answer);
    }
  }

  lemma DataNews(w: World, p: World, u: UserId, n: int, ask: Payload, answer: WsMessage)
    requires u in w.users && u in p.users && ask.NewDataConsumer? && answer.Response?
    requires Sent(w, p, u, [Request(n, ask), answer]) && SameLengths(w, p, u)
    requires !w.users[u].newDataConsumerReq && p.users[u].newDataConsumerReq
    ensures HasNews(w, p, u)
  {
    var news := [Request(n, ask), answer];
    assert news == [Request(n, ask)] + [answer];
    MessagesConcat([Request(n, ask)], [answer]);
    OneMessage(Request(n, ask));
    OneMessage(answer);
    assert NewsFits(w, p, u, news);
  }

  lemma ConnectLists(w: World, u: UserId, id: int, decoded: Option<string>, accepted: bool, worker: Opening, v: UserId)
    requires u in w.users && v in w.users
    ensures SameLengths(w, HandleStep(w, u, ConnectClientTransport(id, decoded, accepted), worker), v)
  {
    var roomId := w.users[u].roomId;
    LookupLists(w, roomId, worker, v);
    AfterRoom(w, u, ConnectClientTransport(id, decoded, accepted), worker);
    hide GetOrCreateRoom, HandleStep, Post, Respond;
    var q := GetOrCreateRoom(w, roomId, worker);
    ConnectRooms(q, u, id, decoded, accepted);
    hide ConnectStep;
  }

  lemma ConnectRooms(q: World, u: UserId, id: int, decoded: Option<string>, accepted: bool)
    requires u in q.users
    ensures ConnectStep(q, u, id, decoded, accepted).rooms == q.rooms
  {
  }

  lemma ProduceNews(w: World, u: UserId, id: int, decoded: Option<ProduceRequest>, others: seq<UserId>, owners: seq<UserId>,
                    worker: Opening, v: UserId)
    requires Enabled(w, Handle(u, Produce(id, decoded, others, owners), worker)) && v in w.users && Invariant(w)
    ensures HasNews(w, HandleStep(w, u, Produce(id, decoded, others, owners), worker), v)
  {
    var roomId := w.users[u].roomId;
    var request := Produce(id, decoded, others, owners);
    ProduceTells(w, u, id, decoded, others, owners, worker, v);
    ProduceElsewhere(w, u, id, decoded, others, owners, worker, v);
    ProduceFlag(w, u, id, decoded, others, owners, worker, v);
    hide Enabled, Invariant, HandleStep, OfferedAndThen, PeersOf, ConsumersOf, HasNews, SameFlag;
    var p := HandleStep(w, u, request, worker);
    var body := if HasRoom(w, u, worker) && decoded.Some? then ProducerCreated(NextIdIn(w, u, worker)) else Nothing;
    var answer := if v == u then [Response(id, true, body)] else [];
    OfferedNews(w, p, roomId, v, answer);
  }

  lemma OfferedNews(w: World, p: World, roomId: RoomId, v: UserId, answer: seq<WsMessage>)
    requires OfferedAndThen(w, p, roomId, v, answer) && SameFlag(w, p, v)
    requires |answer| <= 1 && (answer == [] || answer[0].Response?)
    requires w.users[v].roomId == roomId && roomId !in p.rooms ==>
               ConsumersOf(RouterOf(p, roomId), v) == ConsumersOf(RouterOf(w, roomId), v)
    requires w.users[v].roomId != roomId ==>
               && ConsumersOf(RouterOf(p, roomId), v) == ConsumersOf(RouterOf(w, roomId), v)
               && ConsumersOf(RouterOf(p, w.users[v].roomId), v) == ConsumersOf(RouterOf(w, w.users[v].roomId), v)
    ensures HasNews(w, p, v)
  {
    hide OffersGained, PeersOf, ConsumersOf, RouterOf;
    var cs, ds := ConsumersOf(RouterOf(w, roomId), v), ConsumersOf(RouterOf(p, roomId), v);
    var offers :| OffersGained(offers, w.users[v].reqId, cs, ds, RouterOf(p, roomId), PeersOf(w)) && Sent(w, p, v, offers + answer);
    GainedNews(offers, answer, w.users[v].reqId, cs, ds, RouterOf(p, roomId), PeersOf(w));
    assert NewsFits(w, p, v, offers + answer);
  }

  lemma GainedNews(offers: seq<WsMessage>, answer: seq<WsMessage>, n: int, cs: seq<Consumer>, ds: seq<Consumer>, r: RouterState,
                   peers: map<UserId, Peer>)
    requires OffersGained(offers, n, cs, ds, r, peers)
    requires |answer| <= 1 && (answer == [] || answer[0].Response?)
    ensures OffersFit(OffersIn(offers + answer), cs, ds, r, peers) && OffersIn(offers + answer) == offers
    ensures DataAsks(offers + answer) == 0
  {
    hide Itoa, ProducedBy;
    AllOffers(offers);
    MessagesConcat(offers, answer);
    if answer != [] {
      assert answer == [answer[0]];
      OneMessage(answer[0]);
    } else {
      OneMessage(Notification(Nothing));
    }
  }

  /** Who is neither in the room nor producing there gains nothing, and other rooms are not touched. */
  lemma ProduceElsewhere(w: World, u: UserId, id: int, decoded: Option<ProduceRequest>, others: seq<UserId>, owners: seq<UserId>,
                         worker: Opening, v: UserId)
    requires Enabled(w, Handle(u, Produce(id, decoded, others, owners), worker)) && v in w.users && Invariant(w)
    ensures var roomId := w.users[u].roomId;
            var p := HandleStep(w, u, Produce(id, decoded, others, owners), worker);
            && (w.users[v].roomId == roomId && roomId !in p.rooms ==>
                  ConsumersOf(RouterOf(p, roomId), v) == ConsumersOf(RouterOf(w, roomId), v))
            && (w.users[v].roomId != roomId ==>
                  && ConsumersOf(RouterOf(p, roomId), v) == ConsumersOf(RouterOf(w, roomId), v)
                  && ConsumersOf(RouterOf(p, w.users[v].roomId), v) == ConsumersOf(RouterOf(w, w.users[v].roomId), v))
  {
    hide Invariant, GetOrCreateRoom, ProduceStep, Keeps, RoomUsers, ConsumersOf;
    var roomId := w.users[u].roomId;
    Lookup(w, roomId, worker);
    UserNames(w, u);
    CreatingRoom(w, u, roomId, worker);
    MembersKnown(w, roomId);
    AfterRoom(w, u, Produce(id, decoded, others, owners), worker);
    var q := GetOrCreateRoom(w, roomId, worker);
    KeepsInvariant(w, q, u);
    SameListsEverywhere(w, q, v);
    hide HandleStep;
    if w.users[v].roomId != roomId {
      StrangerGains(q, u, id, decoded, others, owners, v);
    }
  }

  lemma SameListsEverywhere(w: World, q: World, v: UserId)
    requires forall r :: RouterOf(q, r).consumers == RouterOf(w, r).consumers
    ensures forall r :: ConsumersOf(RouterOf(q, r), v) == ConsumersOf(RouterOf(w, r), v)
  {
  }

  lemma StrangerGains(q: World, u: UserId, id: int, decoded: Option<ProduceRequest>, others: seq<UserId>, owners: seq<UserId>, v: UserId)
    requires u in q.users && v in q.users && q.users[v].roomId != q.users[u].roomId
    requires q.users[u].roomId in q.rooms ==>
               Enumerates(others, RoomUsers(q, q.users[u].roomId)) && v !in RoomUsers(q, q.users[u].roomId)
    requires Invariant(q)
    ensures var p := ProduceStep(q, u, id, decoded, others, owners);
            forall r :: ConsumersOf(RouterOf(p, r), v) == ConsumersOf(RouterOf(q, r), v)
  {
    var roomId := q.users[u].roomId;
    if roomId in q.rooms && decoded.Some? {
      assert RoomInvariant(q.rooms[roomId].state, q.nextId);
      hide Invariant, RoomInvariant, ProduceEffect, Post;
      ProduceGrows(q.rooms[roomId].state, q.nextId, PeersOf(q), u, decoded.value, others, owners);
    }
  }

  lemma ProduceFlag(w: World, u: UserId, id: int, decoded: Option<ProduceRequest>, others: seq<UserId>, owners: seq<UserId>,
                    worker: Opening, v: UserId)
    requires u in w.users && v in w.users
    ensures SameFlag(w, HandleStep(w, u, Produce(id, decoded, others, owners), worker), v)
  {
    var q := GetOrCreateRoom(w, w.users[u].roomId, worker);
    hide ProduceEffect, ProduceIn, Respond;
    if w.users[u].roomId in q.rooms && decoded.Some? {
      var rm := q.rooms[w.users[u].roomId].state;
      var e := ProduceEffect(rm.router, q.nextId, PeersOf(q), u, decoded.value, others, owners);
      var rm' := ProduceIn(rm, q.nextId, PeersOf(q), u, decoded.value, others, owners);
      var posted := Update(q, w.users[u].roomId, rm', e.nextId, e.sends);
      PostFlag(WithRoom(q, w.users[u].roomId, rm', e.nextId), e.sends, v);
      RespondLists(posted, u, id, true, ProducerCreated(q.nextId), v);
    } else {
      RespondLists(q, u, id, true, Nothing, v);
    }
  }

  lemma StepNews(w: World, e: ServerEvent, v: UserId)
    requires Enabled(w, e) && !Panics(w, e) && v in w.users && Invariant(w)
    ensures HasNews(w, Step(w, e), v)
  {
    hide Invariant, RegisterStep, UnregisterStep, HandleStep, ProducesBroken, HasNews, RoomUsers, RouterOf, ClosedConsumers;
    match e {
      case Register(u, roomId, peer, firstReqId, worker) =>
        RegisterNews(w, u, roomId, peer, firstReqId, worker, v);
      case Unregister(u, worker, order) =>
        UnregisterNews(w, u, worker, order, v);
      case Handle(u, request, worker) =>
        match request {
          case Produce(id, decoded, others, owners) => ProduceNews(w, u, id, decoded, others, owners, worker, v);
          case ConnectClientTransport(id, decoded, accepted) => ConnectNews(w, u, id, decoded, accepted, worker, v);
          case _ => PlainNews(w, u, request, worker, v);
        }
    }
  }

  /**
    In every step of every run, the offers a user is sent are, one by one and in order, the
    consumers that its list in its room gains in that step: their ids, kinds, transports and
    mids, and the peer id of whoever produces.
  */
  lemma RunOffers(w: World, es: seq<ServerEvent>, e: ServerEvent, v: UserId)
    requires Reached(w, es) && Enabled(w, e) && !Panics(w, e) && v in w.users
    ensures var p, roomId := Step(w, e), w.users[v].roomId;
            v in p.users && w.users[v].sent <= p.users[v].sent &&
            var offers := OffersIn(p.users[v].sent[|w.users[v].sent|..]);
            if roomId in p.rooms
            then OffersFit(offers, ConsumersOf(RouterOf(w, roomId), v), ConsumersOf(RouterOf(p, roomId), v), RouterOf(p, roomId), PeersOf(w))
            else offers == []
  {
    ReachedInvariant(w, es);
    StepNews(w, e, v);
    hide Step, Enabled, Panics, Reached, OffersFit, ConsumersOf;
    var p := Step(w, e);
    var news :| NewsFits(w, p, v, news);
    assert p.users[v].sent[|w.users[v].sent|..] == news;
  }

  /** A user has been asked for a data consumer as often as its flag says. */
  ghost predicate DataAsked(w: World) {
    forall u | u in w.users :: DataAsks(w.users[u].sent) == if w.users[u].newDataConsumerReq then 1 else 0
  }

  lemma StepDataAsked(w: World, e: ServerEvent)
    requires Enabled(w, e) && !Panics(w, e) && DataAsked(w) && Invariant(w)
    ensures DataAsked(Step(w, e))
  {
    var p := Step(w, e);
    forall u | u in p.users ensures DataAsks(p.users[u].sent) == if p.users[u].newDataConsumerReq then 1 else 0 {
      if u in w.users {
        StepNews(w, e, u);
        hide Step, Enabled, Panics, Invariant, OffersFit;
        var news :| NewsFits(w, p, u, news);
        MessagesConcat(w.users[u].sent, news);
      } else {
        NewUser(w, e, u);
      }
    }
  }

  /** Who is new has just connected, and has been sent nothing. */
  lemma NewUser(w: World, e: ServerEvent, u: UserId)
    requires Enabled(w, e) && !Panics(w, e) && u in Step(w, e).users && u !in w.users && Invariant(w)
    ensures Step(w, e).users[u].sent == [] && !Step(w, e).users[u].newDataConsumerReq
  {
    hide Invariant, RegisterStep, UnregisterStep, HandleStep, ProducesBroken, RoomUsers, RouterOf, ClosedConsumers;
    match e {
      case Register(v, roomId, peer, firstReqId, worker) =>
        RegisterKeeps(w, v, roomId, peer, firstReqId, worker);
      case Unregister(v, worker, order) =>
        UnregisterKeeps(w, v, worker, order);
      case Handle(v, request, worker) =>
        HandleKeeps(w, v, request, worker);
    }
  }

  lemma {:induction false} RunDataAsked(w: World, es: seq<ServerEvent>)
    requires Legal(w, es) && Unbroken(w, es) && DataAsked(w) && Invariant(w)
    ensures DataAsked(After(w, es))
    decreases |es|
  {
    hide Invariant, Panics, Enabled, Step, DataAsked;
    if es != [] {
      EnabledUser(w, es[0]);
      StepKeeps(w, es[0]);
      StepDataAsked(w, es[0]);
      RunDataAsked(Step(w, es[0]), es[1..]);
    }
  }

  /** In no run is a user asked for a data consumer twice. */
  lemma AskedAtMostOnce(w: World, es: seq<ServerEvent>, u: UserId)
    requires Reached(w, es) && u in w.users
    ensures DataAsks(w.users[u].sent) == if w.users[u].newDataConsumerReq then 1 else 0
  {
    StartKeeps();
    RunKeeps(START, es);
    RunDataAsked(START, es);
  }
}
