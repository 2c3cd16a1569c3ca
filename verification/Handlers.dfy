/** The handlers of user.go, one lemma each, and the whole handling step. */
module Handlers {
  import opened Basics
  import opened History
  import opened Messages
  import opened Routing
  import opened RoomModel
  import opened Subscriptions
  import opened Malformed
  import opened Conference
  import opened Invariants
  import opened Reachable

  lemma UpdateThenKeeps(w: World, u: UserId, roomId: RoomId, rm: RoomState, nextId: nat, sends: seq<Send>)
    requires Invariant(w) && Names(w, u, roomId) && roomId in w.rooms
    requires RoomChange(w, u, w.rooms[roomId].state, rm, nextId, sends)
    requires forall v :: AnswerIds(v, sends) == []
    ensures Keeps(w, Update(w, roomId, rm, nextId, sends), u, [])
  {
    hide RoomChange, Invariant;
    UpdateKeeps(w, u, roomId, rm, nextId, sends);
  }

  lemma SameListsGrow(r: RouterState, s: RouterState, sends: seq<Send>)
    requires forall v :: |ConsumersOf(s, v)| == |ConsumersOf(r, v)| && OfferedMids(v, sends) == []
    ensures forall v :: ListGrows(r, s, v, sends)
  {
    forall v ensures ListGrows(r, s, v, sends) {
      assert MidsBetween(|ConsumersOf(r, v)|, |ConsumersOf(r, v)|) == [];
    }
  }

  lemma TransportChange(w: World, u: UserId, roomId: RoomId, direction: Direction, transport: string)
    requires Invariant(w) && Names(w, u, roomId) && roomId in w.rooms
    ensures var was := w.rooms[roomId].state;
            RoomChange(w, u, was, ConnectTransport(was, u, direction, transport), w.nextId, [])
  {
    var was := w.rooms[roomId].state;
    var rm := ConnectTransport(was, u, direction, transport);
    ConnectKeeps(was, w.nextId, u, direction, transport);
    hide RoomInvariant;
    assert forall v :: ConsumersOf(rm.router, v) == ConsumersOf(was.router, v);
    SameListsGrow(was.router, rm.router, []);
  }

  lemma CreateTransportKeeps(w: World, u: UserId, roomId: RoomId, id: int, decoded: Option<Direction>, reply: Option<string>)
    requires Invariant(w) && Names(w, u, roomId)
    ensures Keeps(w, CreateTransportStep(w, u, id, decoded, reply), u, [id])
  {
    hide Invariant, Keeps, Respond, Update, RoomChange, ConnectTransport;
    if roomId in w.rooms && decoded.Some? && reply.Some? && decoded.value != Unknown {
      var rm := ConnectTransport(w.rooms[roomId].state, u, decoded.value, reply.value);
      TransportChange(w, u, roomId, decoded.value, reply.value);
      UpdateThenKeeps(w, u, roomId, rm, w.nextId, []);
      ThenAnswer(w, Update(w, roomId, rm, w.nextId, []), u, id, true, TransportCreated(reply.value));
    } else {
      Answering(w, u, id, false, Nothing);
    }
  }

  lemma ConnectStepKeeps(w: World, u: UserId, roomId: RoomId, id: int, decoded: Option<string>, accepted: bool)
    requires Invariant(w) && Names(w, u, roomId)
    ensures Keeps(w, ConnectStep(w, u, id, decoded, accepted), u, [id])
  {
    hide Invariant, Keeps, Respond, Post;
    var user := w.users[u];
    if roomId in w.rooms && decoded.Some? {
      var own := ConsumerTransport(w.rooms[roomId].state.router, u);
      var body := if accepted then Acknowledged else Nothing;
      if user.newDataConsumerReq || own == decoded.value {
        Answering(w, u, id, accepted, body);
      } else {
        var flagged := user.(newDataConsumerReq := true);
        var asked := w.(users := w.users[u := flagged], nextId := w.nextId + 2);
        var sends := [Send(u, Ask(NewDataConsumer(own, w.nextId, w.nextId + 1)))];
        UserChange(w, u, flagged, w.nextId + 2);
        ThenPost(w, asked, u, sends);
        ThenAnswer(w, Post(asked, sends), u, id, accepted, body);
      }
    } else {
      Answering(w, u, id, false, Nothing);
    }
  }

  lemma ReachesMembers(w: World, u: UserId, roomId: RoomId, sends: seq<Send>)
    requires Invariant(w) && Names(w, u, roomId) && roomId in w.rooms
    requires forall s | s in sends :: s.to == u || s.to in w.rooms[roomId].state.users
    ensures AllWritable(w, sends)
  {
    assert forall s | s in sends :: Names(w, s.to, roomId);
  }

  lemma JoinKeeps(w: World, u: UserId, roomId: RoomId, id: int, decoded: Option<(string, string)>,
                  told: seq<UserId>, listed: seq<UserId>)
    requires Invariant(w) && Names(w, u, roomId) && roomId in w.rooms
    requires Enumerates(told, w.rooms[roomId].state.users)
    ensures Keeps(w, JoinStep(w, u, id, decoded, told, listed), u, [id])
  {
    var user := w.users[u];
    var me := if decoded.None? then user
              else user.(peer := user.peer.(displayName := decoded.value.0, device := decoded.value.1));
    var sends := Broadcast(told, u, NewPeer(me.peer));
    BroadcastSends(told, u, NewPeer(me.peer));
    ReachesMembers(w, u, roomId, sends);
    hide Invariant, Keeps, Respond, Post, Broadcast, AllWritable, Enumerates;
    UserChange(w, u, me, w.nextId);
    var named := w.(users := w.users[u := me]);
    assert named == w.(users := w.users[u := me], nextId := w.nextId);
    ThenPost(w, named, u, sends);
    ThenAnswer(w, Post(named, sends), u, id, true, Peers(OtherPeers(PeersOf(Post(named, sends)), u, listed)));
  }

  lemma ProduceDataKeeps(w: World, u: UserId, roomId: RoomId, id: int, decodes: bool)
    requires Invariant(w) && Names(w, u, roomId)
    ensures Keeps(w, ProduceDataStep(w, u, id, decodes), u, [id])
  {
    hide Invariant, Keeps, Respond;
    if roomId in w.rooms && decodes {
      UserChange(w, u, w.users[u], w.nextId + 1);
      assert w.users[u := w.users[u]] == w.users;
      ThenAnswer(w, w.(nextId := w.nextId + 1), u, id, true, DataProducerCreated(w.nextId));
    } else {
      Answering(w, u, id, false, Nothing);
    }
  }

  /** Producing reaches the members and the producer, and lengthens only their lists. */
  lemma ProduceChange(w: World, u: UserId, roomId: RoomId, request: ProduceRequest,
                      others: seq<UserId>, owners: seq<UserId>)
    requires Invariant(w) && Names(w, u, roomId) && roomId in w.rooms
    requires var users := w.rooms[roomId].state.users; Enumerates(others, users) && Enumerates(owners, users)
    ensures var was := w.rooms[roomId].state;
            var e := ProduceEffect(was.router, w.nextId, PeersOf(w), u, request, others, owners);
            var rm := ProduceIn(was, w.nextId, PeersOf(w), u, request, others, owners);
            && RoomChange(w, u, was, rm, e.nextId, e.sends)
            && forall v :: AnswerIds(v, e.sends) == []
  {
    var was, n, peers := w.rooms[roomId].state, w.nextId, PeersOf(w);
    var e := ProduceEffect(was.router, n, peers, u, request, others, owners);
    ProduceKeeps(was, n, peers, u, request, others, owners);
    ProduceFrame(was, n, peers, u, request, others, owners);
    ProduceGrows(was, n, peers, u, request, others, owners);
    ProduceTargets(was.router, n, peers, u, request, others, owners);
    ReachesMembers(w, u, roomId, e.sends);
    hide ProduceEffect, RoomInvariant, ListGrows, Invariant, AllWritable;
    forall v ensures AnswerIds(v, e.sends) == [] {
      NoAnswers(v, e.sends);
    }
  }

  lemma ProduceTargets(r: RouterState, n: nat, peers: map<UserId, Peer>, u: UserId, request: ProduceRequest, others: seq<UserId>, owners: seq<UserId>)
    ensures AsksOnly(ProduceEffect(r, n, peers, u, request, others, owners).sends, u, others)
  {
    var p := NewProducer(n, request);
    var a := Effect(WithProducer(r, u, p), n + 1, [], request.shape.nullEncoding && r.workerId != "");
    OfferSends(a, u, p, PeerIdOf(peers, u), others, others);
    PullSends(OfferToOthers(a, u, p, PeerIdOf(peers, u), others), u, p.kind, peers, owners, others);
  }

  lemma ProduceGrows(rm: RoomState, n: nat, peers: map<UserId, Peer>, u: UserId, request: ProduceRequest, others: seq<UserId>, owners: seq<UserId>)
    requires RoomInvariant(rm, n) && Enumerates(others, rm.users)
    ensures var e := ProduceEffect(rm.router, n, peers, u, request, others, owners);
            && (forall v :: ListGrows(rm.router, e.router, v, e.sends))
            && (forall v | v !in rm.users && v != u :: ConsumersOf(e.router, v) == ConsumersOf(rm.router, v))
  {
    UnusedId(rm, n);
    var e := ProduceEffect(rm.router, n, peers, u, request, others, owners);
    forall v
      ensures ListGrows(rm.router, e.router, v, e.sends)
      ensures v !in rm.users && v != u ==> ConsumersOf(e.router, v) == ConsumersOf(rm.router, v)
    {
      ProduceLists(rm.router, n, peers, u, request, others, owners, v);
      hide ProduceEffect;
      assert ConsumersOf(WithProducer(rm.router, u, NewProducer(n, request)), v) == ConsumersOf(rm.router, v);
    }
  }

  /** The request is carried out, and meets media parameters that it cannot work with. */
  ghost predicate ProduceBreaks(w: World, roomId: RoomId, u: UserId, decoded: Option<ProduceRequest>) {
    roomId in w.rooms && decoded.Some? && ProducePanics(w.rooms[roomId].state, u, decoded.value)
  }

  lemma PanicsInRoom(w: World, roomId: RoomId, u: UserId, request: ProduceRequest, others: seq<UserId>, owners: seq<UserId>)
    requires Invariant(w) && roomId in w.rooms
    requires Enumerates(others, w.rooms[roomId].state.users) && Enumerates(owners, w.rooms[roomId].state.users)
    ensures var rm := w.rooms[roomId].state;
            ProduceEffect(rm.router, w.nextId, PeersOf(w), u, request, others, owners).panicked <==>
            ProducePanics(rm, u, request)
  {
    ProducePanicsExactly(w.rooms[roomId].state, w.nextId, PeersOf(w), u, request, others, owners);
  }

  lemma ProduceStepKeeps(w: World, u: UserId, roomId: RoomId, id: int, decoded: Option<ProduceRequest>,
                         others: seq<UserId>, owners: seq<UserId>)
    requires Invariant(w) && Names(w, u, roomId)
    requires Enumerates(others, RoomUsers(w, roomId)) && Enumerates(owners, RoomUsers(w, roomId))
    ensures ProduceBreaks(w, roomId, u, decoded) ==> ProduceStep(w, u, id, decoded, others, owners).panicked
    ensures !ProduceBreaks(w, roomId, u, decoded) ==> Keeps(w, ProduceStep(w, u, id, decoded, others, owners), u, [id])
  {
    hide Invariant, Keeps, Respond, Update, RoomChange, ProduceEffect, ProduceIn, ProducePanics, Enumerates;
    if roomId in w.rooms && decoded.Some? {
      var was, request := w.rooms[roomId].state, decoded.value;
      ProduceChange(w, u, roomId, request, others, owners);
      var e := ProduceEffect(was.router, w.nextId, PeersOf(w), u, request, others, owners);
      var rm := ProduceIn(was, w.nextId, PeersOf(w), u, request, others, owners);
      UpdateThenKeeps(w, u, roomId, rm, e.nextId, e.sends);
      ThenAnswer(w, Update(w, roomId, rm, e.nextId, e.sends), u, id, true, ProducerCreated(w.nextId));
      PanicsInRoom(w, roomId, u, request, others, owners);
    } else {
      Answering(w, u, id, true, Nothing);
    }
  }

  lemma CloseChange(w: World, u: UserId, roomId: RoomId, p: nat, order: seq<UserId>)
    requires Invariant(w) && Names(w, u, roomId) && roomId in w.rooms
    ensures var was := w.rooms[roomId].state;
            var sends := CloseSends(was, u, p, order);
            && RoomChange(w, u, was, CloseIn(was, u, p), w.nextId, sends)
            && forall v :: AnswerIds(v, sends) == []
  {
    hide Invariant, RoomInvariant, AllWritable, CloseIn, CloseSends, ListGrows, ConsumersOf, Names;
    var was := w.rooms[roomId].state;
    var rm, sends := CloseIn(was, u, p), CloseSends(was, u, p, order);
    CloseKeepsRoom(w, roomId, u, p);
    NoticesReach(was, u, p, order);
    MembersOnly(w, u, roomId, sends);
    TellsOnly(sends);
    CloseSameLengths(was, u, p);
    SameListsGrow(was.router, rm.router, sends);
  }

  lemma CloseKeepsRoom(w: World, roomId: RoomId, u: UserId, p: nat)
    requires Invariant(w) && roomId in w.rooms
    ensures var was := w.rooms[roomId].state;
            var rm := CloseIn(was, u, p);
            && RoomInvariant(rm, w.nextId) && rm.users == was.users
            && (rm.history == was.history || rm.history == was.history + [Closed(u, p)])
  {
    CloseKeeps(w.rooms[roomId].state, w.nextId, u, p);
    hide RoomInvariant;
  }

  lemma NoticesReach(was: RoomState, u: UserId, p: nat, order: seq<UserId>)
    ensures forall s | s in CloseSends(was, u, p, order) :: s.to in was.users && s.what.Tell?
  {
    NoticeSends(was.users, ClosedConsumers(was.router, u, p), order);
  }

  lemma MembersOnly(w: World, u: UserId, roomId: RoomId, sends: seq<Send>)
    requires Names(w, u, roomId) && roomId in w.rooms
    requires forall s | s in sends :: s.to in w.rooms[roomId].state.users
    requires Invariant(w)
    ensures AllWritable(w, sends)
  {
    ReachesMembers(w, u, roomId, sends);
  }

  lemma CloseSameLengths(was: RoomState, u: UserId, p: nat)
    ensures forall v :: |ConsumersOf(CloseIn(was, u, p).router, v)| == |ConsumersOf(was.router, v)|
  {
    hide ShiftedList, WithoutConsumers;
    forall v ensures |ConsumersOf(CloseIn(was, u, p).router, v)| == |ConsumersOf(was.router, v)| {
      ClosingLists(WithoutProducer(was.router, u, p), u, p, v);
    }
  }

  lemma CloseStepKeeps(w: World, u: UserId, roomId: RoomId, decoded: Option<nat>, order: seq<UserId>)
    requires Invariant(w) && Names(w, u, roomId)
    ensures Keeps(w, CloseStep(w, u, decoded, order), u, [])
  {
    hide Invariant, Keeps, Update, RoomChange, CloseIn, CloseSends;
    if roomId in w.rooms && decoded.Some? {
      var was := w.rooms[roomId].state;
      CloseChange(w, u, roomId, decoded.value, order);
      UpdateThenKeeps(w, u, roomId, CloseIn(was, u, decoded.value), w.nextId, CloseSends(was, u, decoded.value, order));
    } else {
      Unchanged(w, u);
    }
  }

  /** A join panics when its room cannot be had. */
  predicate JoinsNoRoom(w: World, u: UserId, request: ClientRequest, worker: Opening) {
    u in w.users && request.Join? && w.users[u].roomId !in w.rooms && !worker.Opened?
  }

  /** A produce panics when, in the room as it is found, it meets parameters it cannot work with. */
  ghost predicate ProducesBroken(w: World, u: UserId, request: ClientRequest, worker: Opening) {
    && u in w.users && request.Produce?
    && ProduceBreaks(GetOrCreateRoom(w, w.users[u].roomId, worker), w.users[u].roomId, u, request.decodedProduce)
  }

  /** After the room was looked up or created: the handler proper. */
  ghost predicate Answers(v: World, p: World, u: UserId, request: ClientRequest) {
    Keeps(v, p, u, if request.CloseProducer? || request.UnknownMethod? then [] else [request.id])
  }

  lemma TransportRequests(w: World, v: World, u: UserId, roomId: RoomId, request: ClientRequest, worker: Opening)
    requires u in w.users && roomId == w.users[u].roomId && v == GetOrCreateRoom(w, roomId, worker)
    requires request.CreateTransport? || request.ConnectClientTransport? || request.ProduceData?
    requires Names(v, u, roomId) && Invariant(v)
    ensures Answers(v, HandleStep(w, u, request, worker), u, request)
  {
    hide Invariant, Keeps, CreateTransportStep, ConnectStep, ProduceDataStep, Names, GetOrCreateRoom;
    match request {
      case CreateTransport(id, decoded, reply) => CreateTransportKeeps(v, u, roomId, id, decoded, reply);
      case ConnectClientTransport(id, decoded, accepted) => ConnectStepKeeps(v, u, roomId, id, decoded, accepted);
      case ProduceData(id, decodes) => ProduceDataKeeps(v, u, roomId, id, decodes);
    }
  }

  lemma RoomRequests(w: World, v: World, u: UserId, roomId: RoomId, request: ClientRequest, worker: Opening)
    requires u in w.users && roomId == w.users[u].roomId && v == GetOrCreateRoom(w, roomId, worker)
    requires request.Join? ==> roomId in v.rooms && Enumerates(request.told, RoomUsers(v, roomId))
    requires request.Produce? ==> Enumerates(request.others, RoomUsers(v, roomId))
                                  && Enumerates(request.owners, RoomUsers(v, roomId))
    requires request.Join? || request.Produce? || request.CloseProducer?
    requires Names(v, u, roomId) && Invariant(v)
    ensures if request.Produce? && ProduceBreaks(v, roomId, u, request.decodedProduce)
            then HandleStep(w, u, request, worker).panicked
            else Answers(v, HandleStep(w, u, request, worker), u, request)
  {
    hide Invariant, Keeps, JoinStep, ProduceStep, CloseStep, Names, Enumerates, GetOrCreateRoom, ProduceBreaks;
    match request {
      case Join(id, decoded, told, listed) => JoinKeeps(v, u, roomId, id, decoded, told, listed);
      case Produce(id, decoded, others, owners) => ProduceStepKeeps(v, u, roomId, id, decoded, others, owners);
      case CloseProducer(decoded, order) => CloseStepKeeps(v, u, roomId, decoded, order);
    }
  }

  lemma HandleKeeps(w: World, u: UserId, request: ClientRequest, worker: Opening)
    requires Invariant(w) && Enabled(w, Handle(u, request, worker))
    requires !JoinsNoRoom(w, u, request, worker)
    ensures ProducesBroken(w, u, request, worker) ==> HandleStep(w, u, request, worker).panicked
    ensures !ProducesBroken(w, u, request, worker) ==>
              Keeps(w, HandleStep(w, u, request, worker), u, Answered(Handle(u, request, worker), u))
  {
    hide Invariant, Enumerates, ClosedConsumers, ProduceBreaks;
    if request.UnknownMethod? {
      Unchanged(w, u);
    } else if request.GetCapabilities? {
      Answering(w, u, request.id, true, Capabilities);
    } else {
      var v := GetOrCreateRoom(w, w.users[u].roomId, worker);
      CreatingRoom(w, u, w.users[u].roomId, worker);
      if request.Join? || request.Produce? || request.CloseProducer? {
        RoomRequests(w, v, u, w.users[u].roomId, request, worker);
      } else {
        TransportRequests(w, v, u, w.users[u].roomId, request, worker);
      }
      if !ProducesBroken(w, u, request, worker) {
        var answers := Answered(Handle(u, request, worker), u);
        KeepsThen(w, v, HandleStep(w, u, request, worker), u, [], answers);
        assert [] + answers == answers;
      }
    }
  }

  lemma Unchanged(w: World, u: UserId)
    requires Invariant(w)
    ensures Keeps(w, w, u, [])
  {
  }

  lemma RespondLast(w: World, u: UserId, id: int, ok: bool, body: Payload)
    requires u in w.users
    ensures u in Respond(w, u, id, ok, body).users
    ensures var sent := Respond(w, u, id, ok, body).users[u].sent;
            sent != [] && sent[|sent| - 1] == Response(id, ok, body)
  {
    var sends := [Send(u, Answer(id, ok, body))];
    assert sends[..0] == [];
  }

  /** A produce is answered with ok in any case, and with a producer's id exactly if there is a room and the request decodes. */
  lemma ProduceAnswer(w: World, u: UserId, id: int, decoded: Option<ProduceRequest>,
                      others: seq<UserId>, owners: seq<UserId>, worker: Opening)
    requires u in w.users
    ensures var p := HandleStep(w, u, Produce(id, decoded, others, owners), worker);
            var produced := decoded.Some? && (w.users[u].roomId in w.rooms || worker.Opened?);
            var producerId := GetOrCreateRoom(w, w.users[u].roomId, worker).nextId;
            && u in p.users && p.users[u].sent != []
            && p.users[u].sent[|p.users[u].sent| - 1] ==
               Response(id, true, if produced then ProducerCreated(producerId) else Nothing)
  {
    hide Respond, ProduceEffect, ProduceIn;
    var v := GetOrCreateRoom(w, w.users[u].roomId, worker);
    assert w.users[u].roomId in v.rooms <==> w.users[u].roomId in w.rooms || worker.Opened?;
    if w.users[u].roomId in v.rooms && decoded.Some? {
      var rm := v.rooms[w.users[u].roomId].state;
      var e := ProduceEffect(rm.router, v.nextId, PeersOf(v), u, decoded.value, others, owners);
      var rm' := ProduceIn(rm, v.nextId, PeersOf(v), u, decoded.value, others, owners);
      RespondLast(Update(v, w.users[u].roomId, rm', e.nextId, e.sends), u, id, true, ProducerCreated(v.nextId));
    } else {
      RespondLast(v, u, id, true, Nothing);
      assert HandleStep(w, u, Produce(id, decoded, others, owners), worker) == Respond(v, u, id, true, Nothing);
    }
  }

  // Connecting and disconnecting.

  lemma RegisteredPlaces(w: World, u: UserId, user: UserState)
    requires Invariant(w) && u !in w.users && user.open && user.sent == [] && user.reqId == user.firstReqId
    ensures var p := w.(users := w.users[u := user], connected := w.connected + {u});
            Invariant(p) && Names(p, u, user.roomId)
  {
    hide RoomInvariant, Distinct;
    var p := w.(users := w.users[u := user], connected := w.connected + {u});
    assert u !in w.connected by {
      assert u in w.connected <==> Writable(w, u);
    }
    assert forall v :: Writable(p, v) <==> Writable(w, v) || v == u;
    assert forall v, x :: Names(w, v, x) ==> Names(p, v, x);
    forall x | x in p.rooms ensures Named(p, x) {
      assert Named(w, x);
      var v :| Names(w, v, x);
      assert Names(p, v, x);
    }
    assert forall x :: Live(p, x) <==> Live(w, x);
    assert forall x, v | x in w.rooms && v in w.rooms[x].state.users :: Names(w, v, x);
    assert Numbered(user);
  }

  lemma {:induction false} EmptyPost(w: World)
    ensures Post(w, []) == w
  {
    assert forall v | v in w.users :: w.users[v].PutAll(v, []) == w.users[v];
  }

  /** The new member's first event in the room is entering it; it consumes nothing yet. */
  lemma EnteredRoom(w: World, u: UserId, roomId: RoomId)
    requires Invariant(w) && Names(w, u, roomId) && roomId in w.rooms
    requires u !in w.rooms[roomId].state.users && w.users[u].sent == []
    requires forall i | 0 <= i < |w.rooms[roomId].state.history| :: w.rooms[roomId].state.history[i].user != u
    ensures Invariant(WithRoom(w, roomId, Enter(w.rooms[roomId].state, u), w.nextId))
  {
    EnteredMids(w, u, roomId);
    EnteredRooms(w, u, roomId);
    EnteredPlaces(w, u, roomId);
    hide ChannelsMatch, MembersConnected, RoomsNamed, RoutersAccounted, RoomsValid, RequestsNumbered, MidsMatch;
    assert RequestsNumbered(WithRoom(w, roomId, Enter(w.rooms[roomId].state, u), w.nextId)) by {
      SameUsersNumbered(w, WithRoom(w, roomId, Enter(w.rooms[roomId].state, u), w.nextId));
    }
  }

  lemma SameUsersNumbered(w: World, p: World)
    requires RequestsNumbered(w) && p.users == w.users
    ensures RequestsNumbered(p)
  {
  }

  lemma EnteredRooms(w: World, u: UserId, roomId: RoomId)
    requires RoomsValid(w) && Names(w, u, roomId) && roomId in w.rooms
    requires forall i | 0 <= i < |w.rooms[roomId].state.history| :: w.rooms[roomId].state.history[i].user != u
    ensures RoomsValid(WithRoom(w, roomId, Enter(w.rooms[roomId].state, u), w.nextId))
  {
    EnterKeeps(w.rooms[roomId].state, w.nextId, u);
    hide RoomInvariant;
    var p := WithRoom(w, roomId, Enter(w.rooms[roomId].state, u), w.nextId);
    forall x | x in p.rooms ensures EntersFirst(p.rooms[x].state.history) && KnownUsers(p, p.rooms[x].state.history) {
    }
  }

  lemma EnteredPlaces(w: World, u: UserId, roomId: RoomId)
    requires Invariant(w) && Names(w, u, roomId) && roomId in w.rooms
    ensures var p := WithRoom(w, roomId, Enter(w.rooms[roomId].state, u), w.nextId);
            ChannelsMatch(p) && MembersConnected(p) && RoomsNamed(p) && RoutersAccounted(p)
  {
    hide RoomsValid, RequestsNumbered, MidsMatch, Distinct;
    var p := WithRoom(w, roomId, Enter(w.rooms[roomId].state, u), w.nextId);
    assert forall v :: Writable(p, v) <==> Writable(w, v);
    assert forall v, x :: Names(p, v, x) <==> Names(w, v, x);
    forall x | x in p.rooms ensures Named(p, x) {
      assert Named(w, x);
      var v :| Names(w, v, x);
      assert Names(p, v, x);
    }
    LiveAfterUpdate(w, p, roomId);
  }

  lemma EnteredMids(w: World, u: UserId, roomId: RoomId)
    requires Invariant(w) && Names(w, u, roomId) && roomId in w.rooms
    requires u !in w.rooms[roomId].state.users && w.users[u].sent == []
    requires forall i | 0 <= i < |w.rooms[roomId].state.history| :: w.rooms[roomId].state.history[i].user != u
    ensures MidsMatch(WithRoom(w, roomId, Enter(w.rooms[roomId].state, u), w.nextId))
  {
    var was := w.rooms[roomId].state;
    if ConsumersOf(was.router, u) != [] {
      ConsumersActed(was, w.nextId, u);
    }
    assert MidsBetween(0, 0) == [];
  }

  lemma RegisterKeeps(w: World, u: UserId, roomId: RoomId, peer: Peer, firstReqId: int, worker: Opening)
    requires Invariant(w) && Enabled(w, Register(u, roomId, peer, firstReqId, worker))
    ensures var p := RegisterStep(w, u, roomId, peer, firstReqId, worker);
            && Invariant(p) && !p.panicked
            && p.users == w.users[u := UserState(roomId, peer, firstReqId, firstReqId, false, true, [])]
  {
    var user := UserState(roomId, peer, firstReqId, firstReqId, false, true, []);
    var added := w.(users := w.users[u := user], connected := w.connected + {u});
    var v := GetOrCreateRoom(added, roomId, worker);
    RegisteredPlaces(w, u, user);
    CreatingRoom(added, u, roomId, worker);
    if roomId in v.rooms {
      var was := v.rooms[roomId].state;
      StrangerHere(w, u, roomId, was, v);
      EnteredRoom(v, u, roomId);
      EmptyPost(WithRoom(v, roomId, Enter(was, u), v.nextId));
    }
  }

  lemma StrangerHere(w: World, u: UserId, roomId: RoomId, rm: RoomState, v: World)
    requires Invariant(w) && u !in w.users
    requires roomId in w.rooms ==> rm == w.rooms[roomId].state
    requires roomId !in w.rooms ==> exists worker :: rm == EmptyRoom(worker)
    ensures u !in rm.users && forall i | 0 <= i < |rm.history| :: rm.history[i].user != u
  {
    hide RoomInvariant;
    assert u !in w.connected by {
      assert u in w.connected <==> Writable(w, u);
    }
    assert roomId in w.rooms && u in rm.users ==> Names(w, u, roomId);
  }

  /** What disconnecting leaves of the rooms: u's room without u, or no such room at all. */
  ghost predicate RoomsWithout(w: World, u: UserId, roomId: RoomId, p: World) {
    && (forall x | x != roomId :: (x in p.rooms <==> x in w.rooms) && (x in w.rooms ==> p.rooms[x] == w.rooms[x]))
    && (roomId in p.rooms <==> roomId in w.rooms && w.rooms[roomId].state.users - {u} != {})
    && (roomId in p.rooms ==>
          p.rooms[roomId] == w.rooms[roomId].(state := Leave(w.rooms[roomId].state, u)))
  }

  /**
    A close request goes to the room's router in the step that removes the room, or to the
    router of a room that was opened in this very step; never otherwise.
  */
  ghost predicate ClosesOnRemoval(w: World, roomId: RoomId, p: World) {
    || (&& roomId in w.rooms && roomId !in p.rooms && p.opens == w.opens && p.nextId == w.nextId
        && p.closeRequests == w.closeRequests + [w.rooms[roomId].routerId])
    || (&& (roomId in w.rooms <==> roomId in p.rooms) && p.opens == w.opens && p.nextId == w.nextId
        && p.closeRequests == w.closeRequests)
    || (&& roomId !in w.rooms && roomId !in p.rooms && p.nextId == w.nextId + 1
        && p.opens.asked == w.opens.asked + {w.nextId}
        && ((p.opens.acknowledged == w.opens.acknowledged + {w.nextId} && p.closeRequests == w.closeRequests + [w.nextId])
            || (p.opens.acknowledged == w.opens.acknowledged && p.closeRequests == w.closeRequests)))
  }

  lemma UnregisterRooms(w: World, u: UserId, worker: Opening, order: seq<UserId>)
    requires u in w.users && u in w.connected
    ensures var p := UnregisterStep(w, u, worker, order);
            RoomsWithout(w, u, w.users[u].roomId, p) && ClosesOnRemoval(w, w.users[u].roomId, p)
  {
    hide Broadcast;
  }

  ghost predicate UsersWithout(w: World, u: UserId, p: World) {
    && !p.panicked && p.connected == w.connected - {u} && p.users.Keys == w.users.Keys
    && RequestsNumbered(p)
    && forall v | v in w.users ::
         && p.users[v].roomId == w.users[v].roomId
         && p.users[v].open == (w.users[v].open && v != u)
         && ResponseIds(p.users[v].sent) == ResponseIds(w.users[v].sent)
         && WireMids(p.users[v].sent) == WireMids(w.users[v].sent)
  }

  lemma PostAfterLeaving(w: World, u: UserId, p: World, order: seq<UserId>, body: Payload)
    requires ChannelsMatch(w) && RequestsNumbered(w) && !w.panicked && u in w.users
    requires p.users == w.users[u := w.users[u].(open := false)] && p.connected == w.connected - {u}
    requires !p.panicked && forall x | x in order :: x in p.connected
    ensures UsersWithout(w, u, Post(p, Broadcast(order, u, body)))
  {
    hide Numbered, Broadcast, ChannelsMatch, AllWritable, Post, ResponseIds, WireMids;
    ClosedNumbered(w, u, p);
    ClosedChannels(w, u, p);
    BroadcastReaches(p, u, order, body);
    PostQuietly(p, Broadcast(order, u, body));
  }

  /** Notifications add to no log. */
  lemma PostQuietly(p: World, sends: seq<Send>)
    requires ChannelsMatch(p) && RequestsNumbered(p) && AllWritable(p, sends)
    requires forall x :: OfferedMids(x, sends) == [] && AnswerIds(x, sends) == []
    ensures var q := Post(p, sends);
            && q.panicked == p.panicked && q.users.Keys == p.users.Keys && q.connected == p.connected
            && RequestsNumbered(q)
            && forall v | v in p.users ::
                 && q.users[v].roomId == p.users[v].roomId && q.users[v].open == p.users[v].open
                 && ResponseIds(q.users[v].sent) == ResponseIds(p.users[v].sent)
                 && WireMids(q.users[v].sent) == WireMids(p.users[v].sent)
  {
    hide Numbered, ChannelsMatch, AllWritable, Post;
    PostFrame(p, sends);
  }

  lemma BroadcastReaches(p: World, u: UserId, order: seq<UserId>, body: Payload)
    requires forall x | x in order :: x in p.connected
    ensures AllWritable(p, Broadcast(order, u, body))
    ensures forall x ::
              OfferedMids(x, Broadcast(order, u, body)) == [] && AnswerIds(x, Broadcast(order, u, body)) == []
  {
    BroadcastSends(order, u, body);
    TellsOnly(Broadcast(order, u, body));
  }

  lemma TellsOnly(sends: seq<Send>)
    requires forall s | s in sends :: s.what.Tell?
    ensures forall x :: OfferedMids(x, sends) == [] && AnswerIds(x, sends) == []
  {
    forall x ensures OfferedMids(x, sends) == [] && AnswerIds(x, sends) == [] {
      NoOffers(x, sends);
      NoAnswers(x, sends);
    }
  }

  lemma ClosedChannels(w: World, u: UserId, p: World)
    requires ChannelsMatch(w) && u in w.users
    requires p.users == w.users[u := w.users[u].(open := false)] && p.connected == w.connected - {u}
    ensures ChannelsMatch(p)
  {
    assert forall v :: Writable(p, v) <==> Writable(w, v) && v != u;
  }

  lemma UnregisterUsers(w: World, u: UserId, worker: Opening, order: seq<UserId>)
    requires Invariant(w) && Enabled(w, Unregister(u, worker, order)) && u in w.connected
    ensures UsersWithout(w, u, UnregisterStep(w, u, worker, order))
  {
    hide RoomsValid, MidsMatch, RoutersAccounted, RoomsNamed, RequestsNumbered;
    assert u in w.connected <==> Writable(w, u);
    var user := w.users[u];
    var closed := w.(users := w.users[u := user.(open := false)], connected := w.connected - {u});
    var v := GetOrCreateRoom(closed, user.roomId, worker);
    var p := UnregisterStep(w, u, worker, order);
    if user.roomId in v.rooms {
      assert forall x | x in order :: Names(w, x, user.roomId);
      var body := PeerClosed(user.peer.peerId);
      var left := WithRoom(v, user.roomId, Leave(v.rooms[user.roomId].state, u), v.nextId);
      PostAfterLeaving(w, u, left, order, body);
      SameUsers(w, u, Post(left, Broadcast(order, u, body)), p);
    } else {
      PostAfterLeaving(w, u, closed, [], Nothing);
      EmptyPost(closed);
      SameUsers(w, u, closed, p);
    }
  }

  lemma SameUsers(w: World, u: UserId, q: World, p: World)
    requires UsersWithout(w, u, q)
    requires q.users == p.users && q.connected == p.connected && q.panicked == p.panicked
    ensures UsersWithout(w, u, p)
  {
  }

  lemma ClosedNumbered(w: World, u: UserId, p: World)
    requires RequestsNumbered(w) && u in w.users && p.users == w.users[u := w.users[u].(open := false)]
    ensures RequestsNumbered(p)
  {
    assert Numbered(w.users[u]);
  }

  lemma UnregisterPlaces(w: World, u: UserId, p: World)
    requires Invariant(w) && u in w.connected && u in w.users
    requires UsersWithout(w, u, p) && RoomsWithout(w, u, w.users[u].roomId, p)
    ensures ChannelsMatch(p) && MembersConnected(p) && RoomsNamed(p) && MidsMatch(p)
  {
    hide RoomsValid, RoutersAccounted, RequestsNumbered;
    var roomId := w.users[u].roomId;
    assert forall v :: Writable(p, v) <==> Writable(w, v) && v != u;
    assert forall v, x :: Names(p, v, x) <==> Names(w, v, x) && v != u;
    forall x | x in p.rooms ensures Named(p, x) {
      if x == roomId {
        var v :| v in w.rooms[roomId].state.users - {u};
        assert Names(w, v, roomId);
        assert Names(p, v, roomId);
      } else {
        assert Named(w, x);
        var v :| Names(w, v, x);
        assert Names(p, v, x);
      }
    }
    forall x, v | x in p.rooms && v in p.rooms[x].state.users ensures Names(p, v, x) && v in w.rooms[x].state.users {
      assert Names(w, v, x);
    }
  }

  lemma UnregisterRoomStates(w: World, u: UserId, p: World)
    requires Invariant(w) && u in w.connected && u in w.users && p.users.Keys == w.users.Keys && p.nextId >= w.nextId
    requires RoomsWithout(w, u, w.users[u].roomId, p)
    ensures RoomsValid(p)
  {
    var roomId := w.users[u].roomId;
    hide RoomInvariant, RoutersAccounted, MembersConnected, RoomsNamed, MidsMatch, RequestsNumbered;
    forall x | x in p.rooms
      ensures RoomInvariant(p.rooms[x].state, p.nextId)
      ensures EntersFirst(p.rooms[x].state.history) && KnownUsers(p, p.rooms[x].state.history)
    {
      LargerBound(w.rooms[x].state, w.nextId, p.nextId);
      if x == roomId {
        LeaveKeeps(w.rooms[x].state, p.nextId, u);
      }
    }
  }

  /** The one router that is no longer in a room, if u's leaving removed its room. */
  ghost predicate WentWith(w: World, roomId: RoomId, p: World, r: nat) {
    roomId in w.rooms && roomId !in p.rooms && r == w.rooms[roomId].routerId
  }

  lemma LiveWithout(w: World, u: UserId, roomId: RoomId, p: World, r: nat)
    requires RoutersAccounted(w) && RoomsWithout(w, u, roomId, p)
    ensures Live(p, r) <==> Live(w, r) && !WentWith(w, roomId, p, r)
  {
    hide Leave;
    if Live(p, r) {
      var x :| x in p.rooms && p.rooms[x].routerId == r;
      assert x in w.rooms && w.rooms[x].routerId == r;
    }
    if Live(w, r) && !WentWith(w, roomId, p, r) {
      var x :| x in w.rooms && w.rooms[x].routerId == r;
      assert x in p.rooms && p.rooms[x].routerId == r;
    }
  }

  lemma UnregisterRouters(w: World, u: UserId, roomId: RoomId, p: World)
    requires RoutersAccounted(w)
    requires RoomsWithout(w, u, roomId, p) && ClosesOnRemoval(w, roomId, p)
    ensures RoutersAccounted(p)
  {
    forall r ensures Live(p, r) <==> Live(w, r) && !WentWith(w, roomId, p, r) {
      LiveWithout(w, u, roomId, p, r);
    }
    assert forall a | a in w.rooms :: Live(w, w.rooms[a].routerId);
    hide Leave, Live;
    assert forall x | x in p.rooms :: x in w.rooms && p.rooms[x].routerId == w.rooms[x].routerId;
  }

  lemma UnregisterKeeps(w: World, u: UserId, worker: Opening, order: seq<UserId>)
    requires Invariant(w) && Enabled(w, Unregister(u, worker, order))
    ensures var p := UnregisterStep(w, u, worker, order);
            && Invariant(p) && !p.panicked && p.users.Keys == w.users.Keys
            && forall v | v in w.users :: ResponseIds(p.users[v].sent) == ResponseIds(w.users[v].sent)
  {
    if u in w.connected {
      UnregisterUsers(w, u, worker, order);
      UnregisterRooms(w, u, worker, order);
      hide UnregisterStep;
      var p := UnregisterStep(w, u, worker, order);
      UnregisterPlaces(w, u, p);
      UnregisterRoomStates(w, u, p);
      UnregisterRouters(w, u, w.users[u].roomId, p);
      hide ChannelsMatch, MembersConnected, RoomsNamed, RoutersAccounted, RoomsValid, RequestsNumbered, MidsMatch;
      assert Invariant(p);
    }
  }

  // Mids while a room lasts.

  lemma RegisterFollows(w: World, u: UserId, roomId: RoomId, peer: Peer, firstReqId: int, worker: Opening)
    requires Invariant(w) && Enabled(w, Register(u, roomId, peer, firstReqId, worker))
    ensures var p := RegisterStep(w, u, roomId, peer, firstReqId, worker);
            forall v | v in w.users :: v in p.users && p.users[v].roomId == w.users[v].roomId && Follows(w, p, v)
  {
    hide RegisterStep, Invariant, WireMids, Follows;
    RegisterKeeps(w, u, roomId, peer, firstReqId, worker);
    RegisterLists(w, u, roomId, peer, firstReqId, worker);
    var p := RegisterStep(w, u, roomId, peer, firstReqId, worker);
    forall v | v in w.users ensures Follows(w, p, v) {
      FollowsSame(w, p, v);
    }
  }

  lemma RegisterLists(w: World, u: UserId, roomId: RoomId, peer: Peer, firstReqId: int, worker: Opening)
    ensures var p := RegisterStep(w, u, roomId, peer, firstReqId, worker);
            forall r | r in w.rooms && r in p.rooms ::
              p.rooms[r].state.router == w.rooms[r].state.router && p.rooms[r].routerId == w.rooms[r].routerId
  {
  }

  lemma UnregisterFollows(w: World, u: UserId, worker: Opening, order: seq<UserId>)
    requires Invariant(w) && Enabled(w, Unregister(u, worker, order))
    ensures var p := UnregisterStep(w, u, worker, order);
            forall v | v in w.users :: v in p.users && p.users[v].roomId == w.users[v].roomId && Follows(w, p, v)
  {
    var p := UnregisterStep(w, u, worker, order);
    if u in w.connected {
      UnregisterUsers(w, u, worker, order);
      UnregisterRooms(w, u, worker, order);
    }
    hide UnregisterStep, Invariant, WireMids;
    forall v | v in w.users ensures Follows(w, p, v) {
      FollowsSame(w, p, v);
    }
  }
}
