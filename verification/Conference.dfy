/**
  The whole signalling server as a machine on values: connections, rooms, channels and
  the routers rooms own. Each event is one atomic step.
*/
module Conference {
  import opened Basics
  import opened History
  import opened Messages
  import opened Routing
  import opened RoomModel
  import opened Subscriptions

  datatype Room = Room(routerId: nat, state: RoomState)

  /** What becomes of asking for a router: nobody to ask, asked with no or a negative reply, or opened by a worker. */
  datatype Opening = NoWorker | Unanswered | Opened(workerId: string)

  /** The routers asked for, and those whose opening was acknowledged. */
  datatype Opens = Opens(asked: set<nat>, acknowledged: set<nat>)

  /**
    users is everybody who ever connected. opens and closeRequests log the routers that
    workers were asked to open and to close. panicked is set by what makes Go panic: a send
    on a closed channel, a second close, the room that handleJoin does not check, media
    parameters that cannot be worked with, and a worker's reply of a type not asked for.
    Once it is set the rest of the world means nothing.
  */
  datatype World = World(
    users: map<UserId, UserState>,
    connected: set<UserId>,
    rooms: map<RoomId, Room>,
    opens: Opens,
    closeRequests: seq<nat>,
    nextId: nat,
    panicked: bool)

  /** decoded is the request's data, unless it does not decode; orders are map iteration orders. */
  datatype ClientRequest =
    | GetCapabilities(id: int)
    | CreateTransport(id: int, decodedDirection: Option<Direction>, reply: Option<string>)
    | ConnectClientTransport(id: int, decodedTransport: Option<string>, accepted: bool)
    | Join(id: int, decodedPeer: Option<(string, string)>, told: seq<UserId>, listed: seq<UserId>)
    | ProduceData(id: int, decodes: bool)
    | Produce(id: int, decodedProduce: Option<ProduceRequest>, others: seq<UserId>, owners: seq<UserId>)
    | CloseProducer(decodedProducer: Option<nat>, closeOrder: seq<UserId>)
    | UnknownMethod

  /**
    worker is what would become of asking for a router, should one be needed. WrongReply is what
    becomes of an event in which a worker answers with a reply of another type.
  */
  datatype ServerEvent =
    | Register(user: UserId, roomId: RoomId, peer: Peer, firstReqId: int, worker: Opening)
    | Unregister(user: UserId, worker: Opening, order: seq<UserId>)
    | Handle(user: UserId, request: ClientRequest, worker: Opening)
    | WrongReply(during: ServerEvent)

  const START := World(map[], {}, map[], Opens({}, {}), [], 0, false)

  function RoomUsers(w: World, roomId: RoomId): set<UserId> {
    if roomId in w.rooms then w.rooms[roomId].state.users else {}
  }

  function RouterOf(w: World, roomId: RoomId): RouterState {
    if roomId in w.rooms then w.rooms[roomId].state.router else EmptyRouter("")
  }

  /** The event can happen: its user is fresh, or its handler is running, and its orders fit the maps. */
  ghost predicate Enabled(w: World, e: ServerEvent) {
    && !w.panicked
    && match e {
       case Register(u, _, _, _, _) => u !in w.users
       case Unregister(u, _, order) => u in w.users && Enumerates(order, RoomUsers(w, w.users[u].roomId) - {u})
       case Handle(u, request, _) =>
         && u in w.users && u in w.connected
         && var users := RoomUsers(w, w.users[u].roomId);
            (match request
            case Join(_, _, told, listed) => Enumerates(told, users) && Enumerates(listed, users)
            case Produce(_, _, others, owners) => Enumerates(others, users) && Enumerates(owners, users)
            case CloseProducer(Some(p), order) =>
              Enumerates(order, ClosedConsumers(RouterOf(w, w.users[u].roomId), u, p).Keys)
            case _ => true)
       case WrongReply(during) => Enabled(w, during) && Asks(w, during)
       }
  }

  /** In the course of the event a worker is asked for something; a router whose worker has no name is left alone. */
  predicate Asks(w: World, e: ServerEvent) {
    match e
    case Register(_, roomId, _, _, _) => roomId !in w.rooms
    case Unregister(u, _, _) =>
      u in w.connected && u in w.users && (w.users[u].roomId !in w.rooms || RoomUsers(w, w.users[u].roomId) <= {u})
    case Handle(u, request, _) =>
      && u in w.users && !request.GetCapabilities? && !request.UnknownMethod?
      && var roomId := w.users[u].roomId;
         || roomId !in w.rooms
         || (RouterOf(w, roomId).workerId != "" &&
             match request
             case CreateTransport(_, decoded, _) => decoded.Some?
             case ConnectClientTransport(_, decoded, _) => decoded.Some?
             case Produce(_, decoded, _, _) => decoded.Some?
             case CloseProducer(Some(p), _) => Owns(RouterOf(w, roomId), u, p)
             case _ => false)
    case WrongReply(_) => false
  }

  /** No room is removed and no router closed. */
  predicate KeepsRooms(w: World, p: World) {
    p.closeRequests == w.closeRequests && w.rooms.Keys <= p.rooms.Keys
  }

  predicate Writable(w: World, u: UserId) {
    u in w.users && w.users[u].open
  }

  function Post(w: World, sends: seq<Send>): (p: World)
    ensures KeepsRooms(w, p)
  {
    w.(users := map v | v in w.users :: w.users[v].PutAll(v, sends),
       panicked := w.panicked || exists s | s in sends :: !Writable(w, s.to))
  }

  /** A router that no worker acknowledges is not asked for again, and never closed. */
  function GetOrCreateRoom(w: World, roomId: RoomId, worker: Opening): (p: World)
    ensures KeepsRooms(w, p)
  {
    if roomId in w.rooms || worker.NoWorker? then w
    else
      var asked := w.(opens := w.opens.(asked := w.opens.asked + {w.nextId}), nextId := w.nextId + 1);
      if worker.Unanswered? then asked
      else asked.(rooms := w.rooms[roomId := Room(w.nextId, EmptyRoom(worker.workerId))],
                  opens := asked.opens.(acknowledged := w.opens.acknowledged + {w.nextId}))
  }

  /** The room's new state, and what its operation sent. */
  function Update(w: World, roomId: RoomId, rm: RoomState, nextId: nat, sends: seq<Send>): (p: World)
    requires roomId in w.rooms
    ensures KeepsRooms(w, p)
  {
    Post(w.(rooms := w.rooms[roomId := w.rooms[roomId].(state := rm)], nextId := nextId), sends)
  }

  function RegisterStep(w: World, u: UserId, roomId: RoomId, peer: Peer, firstReqId: int, worker: Opening): (p: World)
    ensures KeepsRooms(w, p)
  {
    var user := UserState(roomId, peer, firstReqId, firstReqId, false, true, []);
    var v := GetOrCreateRoom(w.(users := w.users[u := user], connected := w.connected + {u}), roomId, worker);
    if roomId !in v.rooms then v
    else Update(v, roomId, Enter(v.rooms[roomId].state, u), v.nextId, [])
  }

  /** Closing the channel comes first; then the others are told, and an empty room goes. */
  function UnregisterStep(w: World, u: UserId, worker: Opening, order: seq<UserId>): World
    requires u in w.users
  {
    if u !in w.connected then w
    else
      var user := w.users[u];
      var v := GetOrCreateRoom(
        w.(users := w.users[u := user.(open := false)], connected := w.connected - {u},
           panicked := w.panicked || !user.open),
        user.roomId, worker);
      if user.roomId !in v.rooms then v
      else
        var room := v.rooms[user.roomId];
        var left := Update(v, user.roomId, Leave(room.state, u), v.nextId,
                           Broadcast(order, u, PeerClosed(user.peer.peerId)));
        if left.rooms[user.roomId].state.users != {} then left
        else left.(rooms := left.rooms - {user.roomId}, closeRequests := left.closeRequests + [room.routerId])
  }

  function Respond(w: World, u: UserId, id: int, ok: bool, body: Payload): (p: World)
    ensures KeepsRooms(w, p)
  {
    Post(w, [Send(u, Answer(id, ok, body))])
  }

  function CreateTransportStep(w: World, u: UserId, id: int, decoded: Option<Direction>, reply: Option<string>): (p: World)
    requires u in w.users
    ensures KeepsRooms(w, p)
  {
    var roomId := w.users[u].roomId;
    if roomId in w.rooms && decoded.Some? && reply.Some? && decoded.value != Unknown then
      var rm := ConnectTransport(w.rooms[roomId].state, u, decoded.value, reply.value);
      Respond(Update(w, roomId, rm, w.nextId, []), u, id, true, TransportCreated(reply.value))
    else
      Respond(w, u, id, false, Nothing)
  }

  function ConnectStep(w: World, u: UserId, id: int, decoded: Option<string>, accepted: bool): (p: World)
    requires u in w.users
    ensures KeepsRooms(w, p)
  {
    var user := w.users[u];
    if user.roomId in w.rooms && decoded.Some? then
      var own := ConsumerTransport(w.rooms[user.roomId].state.router, u);
      var v :=
        if user.newDataConsumerReq || own == decoded.value then w
        else Post(w.(users := w.users[u := user.(newDataConsumerReq := true)], nextId := w.nextId + 2),
                  [Send(u, Ask(NewDataConsumer(own, w.nextId, w.nextId + 1)))]);
      Respond(v, u, id, accepted, if accepted then Acknowledged else Nothing)
    else
      Respond(w, u, id, false, Nothing)
  }

  function PeersOf(w: World): map<UserId, Peer> {
    map v | v in w.users :: w.users[v].peer
  }

  function JoinStep(w: World, u: UserId, id: int, decoded: Option<(string, string)>,
                    told: seq<UserId>, listed: seq<UserId>): (p: World)
    requires u in w.users
    ensures KeepsRooms(w, p)
  {
    var user := w.users[u];
    if user.roomId !in w.rooms then w.(panicked := true)
    else
      var me := if decoded.None? then user
                else user.(peer := user.peer.(displayName := decoded.value.0, device := decoded.value.1));
      var v := Post(w.(users := w.users[u := me]), Broadcast(told, u, NewPeer(me.peer)));
      Respond(v, u, id, true, Peers(OtherPeers(PeersOf(v), u, listed)))
  }

  function ProduceDataStep(w: World, u: UserId, id: int, decodes: bool): (p: World)
    requires u in w.users
    ensures KeepsRooms(w, p)
  {
    if w.users[u].roomId in w.rooms && decodes
    then Respond(w.(nextId := w.nextId + 1), u, id, true, DataProducerCreated(w.nextId))
    else Respond(w, u, id, false, Nothing)
  }

  /** The answer says ok even when nothing was produced. */
  function ProduceStep(w: World, u: UserId, id: int, decoded: Option<ProduceRequest>,
                       others: seq<UserId>, owners: seq<UserId>): (p: World)
    requires u in w.users
    ensures KeepsRooms(w, p)
  {
    var roomId := w.users[u].roomId;
    if roomId in w.rooms && decoded.Some? then
      var rm := w.rooms[roomId].state;
      var e := ProduceEffect(rm.router, w.nextId, PeersOf(w), u, decoded.value, others, owners);
      var rm' := ProduceIn(rm, w.nextId, PeersOf(w), u, decoded.value, others, owners);
      var p := Respond(Update(w, roomId, rm', e.nextId, e.sends), u, id, true, ProducerCreated(w.nextId));
      p.(panicked := p.panicked || e.panicked)
    else
      Respond(w, u, id, true, Nothing)
  }

  function CloseStep(w: World, u: UserId, decoded: Option<nat>, order: seq<UserId>): (p: World)
    requires u in w.users
    ensures KeepsRooms(w, p)
  {
    var roomId := w.users[u].roomId;
    if roomId in w.rooms && decoded.Some? then
      var rm := w.rooms[roomId].state;
      Update(w, roomId, CloseIn(rm, u, decoded.value), w.nextId, CloseSends(rm, u, decoded.value, order))
    else w
  }

  function HandleStep(w: World, u: UserId, request: ClientRequest, worker: Opening): (p: World)
    requires u in w.users
    ensures KeepsRooms(w, p)
  {
    var v := GetOrCreateRoom(w, w.users[u].roomId, worker);
    match request
    case GetCapabilities(id) => Respond(w, u, id, true, Capabilities)
    case CreateTransport(id, decoded, reply) => CreateTransportStep(v, u, id, decoded, reply)
    case ConnectClientTransport(id, decoded, accepted) => ConnectStep(v, u, id, decoded, accepted)
    case Join(id, decoded, told, listed) => JoinStep(v, u, id, decoded, told, listed)
    case ProduceData(id, decodes) => ProduceDataStep(v, u, id, decodes)
    case Produce(id, decoded, others, owners) => ProduceStep(v, u, id, decoded, others, owners)
    case CloseProducer(decoded, order) => CloseStep(v, u, decoded, order)
    case UnknownMethod => w
  }

  function Step(w: World, e: ServerEvent): World
    requires e.Register? || e.WrongReply? || e.user in w.users
  {
    match e
    case Register(u, roomId, peer, firstReqId, worker) => RegisterStep(w, u, roomId, peer, firstReqId, worker)
    case Unregister(u, worker, order) => UnregisterStep(w, u, worker, order)
    case Handle(u, request, worker) => HandleStep(w, u, request, worker)
    case WrongReply(_) => w.(panicked := true)
  }
}
