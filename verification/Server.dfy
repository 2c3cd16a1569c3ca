/** The running server: its room manager, its connections, and the handlers of client requests. */
module Server {
  import opened Basics
  import opened History
  import opened Messages
  import opened Routing
  import opened RoomModel
  import Subscriptions
  import Rooms
  import Conference
  import opened Malformed
  import opened Invariants
  import opened Reachable
  import opened Handlers
  import opened Runs

  type User = Rooms.User
  type World = Conference.World
  type Opening = Conference.Opening

  /** opens and closeRequests log the routers that workers were asked to open and to close. */
  class RoomManager {
    const ids: Rooms.RandomIds
    var rooms: map<RoomId, Rooms.Room>
    ghost var opens: Conference.Opens
    ghost var closeRequests: seq<nat>

    constructor (ids: Rooms.RandomIds)
      ensures this.ids == ids && rooms == map[] && opens == Conference.Opens({}, {}) && closeRequests == []
    {
      this.ids := ids;
      rooms, opens, closeRequests := map[], Conference.Opens({}, {}), [];
    }

    /** Nil if there is no such room and no worker opens a router for it, or none says so. */
    method GetOrCreateRoom(roomId: RoomId, worker: Opening) returns (room: Rooms.Room?)
      modifies this, ids
      ensures roomId in old(rooms) || worker.NoWorker? ==>
                unchanged(this) && unchanged(ids) && room == if roomId in rooms then rooms[roomId] else null
      ensures roomId !in old(rooms) && !worker.NoWorker? ==>
                ids.nextId == old(ids.nextId) + 1 && opens.asked == old(opens.asked) + {old(ids.nextId)}
      ensures roomId !in old(rooms) && worker.Unanswered? ==>
                room == null && rooms == old(rooms) && opens.acknowledged == old(opens.acknowledged)
      ensures roomId !in old(rooms) && worker.Opened? ==>
                && room != null && fresh(room) && fresh(room.router) && rooms == old(rooms)[roomId := room]
                && room.roomId == roomId && room.users == map[] && room.Valid()
                && room.State() == Subscriptions.EmptyRoom(worker.workerId)
                && room.ids == ids && room.router.routerId == old(ids.nextId)
                && opens.acknowledged == old(opens.acknowledged) + {room.router.routerId}
      ensures closeRequests == old(closeRequests)
    {
      if roomId in rooms {
        return rooms[roomId];
      }
      if worker.NoWorker? {
        return null;
      }
      var routerId := ids.RandString();
      opens := opens.(asked := opens.asked + {routerId});
      if worker.Unanswered? {
        return null;
      }
      var router := new Router(routerId, worker.workerId);
      opens := opens.(acknowledged := opens.acknowledged + {routerId});
      room := new Rooms.Room(roomId, router, ids);
      rooms := rooms[roomId := room];
    }

    /** The worker is asked to close the room's router. */
    method CloseRouter(room: Rooms.Room)
      modifies this`closeRequests
      ensures closeRequests == old(closeRequests) + [room.router.routerId]
    {
      closeRequests := closeRequests + [room.router.routerId];
    }

    method DeleteRoom(roomId: RoomId)
      modifies this`rooms
      ensures rooms == old(rooms) - {roomId}
    {
      rooms := rooms - {roomId};
    }
  }

  /** users is the map of connections; known, everybody who ever connected; log, the events so far. */
  class WsServer {
    const manager: RoomManager
    const ids: Rooms.RandomIds
    var users: set<User>
    ghost var known: map<UserId, User>
    ghost var log: seq<Conference.ServerEvent>

    ghost function Routers(): set<Router>
      reads manager
    {
      set id | id in manager.rooms :: manager.rooms[id].router
    }

    /** The state of the machine that the server implements. Nothing here has panicked. */
    ghost function State(): World
      reads this`users, this`known, known.Values, manager, manager.rooms.Values, Routers(), ids
    {
      Conference.World(
        map id | id in known :: known[id].State(),
        set u | u in users :: u.userId,
        map id | id in manager.rooms :: Conference.Room(manager.rooms[id].router.routerId, manager.rooms[id].State()),
        manager.opens, manager.closeRequests, ids.nextId, false)
    }

    ghost predicate UsersMatch(w: World)
      reads this`users, this`known, known.Values
    {
      && w.users.Keys == known.Keys
      && (forall id | id in known :: known[id].State() == w.users[id])
      && w.connected == set u | u in users :: u.userId
    }

    ghost predicate RoomsMatch(w: World)
      reads manager, manager.rooms.Values, Routers()
    {
      && w.rooms.Keys == manager.rooms.Keys
      && forall id | id in manager.rooms :: RoomMatches(manager.rooms[id], w.rooms[id])
    }

    static ghost predicate RoomMatches(room: Rooms.Room, r: Conference.Room)
      reads room, room.router
    {
      room.router.routerId == r.routerId && room.State() == r.state
    }

    /** State() is w, part by part. */
    ghost predicate Matches(w: World)
      reads this`users, this`known, known.Values, manager, manager.rooms.Values, Routers(), ids
    {
      && UsersMatch(w) && RoomsMatch(w)
      && w.opens == manager.opens && w.closeRequests == manager.closeRequests
      && w.nextId == ids.nextId && !w.panicked
    }

    lemma StateMatches(w: World)
      ensures State() == w <==> Matches(w)
    {
      if Matches(w) {
        assert State().users == w.users;
        assert State().rooms == w.rooms;
      }
    }

    ghost predicate UsersWired()
      reads this`users, this`known
    {
      (forall id | id in known :: known[id].userId == id) && users <= known.Values
    }

    ghost predicate RoomWired(id: RoomId, room: Rooms.Room)
      reads this`known, room`users
    {
      room.Valid() && room.ids == ids && room.roomId == id && room.users.Values <= known.Values
    }

    ghost predicate RoomsWired()
      reads this`known, manager`rooms, manager.rooms.Values`users
    {
      forall id | id in manager.rooms :: RoomWired(id, manager.rooms[id])
    }

    ghost predicate RoutersApart()
      reads manager`rooms
    {
      forall a, b | a in manager.rooms && b in manager.rooms && a != b ::
        manager.rooms[a] != manager.rooms[b] && manager.rooms[a].router != manager.rooms[b].router
    }

    /** No two rooms share anything, and the users in them are known. */
    ghost predicate Wired()
      reads this`users, this`known, manager`rooms, manager.rooms.Values`users
    {
      manager.ids == ids && UsersWired() && RoomsWired() && RoutersApart()
    }

    /** The state is the machine's after the events in the log. */
    ghost predicate Valid()
      reads this, known.Values, manager, manager.rooms.Values, Routers(), ids
    {
      Wired() && Reached(State(), log)
    }

    constructor ()
      ensures Valid() && State() == Conference.START && log == []
    {
      var ids := new Rooms.RandomIds();
      manager := new RoomManager(ids);
      this.ids := ids;
      users, known, log := {}, map[], [];
      new;
      StateMatches(Conference.START);
    }

    method GetOrCreateRoom(roomId: RoomId, worker: Opening) returns (room: Rooms.Room?)
      requires Wired()
      modifies manager, ids
      ensures Wired() && known == old(known) && users == old(users) && log == old(log)
      ensures State() == Conference.GetOrCreateRoom(old(State()), roomId, worker)
      ensures room == if roomId in manager.rooms then manager.rooms[roomId] else null
      ensures roomId in manager.rooms <==> roomId in old(manager.rooms) || worker.Opened?
      ensures forall id | id in manager.rooms ::
                if id in old(manager.rooms) then manager.rooms[id] == old(manager.rooms[id])
                else fresh(manager.rooms[id]) && fresh(manager.rooms[id].router)
    {
      hide State, UsersMatch, RoomMatches, Wired;
      ghost var w := State();
      StateMatches(w);
      WiredIds();
      if roomId in manager.rooms || worker.NoWorker? {
        room := manager.GetOrCreateRoom(roomId, worker);
        StateMatches(w);
      } else if worker.Unanswered? {
        room := AskInVain(roomId);
      } else {
        room := OpenRoom(roomId, worker.workerId);
      }
    }

    method AskInVain(roomId: RoomId) returns (room: Rooms.Room?)
      requires Wired() && roomId !in manager.rooms
      modifies manager, ids
      ensures Wired() && unchanged(this) && unchanged(known.Values) && manager.rooms == old(manager.rooms) && room == null
      ensures State() == Conference.GetOrCreateRoom(old(State()), roomId, Conference.Unanswered)
    {
      hide State, UsersMatch, UsersWired, RoomMatches, RoomWired;
      ghost var w := State();
      StateMatches(w);
      room := manager.GetOrCreateRoom(roomId, Conference.Unanswered);
      ghost var p := Conference.GetOrCreateRoom(w, roomId, Conference.Unanswered);
      SameUsers(w, p);
      StateMatches(p);
    }

    lemma WiredIds()
      requires Wired()
      ensures manager.ids == ids
    {
    }

    method OpenRoom(roomId: RoomId, worker: string) returns (room: Rooms.Room)
      requires Wired() && roomId !in manager.rooms
      modifies manager, ids
      ensures Wired() && unchanged(this) && unchanged(known.Values)
      ensures State() == Conference.GetOrCreateRoom(old(State()), roomId, Conference.Opened(worker))
      ensures manager.rooms == old(manager.rooms)[roomId := room] && fresh(room) && fresh(room.router)
    {
      hide State, UsersMatch, UsersWired, RoomMatches, RoomWired;
      ghost var w := State();
      StateMatches(w);
      room := manager.GetOrCreateRoom(roomId, Conference.Opened(worker));
      ghost var p := Conference.GetOrCreateRoom(w, roomId, Conference.Opened(worker));
      assert UsersMatch(p) by {
        SameUsers(w, p);
      }
      NewRoom(roomId, room);
      StateMatches(p);
    }

    lemma NewRoom(roomId: RoomId, room: Rooms.Room)
      requires room.Valid() && room.users == map[] && room.ids == ids && room.roomId == roomId
      ensures RoomWired(roomId, room)
      ensures forall r: Conference.Room | r.routerId == room.router.routerId && r.state == room.State() :: RoomMatches(room, r)
    {
    }

    lemma SameUsers(w: World, p: World)
      requires UsersMatch(w) && p.users == w.users && p.connected == w.connected
      ensures UsersMatch(p)
    {
    }

    // What a room's operation does to the whole.

    /** The users' states as w has them. */
    ghost predicate Were(was: map<User, UserState>, w: World)
      reads this
    {
      && w.users.Keys == known.Keys
      && forall id | id in known :: known[id] in was && was[known[id]] == w.users[id]
    }

    lemma SnapshotWere(w: World)
      requires UsersMatch(w)
      ensures Were(Rooms.Snapshot(known.Values), w)
    {
    }

    lemma PostedUsers(w: World, p: World, sends: seq<Send>, was: map<User, UserState>)
      requires UsersWired() && Were(was, w) && Rooms.Posted(known.Values, was, sends)
      requires w.connected == set u | u in users :: u.userId
      requires p.users == Conference.Post(w, sends).users && p.connected == w.connected
      ensures UsersMatch(p)
    {
    }

    lemma UpdatedWorld(w: World, roomId: RoomId, rm: RoomState, nextId: nat, sends: seq<Send>, was: map<User, UserState>)
      requires UsersWired() && Were(was, w) && Rooms.Posted(known.Values, was, sends)
      requires w.connected == set u | u in users :: u.userId
      requires w.rooms.Keys == manager.rooms.Keys && roomId in w.rooms
      requires forall id | id in manager.rooms && id != roomId :: RoomMatches(manager.rooms[id], w.rooms[id])
      requires RoomMatches(manager.rooms[roomId], w.rooms[roomId].(state := rm))
      requires w.opens == manager.opens && w.closeRequests == manager.closeRequests && nextId == ids.nextId
      requires !Conference.Update(w, roomId, rm, nextId, sends).panicked
      ensures State() == Conference.Update(w, roomId, rm, nextId, sends)
    {
      hide RoomMatches, UsersMatch, State;
      var p := Conference.Update(w, roomId, rm, nextId, sends);
      PostedUsers(w, p, sends, was);
      StateMatches(p);
    }

    /** Everything in place for an operation of the room. */
    lemma WiredRoom(roomId: RoomId)
      requires Wired() && roomId in manager.rooms
      ensures manager.rooms[roomId].ids == ids == manager.ids
      ensures forall id | id in manager.rooms && id != roomId ::
                manager.rooms[id] != manager.rooms[roomId] && manager.rooms[id].router != manager.rooms[roomId].router
      ensures UsersWired() && Rooms.OneEach(known.Values)
    {
    }

    lemma PeersNamed(u: User, room: Rooms.Room, w: World, order: seq<UserId>)
      requires UsersWired() && UsersMatch(w) && u in known.Values && room.Ready(known.Values, {})
      requires forall id | id in order :: id in room.users
      ensures var peers := Conference.PeersOf(w);
              room.Named(order, peers) && u.userId in peers && peers[u.userId].peerId == u.peerId
    {
      forall id | id in order ensures id in known && room.users[id] == known[id] {
        var v := room.users[id];
        assert v in known.Values;
      }
    }

    lemma RoomMatched(room: Rooms.Room, r: Conference.Room)
      requires RoomMatches(room, r)
      ensures room.router.routerId == r.routerId && room.State() == r.state && r.state.router == room.router.State()
    {
    }

    lemma RoomMatch(room: Rooms.Room, r: Conference.Room)
      requires room.router.routerId == r.routerId && room.State() == r.state
      ensures RoomMatches(room, r)
    {
    }

    method ProduceInRoom(u: User, room: Rooms.Room, request: ProduceRequest, others: seq<UserId>, owners: seq<UserId>)
      returns (panicked: bool, producerId: nat)
      requires Wired() && u in known.Values && u.open
      requires u.roomId in manager.rooms && manager.rooms[u.roomId] == room && room.Ready(known.Values, {})
      requires Enumerates(others, room.users.Keys) && Enumerates(owners, room.users.Keys)
      modifies room`history, room.router, ids, known.Values
      ensures var w, r, n := old(State()), old(room.State()), old(ids.nextId);
              var e := ProduceEffect(r.router, n, Conference.PeersOf(w), u.userId, request, others, owners);
              var rm := ProduceIn(r, n, Conference.PeersOf(w), u.userId, request, others, owners);
              var p := Conference.Update(w, u.roomId, rm, e.nextId, e.sends);
              && panicked == e.panicked
              && (!panicked ==> Wired() && u.open && producerId == old(ids.nextId))
              && (!panicked && !p.panicked ==> State() == p)
    {
      hide State, RoomMatches, Wired, Rooms.Posted, ProduceEffect, ProduceIn, Conference.Update, Rooms.Room.State, Rooms.Room.Ready;
      ghost var w, r, n := State(), room.State(), ids.nextId;
      StateMatches(w);
      WiredRoom(u.roomId);
      RoomMatched(room, w.rooms[u.roomId]);
      ghost var all, was := known.Values, Rooms.Snapshot(known.Values);
      SnapshotWere(w);
      ghost var peers := Conference.PeersOf(w);
      PeersNamed(u, room, w, owners);
      panicked, producerId := room.Produce(u, request, others, owners, peers, all);
      if !panicked {
        ghost var e := ProduceEffect(r.router, n, peers, u.userId, request, others, owners);
        ghost var rm := ProduceIn(r, n, peers, u.userId, request, others, owners);
        Rooms.OpenStays(all, was, e.sends, u);
        RoomMatch(room, w.rooms[u.roomId].(state := rm));
        if !Conference.Update(w, u.roomId, rm, e.nextId, e.sends).panicked {
          UpdatedWorld(w, u.roomId, rm, e.nextId, e.sends, was);
        }
      }
    }

    method CloseInRoom(u: User, room: Rooms.Room, producerId: nat, shifts: seq<UserId>, order: seq<UserId>)
      requires Wired() && u in known.Values
      requires u.roomId in manager.rooms && manager.rooms[u.roomId] == room && room.Ready(known.Values, {})
      requires Enumerates(shifts, room.router.consumers.Keys)
      requires Enumerates(order, ClosedConsumers(room.router.State(), u.userId, producerId).Keys)
      modifies room`history, room.router, known.Values
      ensures Wired()
      ensures var w, r := old(State()), old(room.State());
              var p := Conference.Update(w, u.roomId, CloseIn(r, u.userId, producerId), w.nextId,
                                         CloseSends(r, u.userId, producerId, order));
              !p.panicked ==> State() == p
    {
      hide State, RoomMatches, Wired, Rooms.Posted, CloseIn, CloseSends, ClosedConsumers, Conference.Update;
      hide Rooms.Room.State, Rooms.Room.Ready;
      ghost var w, r := State(), room.State();
      StateMatches(w);
      WiredRoom(u.roomId);
      RoomMatched(room, w.rooms[u.roomId]);
      ghost var was := Rooms.Snapshot(known.Values);
      SnapshotWere(w);
      var _ := room.CloseProducer(u, producerId, shifts, order, known.Values);
      ghost var rm, sends := CloseIn(r, u.userId, producerId), CloseSends(r, u.userId, producerId, order);
      RoomMatch(room, w.rooms[u.roomId].(state := rm));
      if !Conference.Update(w, u.roomId, rm, w.nextId, sends).panicked {
        UpdatedWorld(w, u.roomId, rm, w.nextId, sends, was);
      }
    }

    method ConnectInRoom(u: User, room: Rooms.Room, direction: Direction, transportId: string) returns (ok: bool)
      requires Wired() && u in known.Values
      requires u.roomId in manager.rooms && manager.rooms[u.roomId] == room
      modifies room.router`produceTransportIds, room.router`consumeTransportIds
      ensures Wired() && ok == (direction != Unknown)
      ensures var w, r := old(State()), old(room.State());
              State() == Conference.Update(w, u.roomId, ConnectTransport(r, u.userId, direction, transportId), w.nextId, [])
    {
      hide State, RoomMatches, Wired, Rooms.Posted, ConnectTransport;
      hide Rooms.Room.State;
      ghost var w, r := State(), room.State();
      StateMatches(w);
      WiredRoom(u.roomId);
      RoomMatched(room, w.rooms[u.roomId]);
      ghost var was := Rooms.Snapshot(known.Values);
      SnapshotWere(w);
      Rooms.NothingPosted(known.Values);
      ok := room.CreateWebrtcTransport(direction, u, transportId);
      ghost var rm := ConnectTransport(r, u.userId, direction, transportId);
      RoomMatch(room, w.rooms[u.roomId].(state := rm));
      UpdatedWorld(w, u.roomId, rm, w.nextId, [], was);
    }

    lemma PostedWorld(w: World, sends: seq<Send>, was: map<User, UserState>)
      requires UsersWired() && Were(was, w) && Rooms.Posted(known.Values, was, sends) && RoomsMatch(w)
      requires w.connected == set u | u in users :: u.userId
      requires w.opens == manager.opens && w.closeRequests == manager.closeRequests && w.nextId == ids.nextId
      requires !Conference.Post(w, sends).panicked
      ensures State() == Conference.Post(w, sends)
    {
      hide RoomMatches, UsersMatch, State;
      var p := Conference.Post(w, sends);
      PostedUsers(w, p, sends, was);
      StateMatches(p);
    }

    method TellInRoom(u: User, room: Rooms.Room, order: seq<UserId>)
      requires Wired() && u in known.Values && u.open
      requires u.roomId in manager.rooms && manager.rooms[u.roomId] == room && room.Ready(known.Values, {})
      requires Enumerates(order, room.users.Keys)
      modifies known.Values
      ensures Wired() && u.open
      ensures var w := old(State());
              var p := Conference.Post(w, Broadcast(order, u.userId, NewPeer(old(u.PeerData()))));
              !p.panicked ==> State() == p
    {
      hide State, RoomMatches, Wired, Rooms.Posted, Conference.Post, Broadcast, Rooms.Room.State, Rooms.Room.Ready;
      ghost var w := State();
      StateMatches(w);
      WiredRoom(u.roomId);
      ghost var all, was := known.Values, Rooms.Snapshot(known.Values);
      SnapshotWere(w);
      ghost var sends := Broadcast(order, u.userId, NewPeer(u.PeerData()));
      room.NotifyOtherUsers(u, order, all);
      Rooms.OpenStays(all, was, sends, u);
      if !Conference.Post(w, sends).panicked {
        PostedWorld(w, sends, was);
      }
    }

    /** One message to one user. */
    method Send(u: User, what: Outgoing)
      requires Wired() && u in known.Values && u.open
      modifies u`sent, u`reqId
      ensures Wired() && u.open
      ensures State() == Conference.Post(old(State()), [Messages.Send(u.userId, what)])
    {
      hide State, RoomMatches, RoomWired, Rooms.Posted;
      ghost var w := State();
      StateMatches(w);
      ghost var all, was := known.Values, Rooms.Snapshot(known.Values);
      SnapshotWere(w);
      Rooms.NothingPosted(all);
      ghost var sends := [] + [Messages.Send(u.userId, what)];
      Rooms.Post(u, what, all, was, []);
      Rooms.OpenStays(all, was, sends, u);
      PostedWorld(w, sends, was);
    }

    // Changes of membership.

    method EnterRoom(u: User, room: Rooms.Room)
      requires Wired() && u in known.Values
      requires u.roomId in manager.rooms && manager.rooms[u.roomId] == room
      modifies room`users, room`history
      ensures Wired()
      ensures var w := old(State());
              State() == Conference.Update(w, u.roomId, Enter(old(room.State()), u.userId), w.nextId, [])
    {
      hide State, RoomMatches, Rooms.Posted, Enter, RoomWired, Conference.Update;
      hide Rooms.Room.State;
      ghost var w, r := State(), room.State();
      StateMatches(w);
      WiredRoom(u.roomId);
      RoomMatched(room, w.rooms[u.roomId]);
      ghost var was := Rooms.Snapshot(known.Values);
      SnapshotWere(w);
      Rooms.NothingPosted(known.Values);
      RoomUsersKnown(u.roomId, room);
      room.AddUser(u);
      ghost var rm := Enter(r, u.userId);
      QuietUpdate(w, u.roomId, rm);
      RoomRewired(u.roomId, room);
      RoomMatch(room, w.rooms[u.roomId].(state := rm));
      UpdatedWorld(w, u.roomId, rm, w.nextId, [], was);
    }

    lemma QuietUpdate(w: World, roomId: RoomId, rm: RoomState)
      requires roomId in w.rooms && !w.panicked
      ensures !Conference.Update(w, roomId, rm, w.nextId, []).panicked
    {
    }

    lemma RoomUsersKnown(roomId: RoomId, room: Rooms.Room)
      requires RoomWired(roomId, room) && Rooms.OneEach(known.Values)
      ensures forall u | u in known.Values && u.userId in room.users :: room.users[u.userId] == u
      ensures room.Valid() && room.ids == ids && room.roomId == roomId && room.users.Values <= known.Values
    {
    }

    lemma RoomRewired(roomId: RoomId, room: Rooms.Room)
      requires room.Valid() && room.ids == ids && room.roomId == roomId && room.users.Values <= known.Values
      ensures RoomWired(roomId, room)
    {
    }

    method LeaveRoom(u: User, room: Rooms.Room, order: seq<UserId>)
      requires Wired() && u in known.Values
      requires u.roomId in manager.rooms && manager.rooms[u.roomId] == room && room.Ready(known.Values, {u})
      requires Enumerates(order, room.users.Keys - {u.userId})
      modifies room`users, room`history, known.Values
      ensures Wired() && known == old(known) && users == old(users) && log == old(log)
      ensures room.users.Keys == old(room.users.Keys) - {u.userId}
      ensures var w := old(State());
              var sends := Broadcast(order, u.userId, PeerClosed(u.peerId));
              var p := Conference.Update(w, u.roomId, Leave(old(room.State()), u.userId), w.nextId, sends);
              !p.panicked ==> State() == p
    {
      hide State, RoomMatches, Rooms.Posted, Leave, Broadcast, RoomWired, Conference.Update, Rooms.Room.Ready;
      hide Rooms.Room.State;
      ghost var w, r := State(), room.State();
      StateMatches(w);
      WiredRoom(u.roomId);
      RoomMatched(room, w.rooms[u.roomId]);
      ghost var was := Rooms.Snapshot(known.Values);
      SnapshotWere(w);
      RoomUsersKnown(u.roomId, room);
      room.DeleteUser(u, order, known.Values);
      ghost var rm, sends := Leave(r, u.userId), Broadcast(order, u.userId, PeerClosed(u.peerId));
      RoomRewired(u.roomId, room);
      RoomMatch(room, w.rooms[u.roomId].(state := rm));
      if !Conference.Update(w, u.roomId, rm, w.nextId, sends).panicked {
        UpdatedWorld(w, u.roomId, rm, w.nextId, sends, was);
      }
    }

    method RemoveRoom(room: Rooms.Room)
      requires Wired() && room.roomId in manager.rooms && manager.rooms[room.roomId] == room
      modifies manager`rooms, manager`closeRequests
      ensures Wired()
      ensures var w := old(State());
              State() == w.(rooms := w.rooms - {room.roomId}, closeRequests := w.closeRequests + [room.router.routerId])
    {
      hide State, RoomMatches, RoomWired, UsersWired, UsersMatch;
      ghost var w := State();
      StateMatches(w);
      manager.CloseRouter(room);
      manager.DeleteRoom(room.roomId);
      ghost var p :=
        w.(rooms := w.rooms - {room.roomId}, closeRequests := w.closeRequests + [room.router.routerId]);
      SameUsers(w, p);
      StateMatches(p);
    }

    /** A connection is entered under its user, who is new. */
    method Connect(u: User)
      requires Wired() && u.userId !in known
      requires u.State() == UserState(u.roomId, u.PeerData(), u.firstReqId, u.firstReqId, false, true, [])
      modifies this
      ensures Wired() && known == old(known)[u.userId := u] && users == old(users) + {u} && log == old(log)
      ensures var w := old(State());
              State() == w.(users := w.users[u.userId := u.State()], connected := w.connected + {u.userId})
    {
      hide State, RoomMatches, RoomWired, RoomUsersAmong;
      ghost var w, before := State(), known.Values;
      StateMatches(w);
      forall id | id in manager.rooms ensures RoomUsersAmong(id, manager.rooms[id], before) {
        RoomAmong(id, manager.rooms[id]);
      }
      users := users + {u};
      known := known[u.userId := u];
      StillKnown(before, old(known), u);
      assert users <= known.Values by {
        assert known[u.userId] == u;
      }
      AllRewired(before);
      ghost var p := w.(users := w.users[u.userId := u.State()], connected := w.connected + {u.userId});
      assert p.connected == set x | x in users :: x.userId;
      StateMatches(p);
    }

    ghost predicate RoomUsersAmong(roomId: RoomId, room: Rooms.Room, all: set<User>)
      reads room`users
    {
      room.Valid() && room.ids == ids && room.roomId == roomId && room.users.Values <= all
    }

    lemma RoomAmong(roomId: RoomId, room: Rooms.Room)
      requires RoomWired(roomId, room)
      ensures RoomUsersAmong(roomId, room, known.Values)
    {
    }

    lemma AllRewired(before: set<User>)
      requires before <= known.Values
      requires forall id | id in manager.rooms :: RoomUsersAmong(id, manager.rooms[id], before)
      ensures RoomsWired()
    {
    }

    lemma StillKnown(before: set<User>, was: map<UserId, User>, u: User)
      requires before == was.Values && u.userId !in was && known == was[u.userId := u]
      ensures before <= known.Values
    {
      assert forall id | id in was :: known[id] == was[id];
    }

    lemma Dropped(u: User, w: World)
      requires UsersWired() && UsersMatch(w) && u in users
      ensures u.userId in w.users && w.users[u.userId] == u.State()
      ensures w.connected - {u.userId} == set x | x in users - {u} :: x.userId
      ensures OthersMatch(u, w)
    {
      assert known[u.userId] == u;
    }

    method Disconnect(u: User)
      requires Wired() && u in users && u.open
      modifies this`users, u`open
      ensures Wired() && users == old(users) - {u}
      ensures var w := old(State());
              State() == w.(users := w.users[u.userId := w.users[u.userId].(open := false)],
                            connected := w.connected - {u.userId})
    {
      hide State, RoomMatches, RoomWired, UsersMatch;
      ghost var w := State();
      StateMatches(w);
      Dropped(u, w);
      users := users - {u};
      u.CloseChannel();
      UserChanged(u, w.(connected := w.connected - {u.userId}));
    }

    // Events. Each is the machine's step of the same name.

    ghost method Record(e: Conference.ServerEvent)
      modifies this`log
      ensures log == old(log) + [e] && State() == old(State())
      ensures old(Wired()) ==> Wired()
    {
      hide RoomMatches, UsersMatch, State;
      var w := State();
      StateMatches(w);
      log := log + [e];
      StateMatches(w);
    }

    /** Every member of a room can be written to, except perhaps one who is leaving. */
    lemma RoomReady(w: World, room: Rooms.Room, except: set<User>)
      requires Wired() && Matches(w) && room.roomId in manager.rooms && manager.rooms[room.roomId] == room
      requires except <= known.Values
      requires forall x | x in w.rooms[room.roomId].state.users ::
                 Conference.Writable(w, x) || exists u | u in except :: u.userId == x
      ensures room.Ready(known.Values, except)
    {
      forall v | v in room.users.Values - except ensures v.open {
        var id :| id in room.users && room.users[id] == v;
        assert v in known.Values;
        assert known[id] == v;
        assert id in w.rooms[room.roomId].state.users by {
          assert RoomMatches(room, w.rooms[room.roomId]);
        }
      }
    }

    lemma MembersWritable(w: World, roomId: RoomId)
      requires Invariant(w) && roomId in w.rooms
      ensures forall x | x in w.rooms[roomId].state.users :: Conference.Writable(w, x)
    {
      forall x | x in w.rooms[roomId].state.users ensures Conference.Writable(w, x) {
        assert Names(w, x, roomId);
      }
    }

    /** How every handler starts. */
    method Begin(u: User, worker: Opening) returns (room: Rooms.Room?)
      requires Wired() && u in users && Invariant(State())
      modifies manager, ids
      ensures Wired() && known == old(known) && users == old(users) && log == old(log) && u.open && Invariant(State())
      ensures State() == Conference.GetOrCreateRoom(old(State()), u.roomId, worker)
      ensures u.roomId in manager.rooms <==> u.roomId in old(manager.rooms) || worker.Opened?
      ensures room == if u.roomId in manager.rooms then manager.rooms[u.roomId] else null
      ensures forall id | id in manager.rooms ::
                if id in old(manager.rooms) then manager.rooms[id] == old(manager.rooms[id])
                else fresh(manager.rooms[id]) && fresh(manager.rooms[id].router)
      ensures room != null ==>
                && room.Ready(known.Values, {})
                && room.State() == State().rooms[u.roomId].state
                && room.users.Keys == Conference.RoomUsers(old(State()), u.roomId)
                && SameLists(room.router.State(), Conference.RouterOf(old(State()), u.roomId))
    {
      hide RoomMatches, Conference.GetOrCreateRoom, Invariant, State, Wired;
      ghost var w := State();
      StateMatches(w);
      UserIn(u, w);
      CreatingRoom(w, u.userId, u.roomId, worker);
      room := GetOrCreateRoom(u.roomId, worker);
      ghost var v := State();
      StateMatches(v);
      if room != null {
        MembersWritable(v, u.roomId);
        RoomWiredAt(u.roomId);
        RoomReady(v, room, {});
        RoomMatched(room, v.rooms[u.roomId]);
        SameRouter(w, u.roomId, worker);
      }
    }

    static ghost predicate SameLists(r: RouterState, s: RouterState) {
      r.producers == s.producers && r.consumers == s.consumers
    }

    lemma SameRouter(w: World, roomId: RoomId, worker: Opening)
      ensures var v := Conference.GetOrCreateRoom(w, roomId, worker);
              roomId in v.rooms ==> SameLists(v.rooms[roomId].state.router, Conference.RouterOf(w, roomId))
    {
    }

    lemma UserIn(u: User, w: World)
      requires Wired() && Matches(w) && Invariant(w) && u in users
      ensures Names(w, u.userId, u.roomId) && u in known.Values && u.open && w.users[u.userId] == u.State()
    {
      assert known[u.userId] == u;
      assert Conference.Writable(w, u.userId);
    }

    lemma RoomWiredAt(roomId: RoomId)
      requires Wired() && roomId in manager.rooms
      ensures manager.rooms[roomId].roomId == roomId
      ensures Rooms.OneEach(known.Values)
    {
    }

    lemma UserKnown(u: User, w: World)
      requires Wired() && Matches(w) && u in known.Values
      ensures u.userId in w.users && w.users[u.userId] == u.State()
      ensures u.roomId in w.rooms <==> u.roomId in manager.rooms
      ensures u.roomId in w.rooms ==> RoomMatches(manager.rooms[u.roomId], w.rooms[u.roomId])
    {
      assert known[u.userId] == u;
    }

    // The handlers, from the point where the room has been looked up.

    method HandleCreateWebrtcTransport(u: User, room: Rooms.Room?, id: int, decoded: Option<Direction>,
                                       reply: Option<string>)
      requires Wired() && u in known.Values && u.open
      requires room == if u.roomId in manager.rooms then manager.rooms[u.roomId] else null
      modifies if room == null then {} else {room.router}, u
      ensures Wired()
      ensures State() == Conference.CreateTransportStep(old(State()), u.userId, id, decoded, reply)
    {
      hide RoomMatches, Wired, State, Rooms.Room.State, ConnectTransport;
      ghost var w := State();
      StateMatches(w);
      UserKnown(u, w);
      var transportId := "";
      var made := false;
      if room != null {
        RoomMatched(room, w.rooms[u.roomId]);
        if decoded.Some? && reply.Some? {
          UnknownChangesNothing(w, u.roomId, u.userId, reply.value);
          made := ConnectInRoom(u, room, decoded.value, reply.value);
          transportId := reply.value;
        }
      }
      if made {
        Send(u, Answer(id, true, TransportCreated(transportId)));
      } else {
        Send(u, Answer(id, false, Nothing));
      }
    }

    lemma UnknownChangesNothing(w: World, roomId: RoomId, u: UserId, id: string)
      requires roomId in w.rooms && !w.panicked
      ensures var rm := w.rooms[roomId].state;
              Conference.Update(w, roomId, ConnectTransport(rm, u, Unknown, id), w.nextId, []) == w
    {
      assert w.users == map v | v in w.users :: w.users[v].PutAll(v, []);
    }

    method HandleConnectWebrtcTransport(u: User, room: Rooms.Room?, id: int, decoded: Option<string>, accepted: bool)
      requires Wired() && u in known.Values && u.open
      requires room == if u.roomId in manager.rooms then manager.rooms[u.roomId] else null
      modifies u, ids
      ensures Wired()
      ensures State() == Conference.ConnectStep(old(State()), u.userId, id, decoded, accepted)
    {
      hide RoomMatches, Wired, State, Rooms.Room.State, Conference.Post, ConsumerTransport;
      ghost var w := State();
      StateMatches(w);
      UserKnown(u, w);
      var ok := false;
      if room != null && decoded.Some? {
        RoomMatched(room, w.rooms[u.roomId]);
        AskUnlessAsked(u, room, decoded.value);
        ok := accepted;
      }
      Send(u, Answer(id, ok, if ok then Acknowledged else Nothing));
    }

    lemma IdsDrawn(w: World, nextId: nat)
      requires UsersMatch(w) && RoomsMatch(w) && !w.panicked && ids.nextId == nextId
      requires w.opens == manager.opens && w.closeRequests == manager.closeRequests
      ensures State() == w.(nextId := nextId)
    {
      StateMatches(w.(nextId := nextId));
    }

    method AskUnlessAsked(u: User, room: Rooms.Room, transportId: string)
      requires Wired() && u in known.Values && u.open
      requires u.roomId in manager.rooms && manager.rooms[u.roomId] == room
      modifies u, ids
      ensures Wired() && u.open
      ensures var w, own := old(State()), ConsumerTransport(old(room.router.State()), u.userId);
              && u.userId in w.users
              && State() ==
                 if old(u.newDataConsumerReq) || own == transportId then w
                 else Conference.Post(
                   w.(users := w.users[u.userId := w.users[u.userId].(newDataConsumerReq := true)], nextId := w.nextId + 2),
                   [Messages.Send(u.userId, Ask(NewDataConsumer(own, w.nextId, w.nextId + 1)))])
    {
      hide UsersMatch, RoomMatches, Wired, State, Conference.Post, ConsumerTransport;
      ghost var w := State();
      StateMatches(w);
      UserKnown(u, w);
      WiredRoom(u.roomId);
      if !u.newDataConsumerReq {
        var made, body := room.CreateNewDataConsumer(u, transportId);
        IdsDrawn(w, ids.nextId);
        if made {
          AskOnce(u, body);
        }
      }
    }

    /** The request, and the flag that keeps it from being repeated. */
    method AskOnce(u: User, body: Payload)
      requires Wired() && u in known.Values && u.open
      modifies u
      ensures Wired() && u.open
      ensures var w := old(State());
              u.userId in w.users &&
              State() == Conference.Post(
                w.(users := w.users[u.userId := w.users[u.userId].(newDataConsumerReq := true)]),
                [Messages.Send(u.userId, Ask(body))])
    {
      hide RoomMatches, Wired, State;
      SetFlag(u);
      Send(u, Ask(body));
    }

    method SetFlag(u: User)
      requires Wired() && u in known.Values
      modifies u`newDataConsumerReq
      ensures Wired()
      ensures var w := old(State());
              && u.userId in w.users
              && State() == w.(users := w.users[u.userId := w.users[u.userId].(newDataConsumerReq := true)])
    {
      hide RoomMatches, RoomWired, State, UsersMatch;
      ghost var w := State();
      StateMatches(w);
      UserKnown(u, w);
      OtherUsers(u, w);
      u.newDataConsumerReq := true;
      UserChanged(u, w);
    }

    ghost predicate OthersMatch(u: User, w: World)
      reads this, known.Values
    {
      && w.users.Keys == known.Keys
      && w.connected == (set u | u in users :: u.userId)
      && forall id | id in known && known[id] != u :: known[id].State() == w.users[id]
    }

    lemma OtherUsers(u: User, w: World)
      requires UsersMatch(w)
      ensures OthersMatch(u, w)
    {
    }

    /** Only u's own state is not as w has it. */
    lemma UserChanged(u: User, w: World)
      requires UsersWired() && u in known.Values && OthersMatch(u, w) && RoomsMatch(w)
      requires w.opens == manager.opens && w.closeRequests == manager.closeRequests
      requires w.nextId == ids.nextId && !w.panicked
      ensures State() == w.(users := w.users[u.userId := u.State()])
    {
      StateMatches(w.(users := w.users[u.userId := u.State()]));
    }

    /** The names come with the request, if it decodes. */
    method SetNames(u: User, decoded: Option<(string, string)>)
      requires Wired() && u in known.Values
      modifies u`displayName, u`device
      ensures Wired()
      ensures var w := old(State());
              && u.userId in w.users
              && var me := w.users[u.userId];
                 State() == w.(users := w.users[u.userId :=
                   if decoded.None? then me
                   else me.(peer := me.peer.(displayName := decoded.value.0, device := decoded.value.1))])
    {
      hide RoomMatches, RoomWired, State, UsersMatch;
      ghost var w := State();
      StateMatches(w);
      UserKnown(u, w);
      OtherUsers(u, w);
      if decoded.Some? {
        u.displayName, u.device := decoded.value.0, decoded.value.1;
      }
      UserChanged(u, w);
    }

    lemma PeersDescribed(room: Rooms.Room, roomId: RoomId, w: World)
      requires Wired() && UsersMatch(w) && roomId in manager.rooms && manager.rooms[roomId] == room
      ensures room.Valid()
      ensures var peers := Conference.PeersOf(w);
              forall id | id in room.users :: id in peers && room.users[id].PeerData() == peers[id]
    {
      assert RoomWired(roomId, room);
      forall id | id in room.users ensures id in known && room.users[id] == known[id] {
        var v := room.users[id];
        assert v in known.Values;
      }
    }

    method ListOthers(u: User, room: Rooms.Room, listed: seq<UserId>) returns (peers: seq<Peer>)
      requires Wired() && u.roomId in manager.rooms && manager.rooms[u.roomId] == room
      requires Enumerates(listed, room.users.Keys)
      ensures State() == old(State())
      ensures peers == OtherPeers(Conference.PeersOf(State()), u.userId, listed)
    {
      hide Wired, State, OtherPeers, Conference.PeersOf, RoomMatches;
      ghost var w := State();
      StateMatches(w);
      PeersDescribed(room, u.roomId, w);
      peers := room.GetOtherUsers(u, listed, Conference.PeersOf(w));
      StateMatches(w);
    }

    /** The Go code dereferences the room even when it is nil. */
    method HandleJoin(u: User, room: Rooms.Room?, id: int, decoded: Option<(string, string)>,
                      told: seq<UserId>, listed: seq<UserId>)
      returns (panicked: bool)
      requires Wired() && u in known.Values && u.open
      requires room == if u.roomId in manager.rooms then manager.rooms[u.roomId] else null
      requires room != null ==>
                 && room.Ready(known.Values, {})
                 && Enumerates(told, room.users.Keys) && Enumerates(listed, room.users.Keys)
      modifies known.Values
      ensures panicked == (room == null) && (panicked ==> unchanged(known.Values))
      ensures Wired()
      ensures var p := Conference.JoinStep(old(State()), u.userId, id, decoded, told, listed);
              && (panicked ==> p.panicked)
              && (!p.panicked ==> State() == p)
    {
      hide RoomMatches, Wired, State, Rooms.Room.State, Broadcast, OtherPeers, Conference.PeersOf, Enumerates, Rooms.Room.Ready;
      hide Conference.Post;
      ghost var w := State();
      StateMatches(w);
      UserKnown(u, w);
      if room == null {
        return true;
      }
      SetNames(u, decoded);
      TellAndAnswer(u, room, id, told, listed);
      return false;
    }

    method TellAndAnswer(u: User, room: Rooms.Room, id: int, told: seq<UserId>, listed: seq<UserId>)
      requires Wired() && u in known.Values && u.open
      requires u.roomId in manager.rooms && manager.rooms[u.roomId] == room && room.Ready(known.Values, {})
      requires Enumerates(told, room.users.Keys) && Enumerates(listed, room.users.Keys)
      modifies known.Values
      ensures Wired()
      ensures var w := old(State());
              && u.userId in w.users
              && var v := Conference.Post(w, Broadcast(told, u.userId, NewPeer(w.users[u.userId].peer)));
                 var p := Conference.Respond(v, u.userId, id, true, Peers(OtherPeers(Conference.PeersOf(v), u.userId, listed)));
                 !p.panicked ==> State() == p
    {
      hide RoomMatches, Wired, State, Rooms.Room.State, Broadcast, OtherPeers, Conference.PeersOf, Enumerates, Rooms.Room.Ready;
      hide Conference.Post;
      ghost var w := State();
      StateMatches(w);
      UserKnown(u, w);
      TellInRoom(u, room, told);
      ghost var v := Conference.Post(w, Broadcast(told, u.userId, NewPeer(w.users[u.userId].peer)));
      assert !v.panicked ==> State() == v;
      PanicStays(v, u.userId, id, Peers(OtherPeers(Conference.PeersOf(v), u.userId, listed)));
      var peers := ListOthers(u, room, listed);
      Send(u, Answer(id, true, Peers(peers)));
    }

    lemma PanicStays(w: World, u: UserId, id: int, body: Payload)
      ensures w.panicked ==> Conference.Respond(w, u, id, true, body).panicked
    {
    }

    method HandleProduceData(u: User, room: Rooms.Room?, id: int, decodes: bool)
      requires Wired() && u in known.Values && u.open
      requires room == if u.roomId in manager.rooms then manager.rooms[u.roomId] else null
      modifies u, ids
      ensures Wired()
      ensures State() == Conference.ProduceDataStep(old(State()), u.userId, id, decodes)
    {
      hide RoomMatches, Wired, State, Conference.Post;
      ghost var w := State();
      StateMatches(w);
      UserKnown(u, w);
      if room != null && decodes {
        var dataProducerId := ids.RandString();
        IdsDrawn(w, ids.nextId);
        Send(u, Answer(id, true, DataProducerCreated(dataProducerId)));
      } else {
        Send(u, Answer(id, false, Nothing));
      }
    }

    method HandleProduce(u: User, room: Rooms.Room?, id: int, decoded: Option<ProduceRequest>,
                         others: seq<UserId>, owners: seq<UserId>)
      returns (panicked: bool)
      requires Wired() && u in known.Values && u.open
      requires room == if u.roomId in manager.rooms then manager.rooms[u.roomId] else null
      requires room != null ==> room.Ready(known.Values, {}) && Enumerates(others, room.users.Keys) && Enumerates(owners, room.users.Keys)
      requires Invariant(State())
      modifies if room == null then {} else {room, room.router}, ids, known.Values
      ensures panicked == ProduceBreaks(old(State()), u.roomId, u.userId, decoded)
      ensures var p := Conference.ProduceStep(old(State()), u.userId, id, decoded, others, owners);
              && (!panicked ==> Wired())
              && (!p.panicked ==> State() == p)
    {
      hide RoomMatches, Wired, State, Conference.Update, Enumerates, Invariant, ProducePanics;
      hide Rooms.Room.Ready, Rooms.Room.State, ProduceIn, ProduceEffect;
      ghost var w := State();
      StateMatches(w);
      UserKnown(u, w);
      if room != null {
        RoomMatched(room, w.rooms[u.roomId]);
      }
      if room != null && decoded.Some? {
        MembersAre(room, w.rooms[u.roomId].state);
        PanicsInRoom(w, u.roomId, u.userId, decoded.value, others, owners);
        var producerId;
        panicked, producerId := ProduceInRoom(u, room, decoded.value, others, owners);
        if !panicked {
          Send(u, Answer(id, true, ProducerCreated(producerId)));
        }
      } else {
        Send(u, Answer(id, true, Nothing));
        return false;
      }
    }

    lemma MembersAre(room: Rooms.Room, rm: RoomState)
      requires room.State() == rm
      ensures rm.users == room.users.Keys
    {
    }

    /** shifts is the order of the loop over the router's consumers. */
    method HandleCloseProducer(u: User, room: Rooms.Room?, decoded: Option<nat>, shifts: seq<UserId>, order: seq<UserId>)
      requires Wired() && u in known.Values
      requires room == if u.roomId in manager.rooms then manager.rooms[u.roomId] else null
      requires room != null ==> room.Ready(known.Values, {}) && Enumerates(shifts, room.router.consumers.Keys)
      requires room != null && decoded.Some? ==>
                 Enumerates(order, ClosedConsumers(room.router.State(), u.userId, decoded.value).Keys)
      modifies if room == null then {} else {room, room.router}, known.Values
      ensures Wired()
      ensures var p := Conference.CloseStep(old(State()), u.userId, decoded, order);
              !p.panicked ==> State() == p
    {
      hide RoomMatches, Wired, State, Conference.Update, Enumerates, ClosedConsumers;
      hide Rooms.Room.Ready, Rooms.Room.State, CloseIn, CloseSends;
      ghost var w := State();
      StateMatches(w);
      UserKnown(u, w);
      if room != null && decoded.Some? {
        RoomMatched(room, w.rooms[u.roomId]);
        CloseInRoom(u, room, decoded.value, shifts, order);
      }
    }

    /** The orders fit the maps of the room that are ranged over. */
    ghost predicate OrdersFit(u: UserId, room: Rooms.Room, request: Conference.ClientRequest, shifts: seq<UserId>)
      reads room, room.router
    {
      match request
      case Join(_, _, told, listed) => Enumerates(told, room.users.Keys) && Enumerates(listed, room.users.Keys)
      case Produce(_, _, others, owners) => Enumerates(others, room.users.Keys) && Enumerates(owners, room.users.Keys)
      case CloseProducer(decoded, order) =>
        && Enumerates(shifts, room.router.consumers.Keys)
        && (decoded.Some? ==> Enumerates(order, ClosedConsumers(room.router.State(), u, decoded.value).Keys))
      case _ => true
    }

    lemma EnabledFits(w: World, u: UserId, room: Rooms.Room, request: Conference.ClientRequest, worker: Opening,
                      shifts: seq<UserId>)
      requires Conference.Enabled(w, Conference.Handle(u, request, worker))
      requires room.users.Keys == Conference.RoomUsers(w, w.users[u].roomId)
      requires SameLists(room.router.State(), Conference.RouterOf(w, w.users[u].roomId))
      requires Enumerates(shifts, room.router.consumers.Keys)
      ensures OrdersFit(u, room, request, shifts)
    {
    }

    /** Once the room has been looked up: a join without one panics, and so does a produce with unworkable parameters. */
    static ghost predicate RequestPanics(v: World, roomId: RoomId, u: UserId, request: Conference.ClientRequest) {
      || (request.Join? && roomId !in v.rooms)
      || (request.Produce? && ProduceBreaks(v, roomId, u, request.decodedProduce))
    }

    /** The switch on the request's method, for the methods that look up the room first. */
    method Dispatch(u: User, room: Rooms.Room?, request: Conference.ClientRequest, shifts: seq<UserId>)
      returns (panicked: bool)
      requires Wired() && u in known.Values && u.open
      requires room == if u.roomId in manager.rooms then manager.rooms[u.roomId] else null
      requires room != null ==> room.Ready(known.Values, {}) && OrdersFit(u.userId, room, request, shifts)
      requires !request.GetCapabilities? && !request.UnknownMethod? && Invariant(State())
      modifies if room == null then {} else {room, room.router}, ids, known.Values
      ensures known == old(known) && users == old(users) && log == old(log)
      ensures u.userId in old(State()).users
      ensures panicked == RequestPanics(old(State()), u.roomId, u.userId, request)
      ensures var p := Conference.HandleStep(old(State()), u.userId, request, Conference.NoWorker);
              && (!panicked ==> Wired())
              && (!panicked && !p.panicked ==> State() == p)
    {
      hide RoomMatches, Wired, State, Enumerates, ClosedConsumers, Invariant, ProduceBreaks;
      hide Conference.CreateTransportStep, Conference.ConnectStep, Conference.JoinStep, Conference.ProduceDataStep;
      hide Conference.ProduceStep, Conference.CloseStep, Conference.Post, Rooms.Room.Ready;
      ghost var w := State();
      StateMatches(w);
      UserKnown(u, w);
      panicked := false;
      match request {
        case CreateTransport(id, decoded, reply) => HandleCreateWebrtcTransport(u, room, id, decoded, reply);
        case ConnectClientTransport(id, decoded, accepted) => HandleConnectWebrtcTransport(u, room, id, decoded, accepted);
        case Join(id, decoded, told, listed) => panicked := HandleJoin(u, room, id, decoded, told, listed);
        case ProduceData(id, decodes) => HandleProduceData(u, room, id, decodes);
        case Produce(id, decoded, others, owners) => panicked := HandleProduce(u, room, id, decoded, others, owners);
        case CloseProducer(decoded, order) => HandleCloseProducer(u, room, decoded, shifts, order);
      }
    }

    lemma AfterLookup(w: World, u: UserId, request: Conference.ClientRequest, worker: Opening)
      requires u in w.users && !request.GetCapabilities? && !request.UnknownMethod?
      ensures var v := Conference.GetOrCreateRoom(w, w.users[u].roomId, worker);
              v.users == w.users &&
              Conference.HandleStep(v, u, request, Conference.NoWorker) == Conference.HandleStep(w, u, request, worker)
    {
    }

    lemma PanicsAfterLookup(w: World, u: UserId, roomId: RoomId, request: Conference.ClientRequest, worker: Opening)
      requires u in w.users && w.users[u].roomId == roomId
      ensures Panics(w, Conference.Handle(u, request, worker)) <==>
              RequestPanics(Conference.GetOrCreateRoom(w, roomId, worker), roomId, u, request)
    {
    }

    /**
      One turn of the loop that reads u's messages, which panics exactly if the machine's step
      does. The orders range over maps; shifts ranges over the router's consumers, and the
      outcome does not depend on it.
    */
    method ReadMessage(u: User, request: Conference.ClientRequest, worker: Opening, shifts: seq<UserId>)
      returns (panicked: bool)
      requires Valid() && u in users
      requires Conference.Enabled(State(), Conference.Handle(u.userId, request, worker))
      requires Enumerates(shifts, Conference.RouterOf(State(), u.roomId).consumers.Keys)
      modifies this`log, manager, manager.rooms.Values, Routers(), ids, known.Values
      ensures known == old(known) && users == old(users)
      ensures log == old(log) + [Conference.Handle(u.userId, request, worker)]
      ensures u.userId in old(State()).users
      ensures var p := Conference.Step(old(State()), Conference.Handle(u.userId, request, worker));
              panicked == p.panicked && (!panicked ==> Valid() && State() == p)
    {
      hide RoomMatches, Wired, Invariant, State, Enumerates, Conference.GetOrCreateRoom, Conference.HandleStep;
      hide Conference.Enabled, Panics, OrdersFit, Rooms.Room.Ready, Reached, RequestPanics;
      ghost var w, e := State(), Conference.Handle(u.userId, request, worker);
      StateMatches(w);
      ReachedInvariant(w, log);
      UserIn(u, w);
      StepKeeps(w, e);
      if !Panics(w, e) {
        ReachedThen(w, log, e);
      }
      panicked := Serve(u, request, worker, shifts);
      Record(e);
    }

    /** The handling itself. */
    method Serve(u: User, request: Conference.ClientRequest, worker: Opening, shifts: seq<UserId>)
      returns (panicked: bool)
      requires Wired() && u in users && Invariant(State())
      requires Conference.Enabled(State(), Conference.Handle(u.userId, request, worker))
      requires Enumerates(shifts, Conference.RouterOf(State(), u.roomId).consumers.Keys)
      modifies manager, manager.rooms.Values, Routers(), ids, known.Values
      ensures known == old(known) && users == old(users) && log == old(log)
      ensures u.userId in old(State()).users
      ensures panicked == Panics(old(State()), Conference.Handle(u.userId, request, worker))
      ensures var p := Conference.HandleStep(old(State()), u.userId, request, worker);
              && (!panicked ==> Wired())
              && (!panicked && !p.panicked ==> State() == p)
    {
      hide RoomMatches, Wired, Invariant, State, Enumerates, Conference.GetOrCreateRoom, Conference.HandleStep;
      hide Conference.Enabled, Panics, OrdersFit, Rooms.Room.Ready, RequestPanics;
      ghost var w := State();
      StateMatches(w);
      UserIn(u, w);
      PanicsAfterLookup(w, u.userId, u.roomId, request, worker);
      if request.GetCapabilities? || request.UnknownMethod? {
        NoRoomNeeded(u, request, worker);
        panicked := false;
        NeverPanics(Conference.GetOrCreateRoom(w, u.roomId, worker), u.roomId, u.userId, request);
      } else {
        AfterLookup(w, u.userId, request, worker);
        var room := Begin(u, worker);
        if room != null {
          EnabledFits(w, u.userId, room, request, worker, shifts);
        }
        panicked := Dispatch(u, room, request, shifts);
      }
    }

    lemma NeverPanics(v: World, roomId: RoomId, u: UserId, request: Conference.ClientRequest)
      requires request.GetCapabilities? || request.UnknownMethod?
      ensures !RequestPanics(v, roomId, u, request)
    {
    }

    method NoRoomNeeded(u: User, request: Conference.ClientRequest, ghost worker: Opening)
      requires Wired() && u in known.Values && u.open && (request.GetCapabilities? || request.UnknownMethod?)
      modifies u
      ensures Wired()
      ensures u.userId in old(State()).users
      ensures State() == Conference.HandleStep(old(State()), u.userId, request, worker)
    {
      hide RoomMatches, Wired, State, Conference.Post;
      ghost var w := State();
      StateMatches(w);
      UserKnown(u, w);
      if request.GetCapabilities? {
        Send(u, Answer(request.id, true, Capabilities));
      }
    }

    /** A new connection. Its room is opened if need be; if no worker opens one, the user is in no room. */
    method Register(u: User, worker: Opening)
      requires Valid() && u.userId !in known
      requires u.State() == UserState(u.roomId, u.PeerData(), u.firstReqId, u.firstReqId, false, true, [])
      modifies this, manager, manager.rooms.Values, ids
      ensures var e := Conference.Register(u.userId, u.roomId, u.PeerData(), u.firstReqId, worker);
              State() == Conference.Step(old(State()), e) && log == old(log) + [e]
      ensures Valid() && known == old(known)[u.userId := u] && users == old(users) + {u}
    {
      hide RoomMatches, Wired, Invariant, State, Conference.RegisterStep, Reached;
      ghost var w, e := State(), Conference.Register(u.userId, u.roomId, u.PeerData(), u.firstReqId, worker);
      StateMatches(w);
      NewUserEnabled(w, e);
      ReachedThen(w, log, e);
      Connect(u);
      assert known[u.userId] == u;
      Admit(u, w, worker);
      Record(e);
    }

    lemma NewUserEnabled(w: World, e: Conference.ServerEvent)
      requires !w.panicked && e.Register? && e.user !in w.users
      ensures Conference.Enabled(w, e) && !Panics(w, e)
    {
    }

    /** The new user's room; w is the world before the connection was entered. */
    method Admit(u: User, ghost w: World, worker: Opening)
      requires Wired() && u in known.Values
      requires u.State() == UserState(u.roomId, u.PeerData(), u.firstReqId, u.firstReqId, false, true, [])
      requires State() == w.(users := w.users[u.userId := u.State()], connected := w.connected + {u.userId})
      modifies manager, manager.rooms.Values, ids
      ensures Wired() && known == old(known) && users == old(users) && log == old(log)
      ensures State() == Conference.RegisterStep(w, u.userId, u.roomId, u.PeerData(), u.firstReqId, worker)
    {
      hide RoomMatches, Wired, State, Conference.GetOrCreateRoom, Enter, Conference.Update;
      var room := GetOrCreateRoom(u.roomId, worker);
      ghost var v := State();
      StateMatches(v);
      if room != null {
        RoomMatched(room, v.rooms[u.roomId]);
        EnterRoom(u, room);
      }
    }

    /** u leaves its room, and an empty room goes. */
    static ghost function Departed(v: World, u: UserId, roomId: RoomId, peerId: string, order: seq<UserId>): World
      requires roomId in v.rooms
    {
      var room := v.rooms[roomId];
      var left := Conference.Update(v, roomId, Leave(room.state, u), v.nextId, Broadcast(order, u, PeerClosed(peerId)));
      if left.rooms[roomId].state.users != {} then left
      else left.(rooms := left.rooms - {roomId}, closeRequests := left.closeRequests + [room.routerId])
    }

    static ghost function Closed(w: World, u: UserId): World
      requires u in w.users
    {
      w.(users := w.users[u := w.users[u].(open := false)], connected := w.connected - {u})
    }

    lemma UnregisterIs(w: World, u: UserId, worker: Opening, order: seq<UserId>)
      requires u in w.users && w.users[u].open && !w.panicked
      ensures Conference.UnregisterStep(w, u, worker, order) ==
              if u !in w.connected then w
              else
                var roomId := w.users[u].roomId;
                var v := Conference.GetOrCreateRoom(Closed(w, u), roomId, worker);
                if roomId !in v.rooms then v else Departed(v, u, roomId, w.users[u].peer.peerId, order)
    {
    }

    method Depart(u: User, room: Rooms.Room, order: seq<UserId>)
      requires Wired() && u in known.Values
      requires u.roomId in manager.rooms && manager.rooms[u.roomId] == room && room.Ready(known.Values, {u})
      requires Enumerates(order, room.users.Keys - {u.userId})
      modifies manager`rooms, manager`closeRequests, room`users, room`history, known.Values
      ensures Wired() && known == old(known) && users == old(users) && log == old(log)
      ensures u.roomId in old(State()).rooms
      ensures var p := Departed(old(State()), u.userId, u.roomId, u.peerId, order);
              !p.panicked ==> State() == p
    {
      hide RoomMatches, Wired, State, Leave, Conference.Update, Broadcast, Enumerates, Rooms.Room.Ready;
      ghost var w := State();
      StateMatches(w);
      UserKnown(u, w);
      RoomMatched(room, w.rooms[u.roomId]);
      RoomWiredAt(u.roomId);
      LeftRoom(w, u.userId, u.roomId, u.peerId, order);
      LeaveRoom(u, room, order);
      if |room.users| == 0 {
        RemoveRoom(room);
      }
    }

    lemma LeftRoom(w: World, u: UserId, roomId: RoomId, peerId: string, order: seq<UserId>)
      requires roomId in w.rooms
      ensures var room := w.rooms[roomId];
              var left := Conference.Update(w, roomId, Leave(room.state, u), w.nextId, Broadcast(order, u, PeerClosed(peerId)));
              left.rooms[roomId].state.users == room.state.users - {u}
    {
    }

    /** A connection that has ended; if it had ended before, nothing happens. */
    method Unregister(u: User, worker: Opening, order: seq<UserId>)
      requires Valid() && u in known.Values
      requires Enumerates(order, Conference.RoomUsers(State(), u.roomId) - {u.userId})
      modifies this`users, this`log, manager, manager.rooms.Values, ids, known.Values
      ensures u.userId in old(State()).users
      ensures var e := Conference.Unregister(u.userId, worker, order);
              State() == Conference.Step(old(State()), e) && log == old(log) + [e]
      ensures Valid() && known == old(known) && users == old(users) - {u}
    {
      hide RoomMatches, Wired, Invariant, State, Conference.UnregisterStep, Enumerates, Reached;
      ghost var w, e := State(), Conference.Unregister(u.userId, worker, order);
      StateMatches(w);
      UserKnown(u, w);
      ReachedInvariant(w, log);
      ReachedThen(w, log, e);
      if u in users {
        DropConnection(u, worker, order);
      } else {
        NotConnected(u, w);
        GoneBefore(w, u.userId, worker, order);
      }
      Record(e);
    }

    lemma NotConnected(u: User, w: World)
      requires Wired() && Matches(w) && u in known.Values && u !in users
      ensures u.userId !in w.connected
    {
    }

    lemma GoneBefore(w: World, u: UserId, worker: Opening, order: seq<UserId>)
      requires u in w.users && u !in w.connected
      ensures Conference.UnregisterStep(w, u, worker, order) == w
    {
    }

    method DropConnection(u: User, worker: Opening, order: seq<UserId>)
      requires Wired() && u in users && Invariant(State())
      requires Enumerates(order, Conference.RoomUsers(State(), u.roomId) - {u.userId})
      modifies this`users, manager, manager.rooms.Values, ids, known.Values
      ensures Wired() && known == old(known) && users == old(users) - {u} && log == old(log)
      ensures u.userId in old(State()).users
      ensures var p := Conference.UnregisterStep(old(State()), u.userId, worker, order);
              !p.panicked ==> State() == p
    {
      hide RoomMatches, Wired, Invariant, State, Conference.GetOrCreateRoom, Conference.UnregisterStep, Departed, Enumerates;
      hide Rooms.Room.Ready;
      ghost var w := State();
      StateMatches(w);
      UserIn(u, w);
      UnregisterIs(w, u.userId, worker, order);
      Disconnect(u);
      var room := GetOrCreateRoom(u.roomId, worker);
      ghost var v := State();
      StateMatches(v);
      if room != null {
        RoomWiredAt(u.roomId);
        OthersWritable(w, u.userId, u.roomId, worker);
        RoomReady(v, room, {u});
        RoomMatched(room, v.rooms[u.roomId]);
        Depart(u, room, order);
      }
    }

    lemma OthersWritable(w: World, u: UserId, roomId: RoomId, worker: Opening)
      requires u in w.users && Invariant(w)
      ensures var v := Conference.GetOrCreateRoom(Closed(w, u), roomId, worker);
              roomId in v.rooms ==>
                && v.rooms[roomId].state.users == Conference.RoomUsers(w, roomId)
                && forall x | x in v.rooms[roomId].state.users :: x == u || Conference.Writable(v, x)
    {
      if roomId in w.rooms {
        MembersWritable(w, roomId);
      }
    }
  }
}
