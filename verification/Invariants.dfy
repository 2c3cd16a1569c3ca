/**
  What every step of the server keeps: rooms, members, channels, routers and the order of
  messages on each channel.
*/
module Invariants {
  import opened Basics
  import opened History
  import opened Messages
  import opened Routing
  import opened RoomModel
  import opened Subscriptions
  import opened Conference

  /** A channel is open exactly while its user is connected. */
  ghost predicate ChannelsMatch(w: World) {
    forall u :: u in w.connected <==> Writable(w, u)
  }

  ghost predicate Names(w: World, u: UserId, roomId: RoomId) {
    u in w.connected && u in w.users && w.users[u].roomId == roomId
  }

  /** A member of a room is connected, and connected to that room. */
  ghost predicate MembersConnected(w: World) {
    forall roomId, u | roomId in w.rooms && u in w.rooms[roomId].state.users :: Names(w, u, roomId)
  }

  /** No room outlives the last connected user who names it. */
  ghost predicate RoomsNamed(w: World) {
    forall roomId | roomId in w.rooms :: Named(w, roomId)
  }

  ghost predicate Named(w: World, roomId: RoomId) {
    exists u :: Names(w, u, roomId)
  }

  ghost predicate Live(w: World, router: nat) {
    exists roomId :: roomId in w.rooms && w.rooms[roomId].routerId == router
  }

  /**
    Each router whose opening was acknowledged belongs to exactly one room, or has been asked
    to close exactly once; of the others asked for, none is in a room or asked to close.
  */
  ghost predicate RoutersAccounted(w: World) {
    && (forall r | r in w.opens.asked :: r < w.nextId)
    && w.opens.acknowledged <= w.opens.asked
    && (forall r :: r in w.opens.acknowledged <==> r in w.closeRequests || Live(w, r))
    && (forall r | r in w.closeRequests :: !Live(w, r))
    && Distinct(w.closeRequests)
    && (forall a, b | a in w.rooms && b in w.rooms && a != b :: w.rooms[a].routerId != w.rooms[b].routerId)
  }

  ghost predicate KnownUsers(w: World, h: Log) {
    forall i | 0 <= i < |h| :: h[i].user in w.users
  }

  ghost predicate RoomsValid(w: World) {
    forall roomId | roomId in w.rooms ::
      var rm := w.rooms[roomId].state;
      RoomInvariant(rm, w.nextId) && EntersFirst(rm.history) && KnownUsers(w, rm.history)
  }

  /** The server's requests to a user are numbered consecutively, whoever's handler sent them. */
  ghost predicate RequestsNumbered(w: World) {
    forall u | u in w.users :: Numbered(w.users[u])
  }

  /** The mids offered to a member so far are 1, 2, ..., one for each consumer it has. */
  ghost predicate MidsMatch(w: World) {
    forall roomId, v | roomId in w.rooms && v in w.rooms[roomId].state.users && v in w.users ::
      WireMids(w.users[v].sent) == MidsBetween(0, |ConsumersOf(w.rooms[roomId].state.router, v)|)
  }

  ghost predicate Invariant(w: World) {
    && ChannelsMatch(w) && MembersConnected(w) && RoomsNamed(w) && RoutersAccounted(w)
    && RoomsValid(w) && RequestsNumbered(w) && MidsMatch(w)
  }

  lemma StartKeeps()
    ensures Invariant(START)
  {
  }

  lemma EntitledActed(h: Log, i: nat, v: UserId)
    requires EntitledBy(h, i, v)
    ensures exists k | 0 <= k < |h| :: h[k].user == v
  {
    if Present(h[..i], v) {
      var k :| 0 <= k < i && h[..i][k] == Entered(v);
      assert h[k].user == v;
    }
  }

  /** Whoever has consumers in a room has done something there. */
  lemma ConsumersActed(rm: RoomState, nextId: nat, v: UserId)
    requires RoomInvariant(rm, nextId) && ConsumersOf(rm.router, v) != []
    ensures exists k | 0 <= k < |rm.history| :: rm.history[k].user == v
  {
    assert Justified(rm.history, v, ConsumersOf(rm.router, v)[0]);
    var i: nat :| EntitledBy(rm.history, i, v);
    EntitledActed(rm.history, i, v);
  }

  // The mids offered to anybody while one room lasts, member or not.

  function Held(w: World, v: UserId): nat
    requires v in w.users
  {
    |ConsumersOf(RouterOf(w, w.users[v].roomId), v)|
  }

  /** v, whose room is in both worlds, lost no consumer between them, and was offered the next mids for those it gained. */
  ghost predicate Follows(w: World, p: World, v: UserId) {
    v in w.users && v in p.users && p.users[v].roomId == w.users[v].roomId
    && w.users[v].roomId in w.rooms && w.users[v].roomId in p.rooms ==>
      && Held(w, v) <= Held(p, v)
      && WireMids(p.users[v].sent) == WireMids(w.users[v].sent) + MidsBetween(Held(w, v), Held(p, v))
  }

  lemma FollowsSame(w: World, p: World, v: UserId)
    requires v in w.users && v in p.users && WireMids(p.users[v].sent) == WireMids(w.users[v].sent)
    requires w.users[v].roomId in w.rooms && w.users[v].roomId in p.rooms && p.users[v].roomId == w.users[v].roomId ==>
               Held(p, v) == Held(w, v)
    ensures Follows(w, p, v)
  {
    assert MidsBetween(Held(w, v), Held(w, v)) == [];
  }

  lemma FollowsThen(w: World, p: World, q: World, v: UserId)
    requires v in w.users && v in p.users && v in q.users
    requires w.users[v].roomId == p.users[v].roomId == q.users[v].roomId
    requires w.users[v].roomId in w.rooms ==> w.users[v].roomId in p.rooms
    requires Follows(w, p, v) && Follows(p, q, v)
    ensures Follows(w, q, v)
  {
    if w.users[v].roomId in w.rooms && w.users[v].roomId in q.rooms {
      MidsChain(Held(w, v), Held(p, v), Held(q, v));
    }
  }

  // Posting messages.

  ghost predicate AllWritable(w: World, sends: seq<Send>) {
    forall s | s in sends :: s.to in w.connected
  }

  lemma PostUser(w: World, sends: seq<Send>, v: UserId)
    requires v in w.users && Numbered(w.users[v])
    ensures var a, b := w.users[v], Post(w, sends).users[v];
            && Numbered(b)
            && b == a.(sent := b.sent, reqId := b.reqId)
            && ResponseIds(b.sent) == ResponseIds(a.sent) + AnswerIds(v, sends)
            && WireMids(b.sent) == WireMids(a.sent) + OfferedMids(v, sends)
  {
    PutAllEffect(w.users[v], v, sends);
  }

  /** Posting to open channels changes nothing but what has been sent. */
  lemma PostFrame(w: World, sends: seq<Send>)
    requires ChannelsMatch(w) && RequestsNumbered(w) && AllWritable(w, sends)
    ensures var p := Post(w, sends);
            && p.panicked == w.panicked
            && p.users.Keys == w.users.Keys && p.connected == w.connected && p.rooms == w.rooms
            && RequestsNumbered(p)
            && (forall v | v in w.users ::
                  && p.users[v] == w.users[v].(sent := p.users[v].sent, reqId := p.users[v].reqId)
                  && ResponseIds(p.users[v].sent) == ResponseIds(w.users[v].sent) + AnswerIds(v, sends)
                  && WireMids(p.users[v].sent) == WireMids(w.users[v].sent) + OfferedMids(v, sends))
  {
    forall v | v in w.users {
      PostUser(w, sends, v);
    }
  }

  /** The two worlds differ at most in what has been sent, and in a user's name and flags. */
  ghost predicate SamePlaces(w: World, p: World) {
    && p.rooms == w.rooms && p.connected == w.connected && p.nextId >= w.nextId
    && p.opens == w.opens && p.closeRequests == w.closeRequests
    && p.users.Keys == w.users.Keys
    && forall v | v in w.users :: p.users[v].roomId == w.users[v].roomId && p.users[v].open == w.users[v].open
  }

  lemma SamePlacesKeep(w: World, p: World)
    requires SamePlaces(w, p)
    requires ChannelsMatch(w) && MembersConnected(w) && RoomsNamed(w) && RoutersAccounted(w) && RoomsValid(w)
    ensures ChannelsMatch(p) && MembersConnected(p) && RoomsNamed(p) && RoutersAccounted(p) && RoomsValid(p)
  {
    hide RoomInvariant, EntersFirst, Distinct;
    assert forall v :: Writable(p, v) <==> Writable(w, v);
    assert forall v, roomId :: Names(p, v, roomId) <==> Names(w, v, roomId);
    forall roomId | roomId in p.rooms ensures Named(p, roomId) {
      assert Named(w, roomId);
      var u :| Names(w, u, roomId);
      assert Names(p, u, roomId);
    }
    assert forall r :: Live(p, r) <==> Live(w, r);
    forall roomId | roomId in p.rooms ensures RoomInvariant(p.rooms[roomId].state, p.nextId) {
      LargerBound(w.rooms[roomId].state, w.nextId, p.nextId);
    }
  }

  lemma PostKeeps(w: World, sends: seq<Send>)
    requires Invariant(w) && AllWritable(w, sends)
    requires forall v :: OfferedMids(v, sends) == []
    ensures Invariant(Post(w, sends)) && Post(w, sends).panicked == w.panicked && SamePlaces(w, Post(w, sends))
    ensures forall v | v in w.users :: Follows(w, Post(w, sends), v)
    ensures forall v | v in w.users ::
              ResponseIds(Post(w, sends).users[v].sent) == ResponseIds(w.users[v].sent) + AnswerIds(v, sends)
  {
    hide ChannelsMatch, MembersConnected, RoomsNamed, RoutersAccounted, RoomsValid;
    PostFrame(w, sends) by {
      assert ChannelsMatch(w);
    }
    forall v | v in w.users ensures Follows(w, Post(w, sends), v) {
      FollowsSame(w, Post(w, sends), v);
    }
    SamePlacesKeep(w, Post(w, sends));
  }

  lemma RespondKeeps(w: World, u: UserId, id: int, ok: bool, body: Payload)
    requires Invariant(w) && u in w.connected
    ensures Invariant(Respond(w, u, id, ok, body)) && Respond(w, u, id, ok, body).panicked == w.panicked
    ensures SamePlaces(w, Respond(w, u, id, ok, body))
    ensures forall v | v in w.users :: Follows(w, Respond(w, u, id, ok, body), v)
    ensures forall v | v in w.users ::
              ResponseIds(Respond(w, u, id, ok, body).users[v].sent)
              == ResponseIds(w.users[v].sent) + if v == u then [id] else []
  {
    var sends := [Send(u, Answer(id, ok, body))];
    forall v ensures OfferedMids(v, sends) == [] && AnswerIds(v, sends) == if v == u then [id] else [] {
      assert sends[..0] == [];
    }
    hide Follows;
    PostKeeps(w, sends);
  }

  // Changing one room.

  /** u's operation took the room from was to rm and sent the messages. */
  ghost predicate RoomChange(w: World, u: UserId, was: RoomState, rm: RoomState, nextId: nat, sends: seq<Send>) {
    && nextId >= w.nextId
    && RoomInvariant(rm, nextId)
    && rm.users == was.users
    && (rm.history == was.history
        || exists e :: rm.history == was.history + [e] && e.user == u && !e.Entered?)
    && AllWritable(w, sends)
    && (forall v :: ListGrows(was.router, rm.router, v, sends))
    && (forall v | v !in was.users && v != u :: |ConsumersOf(rm.router, v)| == |ConsumersOf(was.router, v)|)
  }

  /** No list shrinks, and each addition was offered under the next mid. */
  ghost predicate ListGrows(r: RouterState, s: RouterState, v: UserId, sends: seq<Send>) {
    && |ConsumersOf(r, v)| <= |ConsumersOf(s, v)|
    && OfferedMids(v, sends) == MidsBetween(|ConsumersOf(r, v)|, |ConsumersOf(s, v)|)
  }

  function WithRoom(w: World, roomId: RoomId, rm: RoomState, nextId: nat): World
    requires roomId in w.rooms
  {
    w.(rooms := w.rooms[roomId := w.rooms[roomId].(state := rm)], nextId := nextId)
  }

  lemma ChangeKeepsRooms(w: World, u: UserId, roomId: RoomId, rm: RoomState, nextId: nat, sends: seq<Send>)
    requires Invariant(w) && Names(w, u, roomId) && roomId in w.rooms
    requires RoomChange(w, u, w.rooms[roomId].state, rm, nextId, sends)
    ensures RoomsValid(WithRoom(w, roomId, rm, nextId))
  {
    hide RoomInvariant, ListGrows, RoutersAccounted, MembersConnected, RoomsNamed, MidsMatch;
    var v := WithRoom(w, roomId, rm, nextId);
    forall other | other in v.rooms
      ensures RoomInvariant(v.rooms[other].state, v.nextId)
    {
      if other != roomId {
        LargerBound(w.rooms[other].state, w.nextId, v.nextId);
      }
    }
  }

  lemma ChangeKeepsPlaces(w: World, u: UserId, roomId: RoomId, rm: RoomState, nextId: nat, sends: seq<Send>)
    requires Invariant(w) && Names(w, u, roomId) && roomId in w.rooms
    requires RoomChange(w, u, w.rooms[roomId].state, rm, nextId, sends)
    ensures var v := WithRoom(w, roomId, rm, nextId);
            ChannelsMatch(v) && MembersConnected(v) && RoomsNamed(v) && RoutersAccounted(v)
  {
    hide RoomInvariant, Distinct, ListGrows, RoomsValid, MidsMatch;
    var v := WithRoom(w, roomId, rm, nextId);
    forall other | other in v.rooms ensures Named(v, other) {
      assert Named(w, other);
      var x :| Names(w, x, other);
      assert Names(v, x, other);
    }
    assert forall x, other :: Names(v, x, other) <==> Names(w, x, other);
    assert forall x :: Writable(v, x) <==> Writable(w, x);
    LiveAfterUpdate(w, v, roomId);
  }

  lemma LiveAfterUpdate(w: World, v: World, roomId: RoomId)
    requires roomId in w.rooms && v.rooms.Keys == w.rooms.Keys
    requires forall x | x in w.rooms :: v.rooms[x].routerId == w.rooms[x].routerId
    ensures forall r :: Live(v, r) <==> Live(w, r)
  {
    forall r ensures Live(v, r) <==> Live(w, r) {
      if Live(w, r) {
        var x :| x in w.rooms && w.rooms[x].routerId == r;
        assert x in v.rooms && v.rooms[x].routerId == r;
      }
      if Live(v, r) {
        var x :| x in v.rooms && v.rooms[x].routerId == r;
        assert x in w.rooms && w.rooms[x].routerId == r;
      }
    }
  }

  lemma MidsChain(lo: nat, mid: nat, hi: nat)
    requires lo <= mid <= hi
    ensures MidsBetween(lo, mid) + MidsBetween(mid, hi) == MidsBetween(lo, hi)
  {
  }

  lemma ChangeKeepsMids(w: World, u: UserId, roomId: RoomId, rm: RoomState, nextId: nat, sends: seq<Send>,
                        other: RoomId, x: UserId)
    requires Invariant(w) && Names(w, u, roomId) && roomId in w.rooms
    requires RoomChange(w, u, w.rooms[roomId].state, rm, nextId, sends)
    requires other in w.rooms && x in w.users && x in w.rooms[other].state.users
    ensures var rm' := if other == roomId then rm else w.rooms[other].state;
            WireMids(w.users[x].sent) + OfferedMids(x, sends) == MidsBetween(0, |ConsumersOf(rm'.router, x)|)
  {
    hide RoomInvariant, EntersFirst;
    var was := w.rooms[roomId].state;
    assert ListGrows(was.router, rm.router, x, sends);
    if other == roomId {
      MidsChain(0, |ConsumersOf(was.router, x)|, |ConsumersOf(rm.router, x)|);
    } else {
      assert w.users[x].roomId == other;
      assert x !in was.users && x != u;
    }
  }

  lemma UpdatePosts(w: World, u: UserId, roomId: RoomId, rm: RoomState, nextId: nat, sends: seq<Send>)
    requires Invariant(w) && Names(w, u, roomId) && roomId in w.rooms
    requires RoomChange(w, u, w.rooms[roomId].state, rm, nextId, sends)
    ensures var v, p := WithRoom(w, roomId, rm, nextId), Update(w, roomId, rm, nextId, sends);
            && SamePlaces(v, p) && p.panicked == w.panicked && RequestsNumbered(p)
            && forall x | x in w.users ::
                 && ResponseIds(p.users[x].sent) == ResponseIds(w.users[x].sent) + AnswerIds(x, sends)
                 && WireMids(p.users[x].sent) == WireMids(w.users[x].sent) + OfferedMids(x, sends)
  {
    hide RoomsNamed, RoutersAccounted, RoomsValid, MembersConnected, RoomInvariant, Numbered;
    PostFrame(WithRoom(w, roomId, rm, nextId), sends);
  }

  lemma UpdateKeeps(w: World, u: UserId, roomId: RoomId, rm: RoomState, nextId: nat, sends: seq<Send>)
    requires Invariant(w) && Names(w, u, roomId) && roomId in w.rooms
    requires RoomChange(w, u, w.rooms[roomId].state, rm, nextId, sends)
    ensures Invariant(Update(w, roomId, rm, nextId, sends))
    ensures Update(w, roomId, rm, nextId, sends).panicked == w.panicked
    ensures SamePlaces(WithRoom(w, roomId, rm, nextId), Update(w, roomId, rm, nextId, sends))
    ensures forall v | v in w.users :: Follows(w, Update(w, roomId, rm, nextId, sends), v)
    ensures forall v | v in w.users ::
              ResponseIds(Update(w, roomId, rm, nextId, sends).users[v].sent)
              == ResponseIds(w.users[v].sent) + AnswerIds(v, sends)
  {
    var v := WithRoom(w, roomId, rm, nextId);
    var p := Update(w, roomId, rm, nextId, sends);
    ChangeKeepsPlaces(w, u, roomId, rm, nextId, sends);
    ChangeKeepsRooms(w, u, roomId, rm, nextId, sends);
    UpdatePosts(w, u, roomId, rm, nextId, sends);
    SamePlacesKeep(v, p);
    UpdateMids(w, u, roomId, rm, nextId, sends);
    UpdateFollows(w, u, roomId, rm, nextId, sends);
    hide *;
    assert Invariant(p) by {
      InvariantFrom(p);
    }
  }

  lemma UpdateFollows(w: World, u: UserId, roomId: RoomId, rm: RoomState, nextId: nat, sends: seq<Send>)
    requires Invariant(w) && Names(w, u, roomId) && roomId in w.rooms
    requires RoomChange(w, u, w.rooms[roomId].state, rm, nextId, sends)
    ensures forall v | v in w.users :: Follows(w, Update(w, roomId, rm, nextId, sends), v)
  {
    var was, p := w.rooms[roomId].state, Update(w, roomId, rm, nextId, sends);
    UpdatePosts(w, u, roomId, rm, nextId, sends);
    forall v | v in w.users ensures Follows(w, p, v) {
      assert ListGrows(was.router, rm.router, v, sends);
      hide RoomChange, WireMids, OfferedMids;
      if w.users[v].roomId == roomId {
        FollowsHere(w, p, roomId, rm, sends, v);
      } else {
        ElsewhereUntouched(w, u, roomId, rm, nextId, sends, v);
        hide ListGrows, Invariant;
        FollowsSame(w, p, v);
      }
    }
  }

  lemma FollowsHere(w: World, p: World, roomId: RoomId, rm: RoomState, sends: seq<Send>, v: UserId)
    requires v in w.users && w.users[v].roomId == roomId && roomId in w.rooms && roomId in p.rooms
    requires p.rooms[roomId].state == rm && v in p.users && p.users[v].roomId == roomId
    requires ListGrows(w.rooms[roomId].state.router, rm.router, v, sends)
    requires WireMids(p.users[v].sent) == WireMids(w.users[v].sent) + OfferedMids(v, sends)
    ensures Follows(w, p, v)
  {
  }

  /** Whoever names another room is not offered anything here. */
  lemma ElsewhereUntouched(w: World, u: UserId, roomId: RoomId, rm: RoomState, nextId: nat, sends: seq<Send>, v: UserId)
    requires MembersConnected(w) && Names(w, u, roomId) && roomId in w.rooms
    requires RoomChange(w, u, w.rooms[roomId].state, rm, nextId, sends)
    requires v in w.users && w.users[v].roomId != roomId
    ensures OfferedMids(v, sends) == []
  {
    var was := w.rooms[roomId].state;
    assert v in was.users ==> Names(w, v, roomId);
    assert ListGrows(was.router, rm.router, v, sends);
    assert MidsBetween(|ConsumersOf(was.router, v)|, |ConsumersOf(was.router, v)|) == [];
  }

  lemma InvariantFrom(w: World)
    requires ChannelsMatch(w) && MembersConnected(w) && RoomsNamed(w) && RoutersAccounted(w)
    requires RoomsValid(w) && RequestsNumbered(w) && MidsMatch(w)
    ensures Invariant(w)
  {
  }

  lemma UpdateMids(w: World, u: UserId, roomId: RoomId, rm: RoomState, nextId: nat, sends: seq<Send>)
    requires Invariant(w) && Names(w, u, roomId) && roomId in w.rooms
    requires RoomChange(w, u, w.rooms[roomId].state, rm, nextId, sends)
    ensures MidsMatch(Update(w, roomId, rm, nextId, sends))
  {
    var p := Update(w, roomId, rm, nextId, sends);
    UpdatePosts(w, u, roomId, rm, nextId, sends);
    forall other, x | other in p.rooms && x in p.rooms[other].state.users && x in p.users
      ensures WireMids(p.users[x].sent) == MidsBetween(0, |ConsumersOf(p.rooms[other].state.router, x)|)
    {
      ChangeKeepsMids(w, u, roomId, rm, nextId, sends, other, x);
    }
  }
}
