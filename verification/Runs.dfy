/** Whole runs of the server, from an empty world. */
module Runs {
  import opened Basics
  import opened Decimal
  import opened History
  import opened Messages
  import opened Routing
  import opened RoomModel
  import opened Subscriptions
  import opened Conference
  import opened Invariants
  import opened Reachable
  import opened Handlers

  /** Each event can happen where the ones before it lead. */
  ghost predicate Legal(w: World, es: seq<ServerEvent>)
    decreases |es|
  {
    es == [] || (Enabled(w, es[0]) && Legal(Step(w, es[0]), es[1..]))
  }

  ghost function After(w: World, es: seq<ServerEvent>): World
    requires Legal(w, es)
    decreases |es|
  {
    if es == [] then w else After(Step(w, es[0]), es[1..])
  }

  /** What panics, told before the event: see JoinsNoRoom and ProducePanics. */
  ghost predicate Panics(w: World, e: ServerEvent) {
    || e.WrongReply?
    || (e.Handle? && (JoinsNoRoom(w, e.user, e.request, e.worker) || ProducesBroken(w, e.user, e.request, e.worker)))
  }

  /** The answers on u's channel so far. */
  function AnswersTo(w: World, u: UserId): seq<int> {
    if u in w.users then ResponseIds(w.users[u].sent) else []
  }

  lemma StepKeeps(w: World, e: ServerEvent)
    requires Enabled(w, e) && Invariant(w)
    ensures Step(w, e).panicked <==> Panics(w, e)
    ensures !Panics(w, e) ==> Invariant(Step(w, e)) && w.users.Keys <= Step(w, e).users.Keys
    ensures !Panics(w, e) ==> forall u :: AnswersTo(Step(w, e), u) == AnswersTo(w, u) + Answered(e, u)
  {
    hide Invariant, RegisterStep, UnregisterStep, HandleStep, ProducesBroken;
    match e {
      case Register(u, roomId, peer, firstReqId, worker) =>
        RegisterKeeps(w, u, roomId, peer, firstReqId, worker);
      case Unregister(u, worker, order) =>
        UnregisterKeeps(w, u, worker, order);
      case Handle(u, request, worker) =>
        if JoinsNoRoom(w, u, request, worker) {
          JoinStepPanics(w, u, request, worker);
        } else {
          HandleKeeps(w, u, request, worker);
        }
      case WrongReply(_) =>
    }
  }

  lemma JoinStepPanics(w: World, u: UserId, request: ClientRequest, worker: Opening)
    requires JoinsNoRoom(w, u, request, worker)
    ensures HandleStep(w, u, request, worker).panicked
  {
  }

  /** No event of the run panics. */
  ghost predicate Unbroken(w: World, es: seq<ServerEvent>)
    requires Legal(w, es)
    decreases |es|
  {
    es == [] || (!Panics(w, es[0]) && Unbroken(Step(w, es[0]), es[1..]))
  }

  /** The numbers of the requests handled for u that call for an answer, in order. */
  function AnsweredIn(es: seq<ServerEvent>, u: UserId): seq<int> {
    if es == [] then [] else Answered(es[0], u) + AnsweredIn(es[1..], u)
  }

  lemma {:induction false} RunKeeps(w: World, es: seq<ServerEvent>)
    requires Legal(w, es) && !w.panicked && Invariant(w)
    ensures After(w, es).panicked <==> !Unbroken(w, es)
    ensures Unbroken(w, es) ==> Invariant(After(w, es))
    ensures Unbroken(w, es) ==>
              forall u :: AnswersTo(After(w, es), u) == AnswersTo(w, u) + AnsweredIn(es, u)
    decreases |es|
  {
    hide Invariant, Panics, Answered, AnswersTo, Enabled, Step;
    if es == [] {
      assert forall u :: AnswersTo(w, u) + [] == AnswersTo(w, u);
    } else {
      EnabledUser(w, es[0]);
      var p := Step(w, es[0]);
      StepKeeps(w, es[0]);
      if Panics(w, es[0]) {
        NothingAfterPanic(p, es[1..]);
      } else {
        RunKeeps(p, es[1..]);
        if Unbroken(w, es) {
          forall u ensures AnswersTo(After(w, es), u) == AnswersTo(w, u) + AnsweredIn(es, u) {
            assert AnswersTo(p, u) + AnsweredIn(es[1..], u)
                == AnswersTo(w, u) + (Answered(es[0], u) + AnsweredIn(es[1..], u));
          }
        }
      }
    }
  }

  lemma EnabledUser(w: World, e: ServerEvent)
    requires Enabled(w, e)
    ensures e.Register? || e.WrongReply? || e.user in w.users
  {
  }

  /** Nothing happens after a panic. */
  lemma NothingAfterPanic(w: World, es: seq<ServerEvent>)
    requires w.panicked && Legal(w, es)
    ensures es == []
  {
  }

  ghost predicate Reached(w: World, es: seq<ServerEvent>) {
    Legal(START, es) && w == After(START, es) && !w.panicked
  }

  lemma {:induction false} LegalThen(w: World, es: seq<ServerEvent>, e: ServerEvent)
    requires Legal(w, es) && Enabled(After(w, es), e)
    ensures Legal(w, es + [e]) && After(w, es + [e]) == Step(After(w, es), e)
    decreases |es|
  {
    hide Enabled, Step;
    EnabledUser(After(w, es), e);
    if es == [] {
      assert (es + [e])[1..] == [];
    } else {
      EnabledUser(w, es[0]);
      assert (es + [e])[1..] == es[1..] + [e];
      LegalThen(Step(w, es[0]), es[1..], e);
    }
  }

  /** One more event that does not panic. */
  lemma ReachedThen(w: World, es: seq<ServerEvent>, e: ServerEvent)
    requires Reached(w, es) && Enabled(w, e) && !Panics(w, e)
    ensures Reached(Step(w, e), es + [e]) && Invariant(Step(w, e)) && !Step(w, e).panicked
  {
    ReachedInvariant(w, es);
    StepKeeps(w, e);
    LegalThen(START, es, e);
  }

  lemma ReachedInvariant(w: World, es: seq<ServerEvent>)
    requires Reached(w, es)
    ensures Invariant(w)
  {
    StartKeeps();
    RunKeeps(START, es);
  }

  /**
    The server panics exactly in the runs in which, before some event, one could have told:
    the event is a join that finds no room and no worker to open one, a produce that meets
    media parameters it cannot work with, its own or stored ones, or gets a reply of another
    type from a worker. In particular no message is ever sent on a closed channel, and no
    channel is closed twice.
  */
  lemma PanicsExactly(es: seq<ServerEvent>)
    requires Legal(START, es)
    ensures After(START, es).panicked <==> !Unbroken(START, es)
  {
    StartKeeps();
    RunKeeps(START, es);
  }

  /** In every room of every reached world, users present consume each other's live producers exactly as promised. */
  lemma RunSubscriptions(w: World, es: seq<ServerEvent>, roomId: RoomId, i: nat, v: UserId)
    requires Reached(w, es) && roomId in w.rooms
    requires var rm := w.rooms[roomId].state;
             Open(rm.history, i) && rm.history[i].user in rm.users && v in rm.users && v != rm.history[i].user
    ensures var rm := w.rooms[roomId].state;
            Holds(ConsumersOf(rm.router, v), rm.history[i].producerId) <==>
            Present(rm.history[..i], v) || ProducedSince(rm.history, i, v)
  {
    ReachedInvariant(w, es);
    SubscriptionPromise(w.rooms[roomId].state, w.nextId, i, v);
  }

  /** In no reached world does anybody consume its own live producer, or a live producer under another kind. */
  lemma RunKinds(w: World, es: seq<ServerEvent>, roomId: RoomId, i: nat, v: UserId)
    requires Reached(w, es) && roomId in w.rooms && Open(w.rooms[roomId].state.history, i)
    ensures var rm := w.rooms[roomId].state;
            && !Holds(ConsumersOf(rm.router, rm.history[i].user), rm.history[i].producerId)
            && forall c | c in ConsumersOf(rm.router, v) && c.producerId == rm.history[i].producerId ::
                 c.kind == rm.history[i].kind
  {
    ReachedInvariant(w, es);
    HoldsIffEntitled(w.rooms[roomId].state, w.nextId, i, v);
  }

  /** A member is a connected user of that room with an open channel, and no room is left behind. */
  lemma RunMembers(w: World, es: seq<ServerEvent>, roomId: RoomId)
    requires Reached(w, es) && roomId in w.rooms
    ensures forall u | u in w.rooms[roomId].state.users ::
              u in w.connected && u in w.users && w.users[u].open && w.users[u].roomId == roomId
    ensures exists u | u in w.connected :: u in w.users && w.users[u].roomId == roomId
  {
    ReachedInvariant(w, es);
    assert Named(w, roomId);
    var u :| Names(w, u, roomId);
    forall x | x in w.rooms[roomId].state.users ensures Names(w, x, roomId) && Writable(w, x) {
    }
  }

  /**
    A router asked for is in a room or has been asked to close, not both, exactly if its
    opening was acknowledged; no router is in two rooms, or asked to close twice, or asked
    to close without having been asked for.
  */
  lemma RunRouters(w: World, es: seq<ServerEvent>)
    requires Reached(w, es)
    ensures forall r | r in w.opens.asked ::
              if r in w.opens.acknowledged then r in w.closeRequests <==> !Live(w, r)
              else r !in w.closeRequests && !Live(w, r)
    ensures forall r | r in w.closeRequests || Live(w, r) :: r in w.opens.asked
    ensures Distinct(w.closeRequests)
    ensures forall a, b | a in w.rooms && b in w.rooms && a != b :: w.rooms[a].routerId != w.rooms[b].routerId
  {
    ReachedInvariant(w, es);
  }

  /** Answers come one for each handled request, in the order handled; requests are numbered in the order sent. */
  lemma RunMessages(w: World, es: seq<ServerEvent>, u: UserId)
    requires Reached(w, es) && u in w.users
    ensures ResponseIds(w.users[u].sent) == AnsweredIn(es, u)
    ensures forall k | 0 <= k < |RequestIds(w.users[u].sent)| ::
              RequestIds(w.users[u].sent)[k] == w.users[u].firstReqId + k
  {
    StartKeeps();
    RunKeeps(START, es);
    assert AnswersTo(START, u) == [];
    assert Numbered(w.users[u]);
  }

  /** All mids a member was ever offered differ, and as numbers they increase. */
  lemma RunMids(w: World, es: seq<ServerEvent>, roomId: RoomId, u: UserId)
    requires Reached(w, es) && roomId in w.rooms && u in w.rooms[roomId].state.users
    ensures u in w.users
    ensures var mids := WireMids(w.users[u].sent);
            && |mids| == |ConsumersOf(w.rooms[roomId].state.router, u)|
            && Distinct(mids)
            && forall k | 0 <= k < |mids| :: Atoi(mids[k]) == k + 1
  {
    ReachedInvariant(w, es);
    assert Names(w, u, roomId);
    hide Atoi, Itoa;
    MidsAreNumbers(|ConsumersOf(w.rooms[roomId].state.router, u)|);
  }

  lemma StepFollows(w: World, e: ServerEvent, v: UserId)
    requires Enabled(w, e) && !Panics(w, e) && v in w.users && Invariant(w)
    ensures var p := Step(w, e);
            v in p.users && p.users[v].roomId == w.users[v].roomId && Follows(w, p, v)
  {
    hide Invariant, RegisterStep, UnregisterStep, HandleStep, ProducesBroken, Follows;
    match e {
      case Register(u, roomId, peer, firstReqId, worker) =>
        RegisterFollows(w, u, roomId, peer, firstReqId, worker);
      case Unregister(u, worker, order) =>
        UnregisterFollows(w, u, worker, order);
      case Handle(u, request, worker) =>
        HandleKeeps(w, u, request, worker);
    }
  }

  /** The room is there after every event of the run. */
  ghost predicate Lasts(w: World, es: seq<ServerEvent>, roomId: RoomId)
    requires Legal(w, es)
    decreases |es|
  {
    roomId in w.rooms && (es == [] || Lasts(Step(w, es[0]), es[1..], roomId))
  }

  lemma {:induction false} RunFollows(w: World, es: seq<ServerEvent>, v: UserId)
    requires Legal(w, es) && Unbroken(w, es) && v in w.users && Lasts(w, es, w.users[v].roomId) && Invariant(w)
    ensures var p := After(w, es);
            v in p.users && p.users[v].roomId == w.users[v].roomId && p.users[v].roomId in p.rooms && Follows(w, p, v)
    decreases |es|
  {
    hide Invariant, Panics, Enabled, Step, Follows;
    if es == [] {
      FollowsSame(w, w, v);
    } else {
      EnabledUser(w, es[0]);
      StepKeeps(w, es[0]);
      StepFollows(w, es[0], v);
      LastsNext(w, es, w.users[v].roomId);
      RunFollows(Step(w, es[0]), es[1..], v);
      FollowsThen(w, Step(w, es[0]), After(w, es), v);
    }
  }

  lemma LastsNext(w: World, es: seq<ServerEvent>, roomId: RoomId)
    requires Legal(w, es) && Lasts(w, es, roomId) && es != []
    ensures roomId in Step(w, es[0]).rooms && Lasts(Step(w, es[0]), es[1..], roomId)
  {
  }

  /**
    While a room lasts nobody who names it loses a consumer, member or not, and the mids
    offered to it in that time go on counting from the number of consumers it had: they are
    distinct and increasing.
  */
  lemma RoomMids(w: World, es: seq<ServerEvent>, fs: seq<ServerEvent>, p: World, u: UserId)
    requires Reached(w, es) && Legal(w, fs) && p == After(w, fs) && !p.panicked
    requires u in w.users && Lasts(w, fs, w.users[u].roomId)
    ensures u in p.users && p.users[u].roomId == w.users[u].roomId
    ensures var was, now := WireMids(w.users[u].sent), WireMids(p.users[u].sent);
            && Held(w, u) <= Held(p, u)
            && was <= now && |now| - |was| == Held(p, u) - Held(w, u)
            && forall k | |was| <= k < |now| :: Atoi(now[k]) == Held(w, u) + 1 + (k - |was|)
  {
    ReachedInvariant(w, es);
    RunKeeps(w, fs);
    LastsNow(w, fs, w.users[u].roomId);
    RunFollows(w, fs, u);
    FollowedMids(w, p, u);
  }

  lemma FollowedMids(w: World, p: World, u: UserId)
    requires u in w.users && u in p.users && p.users[u].roomId == w.users[u].roomId
    requires w.users[u].roomId in w.rooms && w.users[u].roomId in p.rooms && Follows(w, p, u)
    ensures var was, now := WireMids(w.users[u].sent), WireMids(p.users[u].sent);
            && Held(w, u) <= Held(p, u)
            && was <= now && |now| - |was| == Held(p, u) - Held(w, u)
            && forall k | |was| <= k < |now| :: Atoi(now[k]) == Held(w, u) + 1 + (k - |was|)
  {
    hide Atoi, Itoa, WireMids, Held;
    var was, now := WireMids(w.users[u].sent), WireMids(p.users[u].sent);
    forall k | |was| <= k < |now| ensures Atoi(now[k]) == Held(w, u) + 1 + (k - |was|) {
      AtoiItoa(Held(w, u) + 1 + (k - |was|));
    }
  }

  lemma LastsNow(w: World, es: seq<ServerEvent>, roomId: RoomId)
    requires Legal(w, es) && Lasts(w, es, roomId)
    ensures roomId in w.rooms
  {
  }

  lemma MidsAreNumbers(n: nat)
    ensures var mids := MidsBetween(0, n);
            Distinct(mids) && forall k | 0 <= k < n :: Atoi(mids[k]) == k + 1
  {
    forall k: nat | k < n ensures Atoi(MidsBetween(0, n)[k]) == k + 1 {
      AtoiItoa(k + 1);
    }
  }

  /** A room's router is asked to close in the very step that removes the room, and at no other time. */
  lemma ClosingSteps(w: World, e: ServerEvent)
    requires Enabled(w, e)
    ensures (e.Unregister? && e.user in w.connected) ==> ClosesOnRemoval(w, w.users[e.user].roomId, Step(w, e))
    ensures (e.Unregister? && e.user in w.connected) ==>
              forall r | r in w.rooms && r != w.users[e.user].roomId :: r in Step(w, e).rooms
    ensures !(e.Unregister? && e.user in w.connected) ==>
              KeepsRooms(w, Step(w, e))
  {
    if e.Unregister? && e.user in w.connected {
      UnregisterRooms(w, e.user, e.worker, e.order);
      hide UnregisterStep, Invariant;
    }
  }
}
