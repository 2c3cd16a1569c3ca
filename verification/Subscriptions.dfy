/**
  Who consumes whom. In every state a room can reach, a user holds a consumer of a live
  producer exactly when the room's history entitles it to one.
*/
module Subscriptions {
  import opened Basics
  import opened History
  import opened Messages
  import opened Routing
  import opened RoomModel

  ghost predicate Open(h: Log, i: nat) {
    i < |h| && OpenAt(h, i, |h|)
  }

  ghost predicate IdsBelow(h: Log, bound: nat) {
    && FreshIds(h, bound)
    && forall i | 0 <= i < |h| && h[i].Closed? :: h[i].producerId < bound
  }

  ghost predicate UsersMatch(rm: RoomState) {
    forall u :: u in rm.users <==> Present(rm.history, u)
  }

  ghost predicate Recorded(h: Log, u: UserId, p: Producer) {
    exists i: nat :: Open(h, i) && h[i] == Produced(u, p.producerId, p.kind)
  }

  ghost predicate DistinctIds(ps: seq<Producer>) {
    forall i, j | 0 <= i < j < |ps| :: ps[i].producerId != ps[j].producerId
  }

  /** The router lists exactly the producers that are still open. */
  ghost predicate ProducersMatch(rm: RoomState) {
    && (forall u :: DistinctIds(ProducersOf(rm.router, u)))
    && (forall u, j | 0 <= j < |ProducersOf(rm.router, u)| :: Recorded(rm.history, u, ProducersOf(rm.router, u)[j]))
    && (forall i: nat | Open(rm.history, i) ::
          Supplies(ProducersOf(rm.router, rm.history[i].user), rm.history[i].producerId, rm.history[i].kind))
  }

  ghost predicate Justified(h: Log, v: UserId, c: Consumer) {
    exists i: nat :: EntitledBy(h, i, v) && h[i].producerId == c.producerId && h[i].kind == c.kind
  }

  /** Every consumer is one its user is entitled to, and no entitlement to an open producer is unmet. */
  ghost predicate ConsumersMatch(rm: RoomState) {
    && (forall v, j | 0 <= j < |ConsumersOf(rm.router, v)| :: Justified(rm.history, v, ConsumersOf(rm.router, v)[j]))
    && (forall v, i: nat | EntitledBy(rm.history, i, v) && Open(rm.history, i) ::
          Holds(ConsumersOf(rm.router, v), rm.history[i].producerId))
  }

  ghost predicate RoomInvariant(rm: RoomState, nextId: nat) {
    IdsBelow(rm.history, nextId) && UsersMatch(rm) && ProducersMatch(rm) && ConsumersMatch(rm)
  }

  function EmptyRoom(workerId: string): RoomState {
    RoomState({}, EmptyRouter(workerId), [])
  }

  lemma EmptyRoomHolds(workerId: string, nextId: nat)
    ensures RoomInvariant(EmptyRoom(workerId), nextId)
  {
  }

  lemma LargerBound(rm: RoomState, nextId: nat, bound: nat)
    requires RoomInvariant(rm, nextId) && nextId <= bound
    ensures RoomInvariant(rm, bound)
  {
  }

  /** Entering and leaving opens nothing, closes nothing and entitles nobody. */
  lemma QuietEvent(h: Log, e: Event, i: nat, v: UserId)
    requires e.Entered? || e.Left?
    ensures Open(h + [e], i) <==> Open(h, i)
    ensures EntitledBy(h + [e], i, v) <==> EntitledBy(h, i, v)
  {
    EntitledByAppend(h, e, i, v);
    assert (h + [e])[..|h| + 1] == h + [e];
    assert h[..|h|] == h;
  }

  lemma RecordedGrows(h: Log, e: Event, u: UserId, p: Producer)
    requires Recorded(h, u, p)
    requires e != Closed(u, p.producerId)
    ensures Recorded(h + [e], u, p)
  {
    var i: nat :| Open(h, i) && h[i] == Produced(u, p.producerId, p.kind);
    var g := h + [e];
    assert g[..|g|] == h[..|h|] + [e];
    assert Open(g, i) && g[i] == h[i];
  }

  lemma JustifiedGrows(h: Log, e: Event, v: UserId, c: Consumer)
    requires Justified(h, v, c)
    ensures Justified(h + [e], v, c)
  {
    var i: nat :| EntitledBy(h, i, v) && h[i].producerId == c.producerId && h[i].kind == c.kind;
    EntitledByGrows(h, e, i, v);
    assert (h + [e])[i] == h[i];
  }

  lemma QuietStep(rm: RoomState, nextId: nat, e: Event, users: set<UserId>)
    requires RoomInvariant(rm, nextId)
    requires e.Entered? || e.Left?
    requires users == if e.Entered? then rm.users + {e.user} else rm.users - {e.user}
    ensures RoomInvariant(RoomState(users, rm.router, rm.history + [e]), nextId)
  {
    hide EntitledBy;
    var h, g := rm.history, rm.history + [e];
    forall u ensures u in users <==> Present(g, u) {
      PresentAppend(h, e, u);
    }
    forall u, j | 0 <= j < |ProducersOf(rm.router, u)| ensures Recorded(g, u, ProducersOf(rm.router, u)[j]) {
      RecordedGrows(h, e, u, ProducersOf(rm.router, u)[j]);
    }
    forall v, j | 0 <= j < |ConsumersOf(rm.router, v)| ensures Justified(g, v, ConsumersOf(rm.router, v)[j]) {
      JustifiedGrows(h, e, v, ConsumersOf(rm.router, v)[j]);
    }
    forall i: nat | Open(g, i)
      ensures i < |h| && g[i] == h[i] && Open(h, i)
    {
      QuietEvent(h, e, i, e.user);
    }
    forall v, i: nat | EntitledBy(g, i, v) && Open(g, i)
      ensures Holds(ConsumersOf(rm.router, v), g[i].producerId)
    {
      QuietEvent(h, e, i, v);
    }
  }

  lemma EnterKeeps(rm: RoomState, nextId: nat, u: UserId)
    requires RoomInvariant(rm, nextId)
    ensures RoomInvariant(Enter(rm, u), nextId)
  {
    if u !in rm.users {
      QuietStep(rm, nextId, Entered(u), rm.users + {u});
    }
  }

  lemma LeaveKeeps(rm: RoomState, nextId: nat, u: UserId)
    requires RoomInvariant(rm, nextId)
    ensures RoomInvariant(Leave(rm, u), nextId)
  {
    QuietStep(rm, nextId, Left(u), rm.users - {u});
  }

  lemma ConnectKeeps(rm: RoomState, nextId: nat, u: UserId, direction: Direction, id: string)
    requires RoomInvariant(rm, nextId)
    ensures RoomInvariant(ConnectTransport(rm, u, direction, id), nextId)
  {
    var r, s := rm.router, ConnectTransport(rm, u, direction, id).router;
    assert forall v :: ProducersOf(s, v) == ProducersOf(r, v) && ConsumersOf(s, v) == ConsumersOf(r, v);
  }

  /** Producing opens the new producer, and grants just what the two loops hand out. */
  lemma ProducedEvent(h: Log, e: Event, i: nat, v: UserId, bound: nat)
    requires e.Produced? && IdsBelow(h, bound) && bound <= e.producerId
    ensures Open(h + [e], i) <==> Open(h, i) || i == |h|
    ensures EntitledBy(h + [e], i, v) <==> EntitledBy(h, i, v) || Grants(h, e, i, v)
  {
    EntitledByAppend(h, e, i, v);
    assert (h + [e])[..|h| + 1] == h + [e];
    assert h[..|h|] == h;
  }

  ghost predicate Unused(r: RouterState, p: nat) {
    forall x :: !Holds(ConsumersOf(r, x), p)
  }

  /** What the loops of Produce do to one user's list. */
  lemma ProduceLists(r: RouterState, nextId: nat, peers: map<UserId, Peer>, u: UserId, request: ProduceRequest, others: seq<UserId>, owners: seq<UserId>, v: UserId)
    requires Unused(r, nextId) && Distinct(others)
    ensures var e := ProduceEffect(r, nextId, peers, u, request, others, owners);
            var cs, ds := ConsumersOf(r, v), ConsumersOf(e.router, v);
            && Extends(Effect(WithProducer(r, u, NewProducer(nextId, request)), nextId + 1, [], request.shape.nullEncoding && r.workerId != ""), e, v)
            && (v != u && v in others ==>
                  exists c :: ds == cs + [c] && c.producerId == nextId && c.kind == request.kind)
            && (v != u && v !in others ==> ds == cs)
            && (v == u ==> NewOnesSupplied(Effect(r, nextId, [], false), e, u, request.kind,
                                           iset q | OthersSupply(r, u, owners, q, request.kind)))
  {
    hide Extends;
    var p := NewProducer(nextId, request);
    var a := Effect(WithProducer(r, u, p), nextId + 1, [], request.shape.nullEncoding && r.workerId != "");
    var b := OfferToOthers(a, u, p, PeerIdOf(peers, u), others);
    var e := PullFromOthers(b, u, p.kind, peers, owners);
    assert forall x :: ConsumersOf(a.router, x) == ConsumersOf(r, x);
    OfferToOthersEffect(a, u, p, PeerIdOf(peers, u), others, v);
    PullFromOthersEffect(b, u, p.kind, peers, owners, v);
    ExtendsTransitive(a, b, e, v);
    if v == u {
      SameSupply(r, b.router, u, owners, p.kind) by {
        OfferedProducers(a, b, v);
      }
    }
  }

  lemma OfferedProducers(a: Effect, b: Effect, v: UserId)
    requires Extends(a, b, v)
    ensures b.router.producers == a.router.producers
  {
  }

  lemma SameSupply(r: RouterState, s: RouterState, u: UserId, order: seq<UserId>, kind: string)
    requires forall x | x != u :: ProducersOf(r, x) == ProducersOf(s, x)
    ensures (iset q | OthersSupply(r, u, order, q, kind)) == (iset q | OthersSupply(s, u, order, q, kind))
  {
  }

  lemma UnusedId(rm: RoomState, nextId: nat)
    requires RoomInvariant(rm, nextId)
    ensures Unused(rm.router, nextId)
  {
    forall v, j | 0 <= j < |ConsumersOf(rm.router, v)|
      ensures ConsumersOf(rm.router, v)[j].producerId != nextId
    {
      assert Justified(rm.history, v, ConsumersOf(rm.router, v)[j]);
    }
  }

  lemma ProduceSupplies(rm: RoomState, nextId: nat, p: Producer, u: UserId, i: nat)
    requires RoomInvariant(rm, nextId) && p.producerId == nextId
    requires Open(rm.history + [Produced(u, nextId, p.kind)], i)
    ensures var g := rm.history + [Produced(u, nextId, p.kind)];
            Supplies(ProducersOf(WithProducer(rm.router, u, p), g[i].user), g[i].producerId, g[i].kind)
  {
    var h := rm.history;
    var g := h + [Produced(u, nextId, p.kind)];
    ProducedEvent(h, Produced(u, nextId, p.kind), i, u, nextId);
    var ps, qs := ProducersOf(rm.router, g[i].user), ProducersOf(WithProducer(rm.router, u, p), g[i].user);
    if i < |h| {
      var j :| 0 <= j < |ps| && ps[j].producerId == h[i].producerId && ps[j].kind == h[i].kind;
      assert qs[j] == ps[j];
    } else {
      assert qs[|qs| - 1] == p;
    }
  }

  lemma ProduceRecorded(rm: RoomState, nextId: nat, p: Producer, u: UserId, x: UserId)
    requires RoomInvariant(rm, nextId) && p.producerId == nextId
    ensures var qs := ProducersOf(WithProducer(rm.router, u, p), x);
            && (forall j | 0 <= j < |qs| :: Recorded(rm.history + [Produced(u, nextId, p.kind)], x, qs[j]))
            && DistinctIds(qs)
  {
    hide Open;
    var h, e := rm.history, Produced(u, nextId, p.kind);
    var ps, qs := ProducersOf(rm.router, x), ProducersOf(WithProducer(rm.router, u, p), x);
    forall j | 0 <= j < |ps| ensures Recorded(h + [e], x, ps[j]) && ps[j].producerId < nextId {
      assert Recorded(h, x, ps[j]);
      RecordedGrows(h, e, x, ps[j]);
      RecordedBelow(h, x, ps[j], nextId);
    }
    if x == u {
      ProducedEvent(h, e, |h|, u, nextId);
      assert Recorded(h + [e], u, p) by {
        assert Open(h + [e], |h|) && (h + [e])[|h|] == e;
      }
      assert qs == ps + [p];
    }
  }

  lemma RecordedBelow(h: Log, u: UserId, p: Producer, bound: nat)
    requires Recorded(h, u, p) && IdsBelow(h, bound)
    ensures p.producerId < bound
  {
  }

  lemma ProducePresent(rm: RoomState, nextId: nat, p: Producer, u: UserId, rm': RoomState)
    requires RoomInvariant(rm, nextId) && p.producerId == nextId
    requires rm'.users == rm.users && rm'.history == rm.history + [Produced(u, nextId, p.kind)]
    requires rm'.router.producers == WithProducer(rm.router, u, p).producers
    ensures UsersMatch(rm') && ProducersMatch(rm')
  {
    hide Recorded, Supplies, DistinctIds;
    assert forall x :: ProducersOf(rm'.router, x) == ProducersOf(WithProducer(rm.router, u, p), x);
    forall x ensures x in rm'.users <==> Present(rm'.history, x) {
      PresentAppend(rm.history, Produced(u, nextId, p.kind), x);
    }
    forall x
      ensures DistinctIds(ProducersOf(rm'.router, x))
      ensures forall j | 0 <= j < |ProducersOf(rm'.router, x)| ::
                Recorded(rm'.history, x, ProducersOf(rm'.router, x)[j])
    {
      ProduceRecorded(rm, nextId, p, u, x);
    }
    forall i: nat | Open(rm'.history, i)
      ensures Supplies(ProducersOf(rm'.router, rm'.history[i].user), rm'.history[i].producerId, rm'.history[i].kind)
    {
      ProduceSupplies(rm, nextId, p, u, i);
    }
  }

  lemma ProduceJustified(rm: RoomState, nextId: nat, peers: map<UserId, Peer>, u: UserId, request: ProduceRequest, others: seq<UserId>, owners: seq<UserId>, v: UserId, c: Consumer)
    requires RoomInvariant(rm, nextId)
    requires Enumerates(others, rm.users) && Enumerates(owners, rm.users)
    requires c in ConsumersOf(ProduceIn(rm, nextId, peers, u, request, others, owners).router, v)
    ensures Justified(rm.history + [Produced(u, nextId, request.kind)], v, c)
  {
    var h, e := rm.history, Produced(u, nextId, request.kind);
    UnusedId(rm, nextId);
    ProduceLists(rm.router, nextId, peers, u, request, others, owners, v);
    var cs := ConsumersOf(rm.router, v);
    if j :| 0 <= j < |cs| && cs[j] == c {
      JustifiedGrows(h, e, v, c);
    } else if v != u {
      hide ProduceEffect;
      assert v in rm.users && c.producerId == nextId && c.kind == request.kind;
      OfferJustified(rm, nextId, u, request.kind, v, c);
    } else {
      hide ProduceEffect;
      assert OthersSupply(rm.router, u, owners, c.producerId, request.kind) && c.kind == request.kind;
      PullJustified(rm, nextId, u, request.kind, owners, c);
    }
  }

  /** A member is entitled to what is produced in its presence. */
  lemma OfferJustified(rm: RoomState, nextId: nat, u: UserId, kind: string, v: UserId, c: Consumer)
    requires RoomInvariant(rm, nextId)
    requires v in rm.users && v != u && c.producerId == nextId && c.kind == kind
    ensures Justified(rm.history + [Produced(u, nextId, kind)], v, c)
  {
    var h, e := rm.history, Produced(u, nextId, kind);
    ProducedEvent(h, e, |h|, v, nextId);
    assert EntitledBy(h + [e], |h|, v) && (h + [e])[|h|] == e;
  }

  /** Producing entitles to what the others produce of that kind. */
  lemma PullJustified(rm: RoomState, nextId: nat, u: UserId, kind: string, owners: seq<UserId>, c: Consumer)
    requires RoomInvariant(rm, nextId) && Enumerates(owners, rm.users)
    requires OthersSupply(rm.router, u, owners, c.producerId, kind) && c.kind == kind
    ensures Justified(rm.history + [Produced(u, nextId, kind)], u, c)
  {
    var h, e := rm.history, Produced(u, nextId, kind);
    var k :| 0 <= k < |owners| && owners[k] != u && Supplies(ProducersOf(rm.router, owners[k]), c.producerId, kind);
    var ps := ProducersOf(rm.router, owners[k]);
    var j :| 0 <= j < |ps| && ps[j].producerId == c.producerId && ps[j].kind == kind;
    assert Recorded(h, owners[k], ps[j]);
    var i: nat :| Open(h, i) && h[i] == Produced(owners[k], ps[j].producerId, ps[j].kind);
    assert owners[k] in rm.users;
    ProducedEvent(h, e, i, u, nextId);
    assert Grants(h, e, i, u) && (h + [e])[i] == h[i];
  }

  /** What the others produce of that kind has been pulled. */
  lemma PulledComplete(rm: RoomState, nextId: nat, peers: map<UserId, Peer>, u: UserId, request: ProduceRequest,
                       others: seq<UserId>, owners: seq<UserId>, i: nat)
    requires RoomInvariant(rm, nextId)
    requires Enumerates(others, rm.users) && Enumerates(owners, rm.users)
    requires Open(rm.history, i) && rm.history[i].user != u && rm.history[i].kind == request.kind
    requires rm.history[i].user in rm.users
    ensures Holds(ConsumersOf(ProduceEffect(rm.router, nextId, peers, u, request, others, owners).router, u),
                  rm.history[i].producerId)
  {
    UnusedId(rm, nextId);
    ProduceLists(rm.router, nextId, peers, u, request, others, owners, u);
    var h := rm.history;
    assert h[i].user in owners;
    var k :| 0 <= k < |owners| && owners[k] == h[i].user;
    assert Supplies(ProducersOf(rm.router, owners[k]), h[i].producerId, h[i].kind);
    assert OthersSupply(rm.router, u, owners, h[i].producerId, request.kind);
  }

  /** Whoever was there has been offered the new producer, and nothing was taken away. */
  lemma OfferedComplete(rm: RoomState, nextId: nat, peers: map<UserId, Peer>, u: UserId, request: ProduceRequest,
                        others: seq<UserId>, owners: seq<UserId>, v: UserId, q: nat)
    requires RoomInvariant(rm, nextId) && Enumerates(others, rm.users)
    requires Holds(ConsumersOf(rm.router, v), q) || (q == nextId && v in rm.users && v != u)
    ensures Holds(ConsumersOf(ProduceEffect(rm.router, nextId, peers, u, request, others, owners).router, v), q)
  {
    UnusedId(rm, nextId);
    ProduceLists(rm.router, nextId, peers, u, request, others, owners, v);
    var cs := ConsumersOf(rm.router, v);
    var ds := ConsumersOf(ProduceEffect(rm.router, nextId, peers, u, request, others, owners).router, v);
    if j :| 0 <= j < |cs| && cs[j].producerId == q {
      assert ds[j] == cs[j];
    } else {
      assert ds[|cs|].producerId == nextId;
    }
  }

  lemma ProduceComplete(rm: RoomState, nextId: nat, peers: map<UserId, Peer>, u: UserId, request: ProduceRequest,
                        others: seq<UserId>, owners: seq<UserId>, v: UserId, i: nat)
    requires RoomInvariant(rm, nextId)
    requires Enumerates(others, rm.users) && Enumerates(owners, rm.users)
    requires var g := rm.history + [Produced(u, nextId, request.kind)]; EntitledBy(g, i, v) && Open(g, i)
    ensures Holds(ConsumersOf(ProduceIn(rm, nextId, peers, u, request, others, owners).router, v),
                  (rm.history + [Produced(u, nextId, request.kind)])[i].producerId)
  {
    var h, e := rm.history, Produced(u, nextId, request.kind);
    var g := h + [e];
    ProducedEvent(h, e, i, v, nextId);
    hide ProduceEffect, Holds, EntitledBy;
    assert UsersMatch(rm);
    if i == |h| {
      OfferedComplete(rm, nextId, peers, u, request, others, owners, v, nextId);
    } else if EntitledBy(h, i, v) {
      assert Open(h, i) && g[i] == h[i];
      OfferedComplete(rm, nextId, peers, u, request, others, owners, v, h[i].producerId);
    } else {
      assert Open(h, i) && g[i] == h[i];
      PulledComplete(rm, nextId, peers, u, request, others, owners, i);
    }
  }

  lemma ProduceFrame(rm: RoomState, nextId: nat, peers: map<UserId, Peer>, u: UserId, request: ProduceRequest, others: seq<UserId>, owners: seq<UserId>)
    requires RoomInvariant(rm, nextId)
    requires Enumerates(others, rm.users)
    ensures var e := ProduceEffect(rm.router, nextId, peers, u, request, others, owners);
            && e.nextId > nextId
            && e.router.producers == WithProducer(rm.router, u, NewProducer(nextId, request)).producers
  {
    UnusedId(rm, nextId);
    ProduceLists(rm.router, nextId, peers, u, request, others, owners, u);
  }

  lemma ProduceKeeps(rm: RoomState, nextId: nat, peers: map<UserId, Peer>, u: UserId, request: ProduceRequest, others: seq<UserId>, owners: seq<UserId>)
    requires RoomInvariant(rm, nextId)
    requires Enumerates(others, rm.users) && Enumerates(owners, rm.users)
    ensures var e := ProduceEffect(rm.router, nextId, peers, u, request, others, owners);
            RoomInvariant(ProduceIn(rm, nextId, peers, u, request, others, owners), e.nextId)
  {
    hide ProduceEffect, Justified, EntitledBy, Holds, ProducersMatch, UsersMatch;
    var rm' := ProduceIn(rm, nextId, peers, u, request, others, owners);
    ProduceFrame(rm, nextId, peers, u, request, others, owners);
    ProducePresent(rm, nextId, NewProducer(nextId, request), u, rm');
    forall v, j | 0 <= j < |ConsumersOf(rm'.router, v)|
      ensures Justified(rm'.history, v, ConsumersOf(rm'.router, v)[j])
    {
      ProduceJustified(rm, nextId, peers, u, request, others, owners, v, ConsumersOf(rm'.router, v)[j]);
    }
    forall v, i: nat | EntitledBy(rm'.history, i, v) && Open(rm'.history, i)
      ensures Holds(ConsumersOf(rm'.router, v), rm'.history[i].producerId)
    {
      ProduceComplete(rm, nextId, peers, u, request, others, owners, v, i);
    }
  }

  lemma ClosedEvent(h: Log, e: Event, i: nat, v: UserId)
    requires e.Closed?
    ensures Open(h + [e], i) <==> Open(h, i) && (h[i].user != e.user || h[i].producerId != e.producerId)
    ensures EntitledBy(h + [e], i, v) <==> EntitledBy(h, i, v)
  {
    EntitledByAppend(h, e, i, v);
    assert (h + [e])[..|h| + 1] == h + [e];
    assert h[..|h|] == h;
  }

  /** Taking u's producer p off its list leaves the others. */
  lemma CloseProducers(r: RouterState, u: UserId, p: nat, x: UserId)
    requires DistinctIds(ProducersOf(r, x))
    ensures var ps, qs := ProducersOf(r, x), ProducersOf(WithoutProducer(r, u, p), x);
            && DistinctIds(qs)
            && (x != u ==> qs == ps)
            && (x == u ==> forall q :: q in qs <==> q in ps && q.producerId != p)
  {
    var ps := ProducersOf(r, x);
    var i := FirstProducer(ps, p);
    if x == u && i < |ps| {
      assert ps == ps[..i] + [ps[i]] + ps[i + 1..];
      assert ProducersOf(WithoutProducer(r, u, p), x) == ps[..i] + ps[i + 1..];
    }
  }

  lemma CloseRecorded(rm: RoomState, nextId: nat, u: UserId, p: nat, x: UserId)
    requires RoomInvariant(rm, nextId)
    ensures var qs := ProducersOf(WithoutProducer(rm.router, u, p), x);
            && DistinctIds(qs)
            && forall j | 0 <= j < |qs| :: Recorded(rm.history + [Closed(u, p)], x, qs[j])
  {
    hide Open;
    var ps, qs := ProducersOf(rm.router, x), ProducersOf(WithoutProducer(rm.router, u, p), x);
    CloseProducers(rm.router, u, p, x);
    forall j | 0 <= j < |qs| ensures Recorded(rm.history + [Closed(u, p)], x, qs[j]) {
      assert qs[j] in ps;
      var k :| 0 <= k < |ps| && ps[k] == qs[j];
      assert Recorded(rm.history, x, ps[k]);
      assert x == u ==> qs[j].producerId != p;
      RecordedGrows(rm.history, Closed(u, p), x, qs[j]);
    }
  }

  lemma CloseSupplies(rm: RoomState, nextId: nat, u: UserId, p: nat, i: nat)
    requires RoomInvariant(rm, nextId) && Owns(rm.router, u, p)
    requires Open(rm.history + [Closed(u, p)], i)
    ensures Open(rm.history, i) && (rm.history + [Closed(u, p)])[i] == rm.history[i]
    ensures rm.history[i].producerId != p
    ensures Supplies(ProducersOf(WithoutProducer(rm.router, u, p), rm.history[i].user),
                     rm.history[i].producerId, rm.history[i].kind)
  {
    ClosedEvent(rm.history, Closed(u, p), i, u);
    OtherProducer(rm, nextId, u, p, i);
    var x := rm.history[i].user;
    var ps, qs := ProducersOf(rm.router, x), ProducersOf(WithoutProducer(rm.router, u, p), x);
    CloseProducers(rm.router, u, p, x);
    var j :| 0 <= j < |ps| && ps[j].producerId == rm.history[i].producerId && ps[j].kind == rm.history[i].kind;
    assert ps[j] in qs;
  }

  /** Nobody else has a producer of that id. */
  lemma OtherProducer(rm: RoomState, nextId: nat, u: UserId, p: nat, i: nat)
    requires RoomInvariant(rm, nextId) && Owns(rm.router, u, p)
    requires Open(rm.history, i) && (rm.history[i].user != u || rm.history[i].producerId != p)
    ensures rm.history[i].producerId != p
  {
    var mine := ProducersOf(rm.router, u);
    var k :| 0 <= k < |mine| && mine[k].producerId == p;
    assert Recorded(rm.history, u, mine[k]);
  }

  lemma CloseConsumers(rm: RoomState, nextId: nat, u: UserId, p: nat, v: UserId)
    requires RoomInvariant(rm, nextId) && Owns(rm.router, u, p)
    ensures var g := rm.history + [Closed(u, p)];
            var ds := ConsumersOf(WithoutConsumers(WithoutProducer(rm.router, u, p), u, p), v);
            && (forall j | 0 <= j < |ds| :: Justified(g, v, ds[j]))
            && (forall i: nat | EntitledBy(g, i, v) && Open(g, i) :: Holds(ds, g[i].producerId))
  {
    hide ShiftedList;
    var h, e := rm.history, Closed(u, p);
    var r := WithoutProducer(rm.router, u, p);
    var cs, ds := ConsumersOf(r, v), ConsumersOf(WithoutConsumers(r, u, p), v);
    assert cs == ConsumersOf(rm.router, v);
    forall j | 0 <= j < |ds| ensures Justified(h + [e], v, ds[j]) {
      ClosingConsumers(r, u, p, v, p);
      assert ds[j] in cs;
      var k :| 0 <= k < |cs| && cs[k] == ds[j];
      JustifiedGrows(h, e, v, cs[k]);
    }
    forall i: nat | EntitledBy(h + [e], i, v) && Open(h + [e], i)
      ensures Holds(ds, (h + [e])[i].producerId)
    {
      CloseSupplies(rm, nextId, u, p, i);
      ClosedEvent(h, e, i, v);
      assert (h + [e])[i] == h[i];
      ClosingConsumers(r, u, p, v, h[i].producerId);
    }
  }

  lemma CloseKeeps(rm: RoomState, nextId: nat, u: UserId, p: nat)
    requires RoomInvariant(rm, nextId)
    ensures RoomInvariant(CloseIn(rm, u, p), nextId)
  {
    if Owns(rm.router, u, p) {
      hide Justified, EntitledBy, Holds, Recorded, Supplies, DistinctIds;
      var rm' := CloseIn(rm, u, p);
      assert forall x :: ProducersOf(rm'.router, x) == ProducersOf(WithoutProducer(rm.router, u, p), x);
      ClosedBelow(rm, nextId, u, p);
      forall x ensures x in rm'.users <==> Present(rm'.history, x) {
        PresentAppend(rm.history, Closed(u, p), x);
      }
      forall x
        ensures DistinctIds(ProducersOf(rm'.router, x))
        ensures forall j | 0 <= j < |ProducersOf(rm'.router, x)| ::
                  Recorded(rm'.history, x, ProducersOf(rm'.router, x)[j])
      {
        CloseRecorded(rm, nextId, u, p, x);
      }
      forall i: nat | Open(rm'.history, i)
        ensures Supplies(ProducersOf(rm'.router, rm'.history[i].user), rm'.history[i].producerId, rm'.history[i].kind)
      {
        CloseSupplies(rm, nextId, u, p, i);
      }
      forall v {
        CloseConsumers(rm, nextId, u, p, v);
      }
    }
  }

  lemma ClosedBelow(rm: RoomState, nextId: nat, u: UserId, p: nat)
    requires RoomInvariant(rm, nextId) && Owns(rm.router, u, p)
    ensures p < nextId
  {
    var mine := ProducersOf(rm.router, u);
    var k :| 0 <= k < |mine| && mine[k].producerId == p;
    assert Recorded(rm.history, u, mine[k]);
  }

  /**
    For a live producer, holding a consumer of it is being entitled to one. Nobody consumes
    its own producer, and a consumer has its producer's kind.
  */
  lemma HoldsIffEntitled(rm: RoomState, nextId: nat, i: nat, v: UserId)
    requires RoomInvariant(rm, nextId) && Open(rm.history, i)
    ensures var e := rm.history[i];
            && (Holds(ConsumersOf(rm.router, v), e.producerId) <==> Entitled(rm.history, v, e.producerId))
            && !Holds(ConsumersOf(rm.router, e.user), e.producerId)
            && forall c | c in ConsumersOf(rm.router, v) && c.producerId == e.producerId :: c.kind == e.kind
  {
    var h := rm.history;
    EntitledById(h, i, v, nextId);
    forall x, j | 0 <= j < |ConsumersOf(rm.router, x)| && ConsumersOf(rm.router, x)[j].producerId == h[i].producerId
      ensures EntitledBy(h, i, x) && ConsumersOf(rm.router, x)[j].kind == h[i].kind
    {
      var c := ConsumersOf(rm.router, x)[j];
      assert Justified(h, x, c);
      var k: nat :| EntitledBy(h, k, x) && h[k].producerId == c.producerId && h[k].kind == c.kind;
      assert k == i;
    }
  }

  /** The room's promise: between users present, one consumes the other's live producer exactly when it should. */
  lemma SubscriptionPromise(rm: RoomState, nextId: nat, i: nat, v: UserId)
    requires RoomInvariant(rm, nextId) && EntersFirst(rm.history) && Open(rm.history, i)
    requires rm.history[i].user in rm.users && v in rm.users && v != rm.history[i].user
    ensures Holds(ConsumersOf(rm.router, v), rm.history[i].producerId) <==>
            Present(rm.history[..i], v) || ProducedSince(rm.history, i, v)
  {
    HoldsIffEntitled(rm, nextId, i, v);
    EntitledWhilePresent(rm.history, i, v, nextId);
  }
}
