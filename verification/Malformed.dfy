/** When producing panics: exactly which requests, and which producers stored earlier, the code cannot work with. */
module Malformed {
  import opened Basics
  import opened History
  import opened Messages
  import opened Routing
  import opened RoomModel
  import opened Subscriptions

  /** Pulling for u would have to make an offer of p, and cannot. */
  ghost predicate Breaks(r: RouterState, u: UserId, kind: string, p: Producer) {
    p.kind == kind && !Offerable(p.kind, p.shape) && !Holds(ConsumersOf(r, u), p.producerId)
  }

  /**
    What a caller could find out before the call: a null encoding, and a named worker to
    send it to; a request that cannot be offered, and somebody to offer it to; or somebody
    else's producer of that kind that cannot be offered, and that u does not consume yet.
  */
  ghost predicate ProducePanics(rm: RoomState, u: UserId, request: ProduceRequest) {
    || (request.shape.nullEncoding && rm.router.workerId != "")
    || (!Offerable(request.kind, request.shape) && exists v :: v in rm.users && v != u)
    || exists v, p | v in rm.users && v != u && p in ProducersOf(rm.router, v) :: Breaks(rm.router, u, request.kind, p)
  }

  lemma {:induction false} OffersPanic(e: Effect, u: UserId, p: Producer, peerId: string, order: seq<UserId>)
    ensures OfferToOthers(e, u, p, peerId, order).panicked <==>
            e.panicked || (!Offerable(p.kind, p.shape) && exists v :: v in order && v != u)
  {
    if order != [] {
      var front, last := order[..|order| - 1], order[|order| - 1];
      OffersPanic(e, u, p, peerId, front);
      assert order == front + [last];
      OthersIn(front, last, u);
      hide WithConsumer, Offerable;
    }
  }

  lemma OthersIn(front: seq<UserId>, last: UserId, u: UserId)
    ensures (exists v :: v in front + [last] && v != u) <==> (exists v :: v in front && v != u) || last != u
  {
    assert last in front + [last];
    assert forall v | v in front :: v in front + [last];
  }

  /** An id names one producer. */
  ghost predicate OneProducerEach(ps: iset<Producer>) {
    forall p, q | p in ps && q in ps && p.producerId == q.producerId :: p == q
  }

  /** From c to d exactly the producers in done were pulled for u. */
  ghost predicate Tracks(c: Effect, d: Effect, u: UserId, kind: string, done: iset<Producer>) {
    && d.router.producers == c.router.producers
    && (forall q :: Holds(ConsumersOf(d.router, u), q) <==>
                    Holds(ConsumersOf(c.router, u), q) || exists p :: p in done && p.producerId == q && p.kind == kind)
    && (d.panicked <==> c.panicked || exists p :: p in done && Breaks(c.router, u, kind, p))
  }

  lemma PullTracks(c: Effect, d: Effect, u: UserId, kind: string, p: Producer, peerId: string, done: iset<Producer>)
    requires Tracks(c, d, u, kind, done)
    requires forall a | a in done && a.producerId == p.producerId :: a == p
    ensures Tracks(c, Pull(d, u, kind, p, peerId), u, kind, done + iset{p})
  {
    PullEffect(d, u, kind, p, peerId, u);
    hide NewOnesSupplied, WithConsumer, Extends, Holds;
    PulledHolds(d, u, kind, p, peerId);
  }

  lemma PulledHolds(d: Effect, u: UserId, kind: string, p: Producer, peerId: string)
    ensures forall q :: Holds(ConsumersOf(Pull(d, u, kind, p, peerId).router, u), q) <==>
                        Holds(ConsumersOf(d.router, u), q) || (p.kind == kind && p.producerId == q)
    ensures Pull(d, u, kind, p, peerId).router.producers == d.router.producers
  {
    PullEffect(d, u, kind, p, peerId, u);
  }

  function Members(ps: seq<Producer>): iset<Producer> {
    iset p | p in ps
  }

  lemma {:induction false} ListTracks(c: Effect, d: Effect, u: UserId, kind: string, ps: seq<Producer>, peerId: string,
                                      done: iset<Producer>)
    requires Tracks(c, d, u, kind, done)
    requires forall p, q | (p in done || p in ps) && q in ps && p.producerId == q.producerId :: p == q
    ensures Tracks(c, PullList(d, u, kind, ps, peerId), u, kind, done + Members(ps))
  {
    hide Tracks, Pull;
    if ps == [] {
      assert done + Members(ps) == done;
    } else {
      var front, last := ps[..|ps| - 1], ps[|ps| - 1];
      assert ps == front + [last];
      ListTracks(c, d, u, kind, front, peerId, done);
      PullTracks(c, PullList(d, u, kind, front, peerId), u, kind, last, peerId, done + Members(front));
      assert done + Members(front) + iset{last} == done + Members(ps);
    }
  }

  ghost function OthersProducers(r: RouterState, u: UserId, order: seq<UserId>): iset<Producer> {
    iset v, p | v in order && v != u && p in ProducersOf(r, v) :: p
  }

  lemma OthersProducersStep(r: RouterState, u: UserId, front: seq<UserId>, last: UserId)
    ensures OthersProducers(r, u, front + [last]) ==
            OthersProducers(r, u, front) + if last == u then iset{} else Members(ProducersOf(r, last))
  {
    var a, b := OthersProducers(r, u, front + [last]), OthersProducers(r, u, front);
    forall p ensures p in a <==> p in b || (last != u && p in ProducersOf(r, last)) {
      if p in a {
        var v :| v in front + [last] && v != u && p in ProducersOf(r, v);
        assert v in front || v == last;
      }
      if last != u && p in ProducersOf(r, last) {
        assert last in front + [last];
      }
    }
  }

  lemma {:induction false} OthersTrack(c: Effect, u: UserId, kind: string, peers: map<UserId, Peer>, order: seq<UserId>)
    requires OneProducerEach(OthersProducers(c.router, u, order))
    ensures Tracks(c, PullFromOthers(c, u, kind, peers, order), u, kind, OthersProducers(c.router, u, order))
  {
    if order == [] {
      assert OthersProducers(c.router, u, order) == iset{};
    } else {
      var front, last := order[..|order| - 1], order[|order| - 1];
      assert order == front + [last];
      OthersProducersStep(c.router, u, front, last);
      OthersTrack(c, u, kind, peers, front);
      var d := PullFromOthers(c, u, kind, peers, front);
      assert ProducersOf(d.router, last) == ProducersOf(c.router, last);
      if last != u {
        hide Tracks, PullList;
        ListTracks(c, d, u, kind, ProducersOf(c.router, last), PeerIdOf(peers, last), OthersProducers(c.router, u, front));
      }
    }
  }

  lemma ProducersAreOne(rm: RoomState, nextId: nat, u: UserId, order: seq<UserId>)
    requires RoomInvariant(rm, nextId)
    ensures OneProducerEach(OthersProducers(rm.router, u, order))
  {
    var r, h := rm.router, rm.history;
    var ps := OthersProducers(r, u, order);
    forall p, q | p in ps && q in ps && p.producerId == q.producerId ensures p == q {
      var v, w :| p in ProducersOf(r, v) && q in ProducersOf(r, w);
      var i :| 0 <= i < |ProducersOf(r, v)| && ProducersOf(r, v)[i] == p;
      var j :| 0 <= j < |ProducersOf(r, w)| && ProducersOf(r, w)[j] == q;
      assert Recorded(h, v, ProducersOf(r, v)[i]) && Recorded(h, w, ProducersOf(r, w)[j]);
      assert v == w;
      assert DistinctIds(ProducersOf(r, v));
    }
  }

  /** Offering the new producer changes nothing that the pulling looks at. */
  lemma OfferedElsewhere(rm: RoomState, nextId: nat, a: Effect, u: UserId, p: Producer, peerId: string, others: seq<UserId>)
    requires RoomInvariant(rm, nextId) && Distinct(others)
    requires p.producerId == nextId && a.router == WithProducer(rm.router, u, p)
    ensures var b := OfferToOthers(a, u, p, peerId, others);
            && ConsumersOf(b.router, u) == ConsumersOf(rm.router, u)
            && forall order :: OthersProducers(b.router, u, order) == OthersProducers(rm.router, u, order)
  {
    UnusedId(rm, nextId);
    assert forall x :: ConsumersOf(a.router, x) == ConsumersOf(rm.router, x);
    OfferToOthersEffect(a, u, p, peerId, others, u);
    var b := OfferToOthers(a, u, p, peerId, others);
    assert forall v | v != u :: ProducersOf(b.router, v) == ProducersOf(rm.router, v);
  }

  /** Produce panics exactly when the condition above holds before it. */
  lemma ProducePanicsExactly(rm: RoomState, nextId: nat, peers: map<UserId, Peer>, u: UserId, request: ProduceRequest,
                             others: seq<UserId>, owners: seq<UserId>)
    requires RoomInvariant(rm, nextId)
    requires Enumerates(others, rm.users) && Enumerates(owners, rm.users)
    ensures ProduceEffect(rm.router, nextId, peers, u, request, others, owners).panicked <==> ProducePanics(rm, u, request)
  {
    hide RoomInvariant, Holds, ConsumersOf;
    var p := NewProducer(nextId, request);
    var a := Effect(WithProducer(rm.router, u, p), nextId + 1, [], request.shape.nullEncoding && rm.router.workerId != "");
    var b := OfferToOthers(a, u, p, PeerIdOf(peers, u), others);
    OffersPanic(a, u, p, PeerIdOf(peers, u), others);
    OfferedElsewhere(rm, nextId, a, u, p, PeerIdOf(peers, u), others);
    ProducersAreOne(rm, nextId, u, owners);
    OthersTrack(b, u, p.kind, peers, owners);
    OthersInRoom(rm, u, owners, request.kind);
    assert forall q :: Breaks(b.router, u, p.kind, q) <==> Breaks(rm.router, u, request.kind, q);
  }

  lemma OthersInRoom(rm: RoomState, u: UserId, owners: seq<UserId>, kind: string)
    requires Enumerates(owners, rm.users)
    ensures (exists p :: p in OthersProducers(rm.router, u, owners) && Breaks(rm.router, u, kind, p)) <==>
            exists v, p | v in rm.users && v != u && p in ProducersOf(rm.router, v) :: Breaks(rm.router, u, kind, p)
  {
    hide Breaks;
    if v, p :| v in rm.users && v != u && p in ProducersOf(rm.router, v) && Breaks(rm.router, u, kind, p) {
      assert p in OthersProducers(rm.router, u, owners);
    }
  }
}
