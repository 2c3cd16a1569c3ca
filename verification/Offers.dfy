/**
  What the loops of producing tell: each user is offered exactly the consumers its list
  gains, one message for one consumer, each message describing its consumer.
*/
module Offers {
  import opened Basics
  import opened Decimal
  import opened History
  import opened Messages
  import opened Routing
  import opened RoomModel
  import opened Subscriptions

  /** Whose producer it is, as the client knows that user. */
  ghost predicate ProducedBy(r: RouterState, peers: map<UserId, Peer>, producerId: nat, kind: string, peerId: string) {
    exists x, i | 0 <= i < |ProducersOf(r, x)| ::
      var p := ProducersOf(r, x)[i];
      p.producerId == producerId && p.kind == kind && peerId == PeerIdOf(peers, x)
  }

  /** The message is the request that offers c, the n-th of its user's consumers. */
  ghost predicate Describes(what: Outgoing, c: Consumer, n: nat, r: RouterState, peers: map<UserId, Peer>) {
    && what.Ask? && what.body.NewConsumer?
    && what.body.consumerId == c.consumerId && what.body.producerId == c.producerId
    && what.body.kind == c.kind && what.body.transportId == c.transportId
    && what.body.mid == Itoa(n)
    && ProducedBy(r, peers, c.producerId, c.kind, what.body.peerId)
  }

  /** A consumer made between two counts of ids, on v's own transport. */
  ghost predicate MadeFor(c: Consumer, v: UserId, r: RouterState, lo: nat, hi: nat) {
    lo <= c.consumerId < hi && c.transportId == ConsumerTransport(r, v)
  }

  ghost predicate SameOwners(d: Effect, e: Effect) {
    && e.router.producers == d.router.producers
    && e.router.consumeTransportIds == d.router.consumeTransportIds
    && e.router.produceTransportIds == d.router.produceTransportIds
    && d.nextId <= e.nextId
  }

  /** From d to e v was sent one offer for each consumer its list gained, in the order of the list, and nothing else. */
  ghost predicate Announces(d: Effect, e: Effect, v: UserId, peers: map<UserId, Peer>) {
    var cs, ds := ConsumersOf(d.router, v), ConsumersOf(e.router, v);
    var a, b := To(v, d.sends), To(v, e.sends);
    && SameOwners(d, e)
    && cs <= ds && a <= b && |b| - |a| == |ds| - |cs|
    && (forall j | |cs| <= j < |ds| ::
          Describes(b[|a| + (j - |cs|)], ds[j], j + 1, d.router, peers) && MadeFor(ds[j], v, d.router, d.nextId, e.nextId))
    && (forall i, j | |cs| <= i < j < |ds| :: ds[i].consumerId < ds[j].consumerId)
  }

  lemma AnnouncesSelf(e: Effect, v: UserId, peers: map<UserId, Peer>)
    ensures Announces(e, e, v, peers)
  {
  }

  lemma AnnouncesThen(c: Effect, d: Effect, e: Effect, v: UserId, peers: map<UserId, Peer>)
    requires Announces(c, d, v, peers) && Announces(d, e, v, peers)
    ensures Announces(c, e, v, peers)
  {
    hide To, Describes, ConsumersOf;
    var cs, ds, es := ConsumersOf(c.router, v), ConsumersOf(d.router, v), ConsumersOf(e.router, v);
    var a, b, s := To(v, c.sends), To(v, d.sends), To(v, e.sends);
    SameDescriptions(c.router, d.router, peers);
    forall j | |cs| <= j < |es|
      ensures Describes(s[|a| + (j - |cs|)], es[j], j + 1, c.router, peers) && MadeFor(es[j], v, c.router, c.nextId, e.nextId)
    {
      if j < |ds| {
        assert es[j] == ds[j] && s[|a| + (j - |cs|)] == b[|a| + (j - |cs|)];
      } else {
        assert |a| + (j - |cs|) == |b| + (j - |ds|);
      }
    }
    forall i, j | |cs| <= i < j < |es| ensures es[i].consumerId < es[j].consumerId {
      if i < |ds| {
        assert MadeFor(ds[i], v, c.router, c.nextId, d.nextId) && es[i] == ds[i];
        if j >= |ds| {
          assert MadeFor(es[j], v, d.router, d.nextId, e.nextId);
        } else {
          assert es[j] == ds[j];
        }
      }
    }
  }

  lemma SameDescriptions(r: RouterState, s: RouterState, peers: map<UserId, Peer>)
    requires r.producers == s.producers
    ensures forall what, c, n :: Describes(what, c, n, r, peers) <==> Describes(what, c, n, s, peers)
  {
    assert forall x :: ProducersOf(r, x) == ProducersOf(s, x);
  }

  lemma OfferAnnounces(e: Effect, u: UserId, p: Producer, peerId: string, peers: map<UserId, Peer>, v: UserId)
    requires !Holds(ConsumersOf(e.router, u), p.producerId)
    requires ProducedBy(e.router, peers, p.producerId, p.kind, peerId)
    ensures Announces(e, Offer(e, u, p, peerId), v, peers)
  {
    hide Itoa, ProducedBy, Offer;
    if v == u {
      OfferToItself(e, u, p, peerId, peers);
    } else {
      OfferToAnother(e, u, p, peerId, v);
    }
  }

  lemma OfferToItself(e: Effect, u: UserId, p: Producer, peerId: string, peers: map<UserId, Peer>)
    requires !Holds(ConsumersOf(e.router, u), p.producerId)
    requires ProducedBy(e.router, peers, p.producerId, p.kind, peerId)
    ensures Announces(e, Offer(e, u, p, peerId), u, peers)
  {
    hide Itoa, ProducedBy, Holds;
    var d := Offer(e, u, p, peerId);
    var cs := ConsumersOf(e.router, u);
    assert d.sends[..|d.sends| - 1] == e.sends;
    assert To(u, d.sends) == To(u, e.sends) + [d.sends[|e.sends|].what];
    var c := Consumer(e.nextId, ConsumerTransport(e.router, u), p.producerId, p.kind);
    assert ConsumersOf(d.router, u) == cs + [c];
    hide ConsumersOf, To;
    assert Describes(d.sends[|e.sends|].what, c, |cs| + 1, e.router, peers);
  }

  lemma OfferToAnother(e: Effect, u: UserId, p: Producer, peerId: string, v: UserId)
    requires v != u && !Holds(ConsumersOf(e.router, u), p.producerId)
    ensures var d := Offer(e, u, p, peerId);
            && SameOwners(e, d)
            && To(v, d.sends) == To(v, e.sends) && ConsumersOf(d.router, v) == ConsumersOf(e.router, v)
  {
    hide Itoa, Holds;
    var d := Offer(e, u, p, peerId);
    assert d.sends[..|d.sends| - 1] == e.sends;
  }

  lemma {:induction false} OffersAnnounce(e: Effect, u: UserId, p: Producer, peers: map<UserId, Peer>,
                                          order: seq<UserId>, v: UserId)
    requires Distinct(order)
    requires forall x :: !Holds(ConsumersOf(e.router, x), p.producerId)
    requires ProducedBy(e.router, peers, p.producerId, p.kind, PeerIdOf(peers, u))
    ensures Announces(e, OfferToOthers(e, u, p, PeerIdOf(peers, u), order), v, peers)
  {
    if order == [] {
      AnnouncesSelf(e, v, peers);
    } else {
      hide Announces, ProducedBy, Offer;
      var front, last := order[..|order| - 1], order[|order| - 1];
      var d := OfferToOthers(e, u, p, PeerIdOf(peers, u), front);
      OffersAnnounce(e, u, p, peers, front, v);
      if last != u {
        assert last !in front;
        OfferToOthersEffect(e, u, p, PeerIdOf(peers, u), front, last);
        SameProducers(e, d, peers, p, PeerIdOf(peers, u)) by {
          OfferedProducers(e, d, last);
        }
        OfferAnnounces(d, last, p, PeerIdOf(peers, u), peers, v);
        AnnouncesThen(e, d, OfferToOthers(e, u, p, PeerIdOf(peers, u), order), v, peers);
      }
    }
  }

  lemma SameProducers(d: Effect, e: Effect, peers: map<UserId, Peer>, p: Producer, peerId: string)
    requires e.router.producers == d.router.producers
    requires ProducedBy(d.router, peers, p.producerId, p.kind, peerId)
    ensures ProducedBy(e.router, peers, p.producerId, p.kind, peerId)
  {
    assert forall x :: ProducersOf(e.router, x) == ProducersOf(d.router, x);
  }

  lemma PullAnnounces(e: Effect, u: UserId, kind: string, p: Producer, peerId: string, peers: map<UserId, Peer>, v: UserId)
    requires ProducedBy(e.router, peers, p.producerId, p.kind, peerId)
    ensures Announces(e, Pull(e, u, kind, p, peerId), v, peers)
  {
    hide Itoa, ProducedBy, Offer;
    if p.kind == kind && !Holds(ConsumersOf(e.router, u), p.producerId) {
      OfferAnnounces(e, u, p, peerId, peers, v);
    }
  }

  /** ps is part of owner's list. */
  lemma {:induction false} PullListAnnounces(e: Effect, u: UserId, kind: string, ps: seq<Producer>, owner: UserId,
                                             peers: map<UserId, Peer>, v: UserId)
    requires ps <= ProducersOf(e.router, owner)
    ensures Announces(e, PullList(e, u, kind, ps, PeerIdOf(peers, owner)), v, peers)
  {
    if ps == [] {
      AnnouncesSelf(e, v, peers);
    } else {
      var front, last := ps[..|ps| - 1], ps[|ps| - 1];
      var d := PullList(e, u, kind, front, PeerIdOf(peers, owner));
      PullListAnnounces(e, u, kind, front, owner, peers, v);
      assert d.router.producers == e.router.producers;
      assert ProducersOf(d.router, owner)[|ps| - 1] == last;
      hide Announces, Pull;
      PullAnnounces(d, u, kind, last, PeerIdOf(peers, owner), peers, v);
      AnnouncesThen(e, d, PullList(e, u, kind, ps, PeerIdOf(peers, owner)), v, peers);
    }
  }

  lemma {:induction false} PullsAnnounce(e: Effect, u: UserId, kind: string, peers: map<UserId, Peer>, order: seq<UserId>, v: UserId)
    ensures Announces(e, PullFromOthers(e, u, kind, peers, order), v, peers)
  {
    if order == [] {
      AnnouncesSelf(e, v, peers);
    } else {
      hide Announces, PullList;
      var front, last := order[..|order| - 1], order[|order| - 1];
      var d := PullFromOthers(e, u, kind, peers, front);
      PullsAnnounce(e, u, kind, peers, front, v);
      if last != u {
        PullListAnnounces(d, u, kind, ProducersOf(d.router, last), last, peers, v);
        AnnouncesThen(e, d, PullFromOthers(e, u, kind, peers, order), v, peers);
      }
    }
  }

  lemma NewlyProduced(rm: RoomState, nextId: nat, a: Effect, u: UserId, p: Producer, peers: map<UserId, Peer>)
    requires RoomInvariant(rm, nextId) && p.producerId == nextId
    requires a.router == rm.router.(producers := rm.router.producers[u := ProducersOf(rm.router, u) + [p]])
    ensures forall x :: !Holds(ConsumersOf(a.router, x), nextId)
    ensures ProducedBy(a.router, peers, p.producerId, p.kind, PeerIdOf(peers, u))
  {
    UnusedId(rm, nextId);
    assert forall x :: ConsumersOf(a.router, x) == ConsumersOf(rm.router, x);
    assert ProducersOf(a.router, u)[|ProducersOf(rm.router, u)|] == p;
  }

  lemma TwoLoops(router: RouterState, nextId: nat, peers: map<UserId, Peer>, u: UserId, request: ProduceRequest,
                 others: seq<UserId>, owners: seq<UserId>)
    ensures var p := Producer(nextId, request.transportId, request.kind, request.shape);
            var r := router.(producers := router.producers[u := ProducersOf(router, u) + [p]]);
            var a := Effect(r, nextId + 1, [], request.shape.nullEncoding && r.workerId != "");
            ProduceEffect(router, nextId, peers, u, request, others, owners) ==
            PullFromOthers(OfferToOthers(a, u, p, PeerIdOf(peers, u), others), u, p.kind, peers, owners)
  {
    hide OfferToOthers, PullFromOthers;
  }

  /**
    All that producing tells: each user is sent one request for each consumer its list
    gained, in the order of the list, with the consumer's own ids, kind, transport and mid,
    and the peer id of whoever produces.
  */
  lemma ProduceAnnounces(rm: RoomState, nextId: nat, peers: map<UserId, Peer>, u: UserId, request: ProduceRequest,
                         others: seq<UserId>, owners: seq<UserId>, v: UserId)
    requires RoomInvariant(rm, nextId) && Distinct(others)
    ensures var p := Producer(nextId, request.transportId, request.kind, request.shape);
            var r := rm.router.(producers := rm.router.producers[u := ProducersOf(rm.router, u) + [p]]);
            Announces(Effect(r, nextId + 1, [], request.shape.nullEncoding && r.workerId != ""),
                      ProduceEffect(rm.router, nextId, peers, u, request, others, owners), v, peers)
  {
    hide Announces, OfferToOthers, PullFromOthers, RoomInvariant, ProducedBy, ProduceEffect;
    var p := Producer(nextId, request.transportId, request.kind, request.shape);
    var r := rm.router.(producers := rm.router.producers[u := ProducersOf(rm.router, u) + [p]]);
    var a := Effect(r, nextId + 1, [], request.shape.nullEncoding && r.workerId != "");
    NewlyProduced(rm, nextId, a, u, p, peers);
    OffersAnnounce(a, u, p, peers, others, v);
    var b := OfferToOthers(a, u, p, PeerIdOf(peers, u), others);
    PullsAnnounce(b, u, p.kind, peers, owners, v);
    TwoLoops(rm.router, nextId, peers, u, request, others, owners);
    AnnouncesThen(a, b, PullFromOthers(b, u, p.kind, peers, owners), v, peers);
  }
}
