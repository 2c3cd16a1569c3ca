/**
  What each operation of a room does, on values: the new router and the messages sent.
  The order parameters are the orders in which Go happens to range over a map.
*/
module RoomModel {
  import opened Basics
  import opened Decimal
  import opened History
  import opened Messages
  import opened Routing

  /** history is not stored by the server; it is what the invariants are about. */
  datatype RoomState = RoomState(users: set<UserId>, router: RouterState, history: Log)

  /** A router under change, the next unused random id, the messages sent so far, and whether Go has panicked. */
  datatype Effect = Effect(router: RouterState, nextId: nat, sends: seq<Send>, panicked: bool)

  /** One new consumer of p for v, and the request that tells v about it. Making the request panics if p lacks codecs. */
  function Offer(e: Effect, v: UserId, p: Producer, peerId: string): Effect {
    var c := Consumer(e.nextId, ConsumerTransport(e.router, v), p.producerId, p.kind);
    var r := WithConsumer(e.router, v, c);
    var body := NewConsumer(peerId, c.transportId, c.consumerId, c.producerId, c.kind, StreamMid(r, v));
    Effect(r, e.nextId + 1, e.sends + [Send(v, Ask(body))], e.panicked || !Offerable(p.kind, p.shape))
  }

  /** Offer u's new producer p to everybody else in the room. */
  function OfferToOthers(e: Effect, u: UserId, p: Producer, peerId: string, order: seq<UserId>): Effect {
    if order == [] then e
    else
      var d := OfferToOthers(e, u, p, peerId, order[..|order| - 1]);
      var v := order[|order| - 1];
      if v == u then d else Offer(d, v, p, peerId)
  }

  /** Give u a consumer of one of another user's producers, if the kind is right and u has none yet. */
  function Pull(e: Effect, u: UserId, kind: string, p: Producer, peerId: string): Effect {
    if p.kind != kind then e
    else if Holds(ConsumersOf(e.router, u), p.producerId) then e.(nextId := e.nextId + 1)
    else Offer(e, u, p, peerId)
  }

  function PullList(e: Effect, u: UserId, kind: string, ps: seq<Producer>, peerId: string): Effect {
    if ps == [] then e
    else Pull(PullList(e, u, kind, ps[..|ps| - 1], peerId), u, kind, ps[|ps| - 1], peerId)
  }

  function PeerIdOf(peers: map<UserId, Peer>, u: UserId): string {
    if u in peers then peers[u].peerId else ""
  }

  /** Give u consumers of what everybody else in the room already produces of that kind. */
  function PullFromOthers(e: Effect, u: UserId, kind: string, peers: map<UserId, Peer>, order: seq<UserId>): Effect {
    if order == [] then e
    else
      var d := PullFromOthers(e, u, kind, peers, order[..|order| - 1]);
      var k := order[|order| - 1];
      if k == u then d else PullList(d, u, kind, ProducersOf(d.router, k), PeerIdOf(peers, k))
  }

  /** A null encoding is met on the way to the worker, unless the router's worker has no name. */
  function ProduceEffect(r: RouterState, nextId: nat, peers: map<UserId, Peer>, u: UserId, request: ProduceRequest,
                         others: seq<UserId>, owners: seq<UserId>): Effect {
    var p := NewProducer(nextId, request);
    var e := Effect(WithProducer(r, u, p), nextId + 1, [], request.shape.nullEncoding && r.workerId != "");
    PullFromOthers(OfferToOthers(e, u, p, PeerIdOf(peers, u), others), u, p.kind, peers, owners)
  }

  predicate Owns(r: RouterState, u: UserId, p: nat) {
    exists q | q in ProducersOf(r, u) :: q.producerId == p
  }

  /** The notifications after p was closed, for the reported users who are still in the room. */
  function ClosedNotices(users: set<UserId>, closed: map<UserId, nat>, order: seq<UserId>): seq<Send>
  {
    if order == [] then []
    else
      var v := order[|order| - 1];
      ClosedNotices(users, closed, order[..|order| - 1])
      + if v in users && v in closed then [Send(v, Tell(ConsumerClosed(closed[v])))] else []
  }

  /** The same notification to each user in turn, except one. */
  function Broadcast(order: seq<UserId>, except: UserId, body: Payload): seq<Send> {
    if order == [] then []
    else
      var v := order[|order| - 1];
      Broadcast(order[..|order| - 1], except, body) + if v == except then [] else [Send(v, Tell(body))]
  }

  /** The peers a joining user is told about. */
  function OtherPeers(peers: map<UserId, Peer>, u: UserId, order: seq<UserId>): seq<Peer> {
    if order == [] then []
    else
      var v := order[|order| - 1];
      OtherPeers(peers, u, order[..|order| - 1])
      + if v == u || v !in peers then [] else [peers[v]]
  }

  // Operations of a room.

  function Enter(rm: RoomState, u: UserId): RoomState {
    if u in rm.users then rm
    else rm.(users := rm.users + {u}, history := rm.history + [Entered(u)])
  }

  function Leave(rm: RoomState, u: UserId): RoomState {
    rm.(users := rm.users - {u}, history := rm.history + [Left(u)])
  }

  function ProduceIn(rm: RoomState, nextId: nat, peers: map<UserId, Peer>, u: UserId, request: ProduceRequest,
                     others: seq<UserId>, owners: seq<UserId>): RoomState {
    RoomState(rm.users, ProduceEffect(rm.router, nextId, peers, u, request, others, owners).router,
              rm.history + [Produced(u, nextId, request.kind)])
  }

  /** Nothing happens unless u owns the producer. */
  function CloseIn(rm: RoomState, u: UserId, p: nat): RoomState {
    if !Owns(rm.router, u, p) then rm
    else RoomState(rm.users, WithoutConsumers(WithoutProducer(rm.router, u, p), u, p), rm.history + [Closed(u, p)])
  }

  function CloseSends(rm: RoomState, u: UserId, p: nat, order: seq<UserId>): seq<Send>
  {
    if Owns(rm.router, u, p) then ClosedNotices(rm.users, ClosedConsumers(rm.router, u, p), order) else []
  }

  datatype Direction = ForProducing | ForConsuming | Unknown

  function ConnectTransport(rm: RoomState, u: UserId, direction: Direction, id: string): RoomState {
    match direction
    case ForProducing =>
      rm.(router := rm.router.(produceTransportIds := map[u := id] + rm.router.produceTransportIds))
    case ForConsuming =>
      rm.(router := rm.router.(consumeTransportIds := map[u := id] + rm.router.consumeTransportIds))
    case Unknown => rm
  }

  // What the loops over users and producers amount to.

  /** The mids of the consumers that take a list from lo entries to hi: lo + 1, ..., hi. */
  function MidsBetween(lo: nat, hi: nat): seq<string>
    requires lo <= hi
  {
    seq(hi - lo, i requires 0 <= i => Itoa(lo + 1 + i))
  }

  /** From d to e only v's list changed: it grew, and v was told of each addition under its own mid. */
  ghost predicate Extends(d: Effect, e: Effect, v: UserId) {
    var cs, ds := ConsumersOf(d.router, v), ConsumersOf(e.router, v);
    && cs <= ds
    && e.router.producers == d.router.producers
    && e.nextId >= d.nextId
    && OfferedMids(v, e.sends) == OfferedMids(v, d.sends) + MidsBetween(|cs|, |ds|)
  }

  lemma ExtendsTransitive(c: Effect, d: Effect, e: Effect, v: UserId)
    requires Extends(c, d, v) && Extends(d, e, v)
    ensures Extends(c, e, v)
  {
    var i, j, k := |ConsumersOf(c.router, v)|, |ConsumersOf(d.router, v)|, |ConsumersOf(e.router, v)|;
    assert MidsBetween(i, k) == MidsBetween(i, j) + MidsBetween(j, k);
  }

  lemma OfferExtends(e: Effect, u: UserId, p: Producer, peerId: string, v: UserId)
    requires !Holds(ConsumersOf(e.router, u), p.producerId)
    ensures Extends(e, Offer(e, u, p, peerId), v)
    ensures v != u ==> ConsumersOf(Offer(e, u, p, peerId).router, v) == ConsumersOf(e.router, v)
    ensures v == u ==> exists c ::
                && ConsumersOf(Offer(e, u, p, peerId).router, v) == ConsumersOf(e.router, v) + [c]
                && c.producerId == p.producerId && c.kind == p.kind
  {
    var d := Offer(e, u, p, peerId);
    assert d.sends[..|d.sends| - 1] == e.sends;
    var c := Consumer(e.nextId, ConsumerTransport(e.router, u), p.producerId, p.kind);
    assert ConsumersOf(d.router, u) == ConsumersOf(e.router, u) + [c];
  }

  /** Everybody in the order but u gets exactly one consumer of the new producer. */
  lemma {:induction false} OfferToOthersEffect(e: Effect, u: UserId, p: Producer, peerId: string,
                                               order: seq<UserId>, v: UserId)
    requires Distinct(order)
    requires forall x :: !Holds(ConsumersOf(e.router, x), p.producerId)
    ensures var d := OfferToOthers(e, u, p, peerId, order);
            && Extends(e, d, v)
            && if v != u && v in order
               then exists c :: ConsumersOf(d.router, v) == ConsumersOf(e.router, v) + [c]
                                && c.producerId == p.producerId && c.kind == p.kind
               else ConsumersOf(d.router, v) == ConsumersOf(e.router, v)
  {
    if order == [] {
      assert MidsBetween(|ConsumersOf(e.router, v)|, |ConsumersOf(e.router, v)|) == [];
    } else {
      var front, last := order[..|order| - 1], order[|order| - 1];
      assert last !in front;
      OfferToOthersEffect(e, u, p, peerId, front, v);
      OfferToOthersEffect(e, u, p, peerId, front, last);
      if last != u {
        var d := OfferToOthers(e, u, p, peerId, front);
        OfferExtends(d, last, p, peerId, v);
        ExtendsTransitive(e, d, OfferToOthers(e, u, p, peerId, order), v);
      }
    }
  }

  ghost predicate Supplies(ps: seq<Producer>, q: nat, kind: string) {
    exists i | 0 <= i < |ps| :: ps[i].producerId == q && ps[i].kind == kind
  }

  ghost function Supplied(ps: seq<Producer>, kind: string): iset<nat> {
    iset q | Supplies(ps, q, kind)
  }

  ghost predicate OthersSupply(r: RouterState, u: UserId, order: seq<UserId>, q: nat, kind: string) {
    exists i | 0 <= i < |order| :: order[i] != u && Supplies(ProducersOf(r, order[i]), q, kind)
  }

  /** Only u's list changed. */
  ghost predicate ExtendsOnly(d: Effect, e: Effect, u: UserId, v: UserId) {
    && Extends(d, e, v)
    && (v != u ==> ConsumersOf(e.router, v) == ConsumersOf(d.router, v))
  }

  /** What u holds now that it did not hold before is of the kind, and of a supplied producer. */
  ghost predicate NewOnesSupplied(d: Effect, e: Effect, u: UserId, kind: string, supplied: iset<nat>) {
    && (forall q :: Holds(ConsumersOf(e.router, u), q) <==> Holds(ConsumersOf(d.router, u), q) || q in supplied)
    && (forall c | c in ConsumersOf(e.router, u) ::
          c in ConsumersOf(d.router, u) || (c.kind == kind && c.producerId in supplied))
  }

  lemma NewOnesTransitive(c: Effect, d: Effect, e: Effect, u: UserId, kind: string, s: iset<nat>, t: iset<nat>)
    requires NewOnesSupplied(c, d, u, kind, s) && NewOnesSupplied(d, e, u, kind, t)
    ensures NewOnesSupplied(c, e, u, kind, s + t)
  {
  }

  lemma ExtendsSelf(e: Effect, v: UserId)
    ensures Extends(e, e, v)
  {
    assert MidsBetween(|ConsumersOf(e.router, v)|, |ConsumersOf(e.router, v)|) == [];
  }

  lemma PullEffect(e: Effect, u: UserId, kind: string, p: Producer, peerId: string, v: UserId)
    ensures var d := Pull(e, u, kind, p, peerId);
            && ExtendsOnly(e, d, u, v)
            && NewOnesSupplied(e, d, u, kind, if p.kind == kind then iset{p.producerId} else iset{})
  {
    ExtendsSelf(e, v);
    var cs := ConsumersOf(e.router, u);
    if p.kind == kind && !Holds(cs, p.producerId) {
      OfferExtends(e, u, p, peerId, v);
      OfferExtends(e, u, p, peerId, u);
      var d := Pull(e, u, kind, p, peerId);
      var c :| ConsumersOf(d.router, u) == cs + [c] && c.producerId == p.producerId && c.kind == p.kind;
      forall q ensures Holds(cs + [c], q) <==> Holds(cs, q) || q == p.producerId {
        HoldsConcat(cs, [c], q);
        assert [c][0].producerId == p.producerId;
      }
    }
  }

  lemma SuppliesGrows(ps: seq<Producer>, kind: string)
    requires ps != []
    ensures var last := ps[|ps| - 1];
            Supplied(ps, kind) ==
            Supplied(ps[..|ps| - 1], kind) + (if last.kind == kind then iset{last.producerId} else iset{})
  {
    var front, last := ps[..|ps| - 1], ps[|ps| - 1];
    forall q ensures Supplies(ps, q, kind) <==> Supplies(front, q, kind) || (last.kind == kind && last.producerId == q) {
      if Supplies(front, q, kind) {
        var i :| 0 <= i < |front| && front[i].producerId == q && front[i].kind == kind;
        assert ps[i] == front[i];
      }
    }
  }

  lemma {:induction false} PullListEffect(e: Effect, u: UserId, kind: string, ps: seq<Producer>, peerId: string, v: UserId)
    ensures var d := PullList(e, u, kind, ps, peerId);
            && ExtendsOnly(e, d, u, v)
            && NewOnesSupplied(e, d, u, kind, Supplied(ps, kind))
  {
    if ps == [] {
      ExtendsSelf(e, v);
    } else {
      hide Extends, NewOnesSupplied, Supplies;
      var front, last := ps[..|ps| - 1], ps[|ps| - 1];
      var d := PullList(e, u, kind, front, peerId);
      PullListEffect(e, u, kind, front, peerId, v);
      PullEffect(d, u, kind, last, peerId, v);
      ExtendsTransitive(e, d, PullList(e, u, kind, ps, peerId), v);
      var one: iset<nat> := if last.kind == kind then iset{last.producerId} else iset{};
      NewOnesTransitive(e, d, PullList(e, u, kind, ps, peerId), u, kind, Supplied(front, kind), one);
      SuppliesGrows(ps, kind);
    }
  }

  /** u ends up holding exactly what it held, and everything of the kind that the others produce. */
  lemma {:induction false} PullFromOthersEffect(e: Effect, u: UserId, kind: string, peers: map<UserId, Peer>,
                                                order: seq<UserId>, v: UserId)
    ensures var d := PullFromOthers(e, u, kind, peers, order);
            && ExtendsOnly(e, d, u, v)
            && NewOnesSupplied(e, d, u, kind, iset q | OthersSupply(e.router, u, order, q, kind))
  {
    if order == [] {
      ExtendsSelf(e, v);
    } else {
      var front, last := order[..|order| - 1], order[|order| - 1];
      var d, f := PullFromOthers(e, u, kind, peers, front), PullFromOthers(e, u, kind, peers, order);
      PullFromOthersEffect(e, u, kind, peers, front, v);
      var before, now := iset q | OthersSupply(e.router, u, front, q, kind), iset q | OthersSupply(e.router, u, order, q, kind);
      var ps := ProducersOf(d.router, last);
      assert ps == ProducersOf(e.router, last);
      var more := Supplied(ps, kind);
      if last == u {
        SupplyGrows(e.router, u, order, kind);
        assert now == before;
      } else {
        PullListEffect(d, u, kind, ps, PeerIdOf(peers, last), v);
        ExtendsTransitive(e, d, f, v);
        NewOnesTransitive(e, d, f, u, kind, before, more);
        SupplyGrows(e.router, u, order, kind);
        assert now == before + more;
      }
    }
  }

  lemma SupplyGrows(r: RouterState, u: UserId, order: seq<UserId>, kind: string)
    requires order != []
    ensures forall q :: OthersSupply(r, u, order, q, kind) <==>
                        || OthersSupply(r, u, order[..|order| - 1], q, kind)
                        || (order[|order| - 1] != u && Supplies(ProducersOf(r, order[|order| - 1]), q, kind))
  {
    var front, last := order[..|order| - 1], order[|order| - 1];
    forall q
      ensures OthersSupply(r, u, order, q, kind) <==>
              OthersSupply(r, u, front, q, kind) || (last != u && Supplies(ProducersOf(r, last), q, kind))
    {
      if OthersSupply(r, u, front, q, kind) {
        var i :| 0 <= i < |front| && front[i] != u && Supplies(ProducersOf(r, front[i]), q, kind);
        assert order[i] == front[i];
      }
    }
  }
}
