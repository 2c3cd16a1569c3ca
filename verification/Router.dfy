/**
  The router of one room: which user produces what, who consumes it, and the transports
  both use. The lists are Go slices; see Slices for the in-place removal.
*/
module Routing {
  import opened Basics
  import opened Slices
  import opened Decimal
  import opened History

  /** What of the RTP parameters decides whether Go can work with them: how many codecs, the second
      codec's parameter block, and whether some encoding is null. */
  datatype Shape = Shape(codecs: nat, secondHasParameters: bool, nullEncoding: bool)

  datatype ProduceRequest = ProduceRequest(transportId: string, kind: string, shape: Shape)

  datatype Producer = Producer(producerId: nat, transportId: string, kind: string, shape: Shape)

  /** An offer writes to the first codec and, for video, to the second one's parameter block. */
  predicate Offerable(kind: string, shape: Shape) {
    if kind == "video" then shape.codecs >= 2 && shape.secondHasParameters else shape.codecs >= 1
  }

  function NewProducer(id: nat, request: ProduceRequest): Producer {
    Producer(id, request.transportId, request.kind, request.shape)
  }

  datatype Consumer = Consumer(consumerId: nat, transportId: string, producerId: nat, kind: string)

  /** workerId is the worker that runs the router. */
  datatype RouterState = RouterState(
    workerId: string,
    producers: map<UserId, seq<Producer>>,
    consumers: map<UserId, seq<Consumer>>,
    produceTransportIds: map<UserId, string>,
    consumeTransportIds: map<UserId, string>)

  function EmptyRouter(workerId: string): RouterState {
    RouterState(workerId, map[], map[], map[], map[])
  }

  function ProducersOf(r: RouterState, u: UserId): seq<Producer> {
    if u in r.producers then r.producers[u] else []
  }

  function ConsumersOf(r: RouterState, u: UserId): seq<Consumer> {
    if u in r.consumers then r.consumers[u] else []
  }

  function ConsumerTransport(r: RouterState, u: UserId): string {
    if u in r.consumeTransportIds then r.consumeTransportIds[u] else ""
  }

  predicate Holds(cs: seq<Consumer>, p: nat) {
    exists i | 0 <= i < |cs| :: cs[i].producerId == p
  }

  function FirstConsumer(cs: seq<Consumer>, p: nat): (i: nat)
    ensures i <= |cs|
    ensures i < |cs| ==> cs[i].producerId == p
    ensures forall j | 0 <= j < i :: cs[j].producerId != p
  {
    if cs == [] || cs[0].producerId == p then 0 else 1 + FirstConsumer(cs[1..], p)
  }

  function FirstProducer(ps: seq<Producer>, p: nat): (i: nat)
    ensures i <= |ps|
    ensures i < |ps| ==> ps[i].producerId == p
    ensures forall j | 0 <= j < i :: ps[j].producerId != p
  {
    if ps == [] || ps[0].producerId == p then 0 else 1 + FirstProducer(ps[1..], p)
  }

  function WithProducer(r: RouterState, u: UserId, p: Producer): RouterState {
    r.(producers := r.producers[u := ProducersOf(r, u) + [p]])
  }

  function WithoutProducer(r: RouterState, u: UserId, p: nat): RouterState {
    var ps := ProducersOf(r, u);
    var i := FirstProducer(ps, p);
    if i < |ps| then r.(producers := r.producers[u := RemoveAt(ps, i)]) else r
  }

  /** A user who already consumes the producer keeps the consumer it has. */
  function WithConsumer(r: RouterState, u: UserId, c: Consumer): RouterState {
    if Holds(ConsumersOf(r, u), c.producerId) then r
    else r.(consumers := r.consumers[u := ConsumersOf(r, u) + [c]])
  }

  /** The stored list after its first consumer of p was shifted out of a local copy of the header. */
  function ShiftedList(cs: seq<Consumer>, p: nat): (r: seq<Consumer>)
    ensures |r| == |cs|
  {
    var i := FirstConsumer(cs, p);
    if i < |cs| then ShiftOut(cs, i) else cs
  }

  function WithoutConsumers(r: RouterState, u: UserId, p: nat): RouterState {
    r.(consumers := map v | v in r.consumers ::
      if v == u then r.consumers[v] else ShiftedList(r.consumers[v], p))
  }

  /** What is reported as closed: for each other user holding a consumer of p, its first one. */
  function ClosedConsumers(r: RouterState, u: UserId, p: nat): map<UserId, nat> {
    map v | v in r.consumers && v != u && Reported(r.consumers[v], p) :: ReportedId(r.consumers[v], p)
  }

  predicate Reported(cs: seq<Consumer>, p: nat) {
    FirstConsumer(cs, p) < |cs|
  }

  function ReportedId(cs: seq<Consumer>, p: nat): nat
    requires Reported(cs, p)
  {
    cs[FirstConsumer(cs, p)].consumerId
  }

  function StreamMid(r: RouterState, u: UserId): string {
    Itoa(|ConsumersOf(r, u)|)
  }

  /** The removal and its report after ranging over part of the map. */
  function ShiftAlong(cm: map<UserId, seq<Consumer>>, u: UserId, p: nat, order: seq<UserId>)
    : (r: (map<UserId, seq<Consumer>>, map<UserId, nat>))
    requires forall v | v in order :: v in cm
    ensures r.0.Keys == cm.Keys && r.1.Keys <= cm.Keys
  {
    if order == [] then (cm, map[])
    else
      var (cs, report) := ShiftAlong(cm, u, p, order[..|order| - 1]);
      var v := order[|order| - 1];
      if v == u then (cs, report)
      else (cs[v := ShiftedList(cs[v], p)],
            if Reported(cs[v], p) then report[v := ReportedId(cs[v], p)] else report)
  }

  /** Over a whole map, in whatever order, each list is shifted once. */
  lemma {:induction false} ShiftAlongAt(cm: map<UserId, seq<Consumer>>, u: UserId, p: nat, order: seq<UserId>, v: UserId)
    requires forall x | x in order :: x in cm
    requires Distinct(order)
    requires v in cm
    ensures var (cs, report) := ShiftAlong(cm, u, p, order);
            if v == u || v !in order then cs[v] == cm[v] && v !in report
            else && cs[v] == ShiftedList(cm[v], p)
                 && (v in report <==> Reported(cm[v], p))
                 && (v in report ==> report[v] == ReportedId(cm[v], p))
  {
    if order != [] {
      ShiftAlongAt(cm, u, p, order[..|order| - 1], v);
    }
  }

  lemma ShiftAlongAll(r: RouterState, u: UserId, p: nat, order: seq<UserId>)
    requires Enumerates(order, r.consumers.Keys)
    ensures ShiftAlong(r.consumers, u, p, order)
            == (WithoutConsumers(r, u, p).consumers, ClosedConsumers(r, u, p))
  {
    hide ShiftedList, Reported, ReportedId;
    var (cs, report) := ShiftAlong(r.consumers, u, p, order);
    var without, closed := WithoutConsumers(r, u, p).consumers, ClosedConsumers(r, u, p);
    forall v | v in r.consumers
      ensures cs[v] == without[v]
      ensures v in report <==> v in closed
      ensures v in closed ==> report[v] == closed[v]
    {
      ShiftAlongAt(r.consumers, u, p, order, v);
    }
    assert cs == without;
    assert report == closed;
  }

  class Router {
    const routerId: nat
    const workerId: string
    var producers: map<UserId, seq<Producer>>
    var consumers: map<UserId, seq<Consumer>>
    var produceTransportIds: map<UserId, string>
    var consumeTransportIds: map<UserId, string>

    constructor (routerId: nat, workerId: string)
      ensures this.routerId == routerId && State() == EmptyRouter(workerId)
    {
      this.routerId, this.workerId := routerId, workerId;
      producers, consumers, produceTransportIds, consumeTransportIds := map[], map[], map[], map[];
    }

    function State(): RouterState
      reads this
    {
      RouterState(workerId, producers, consumers, produceTransportIds, consumeTransportIds)
    }

    method AddProducer(userId: UserId, producer: Producer)
      modifies this
      ensures State() == WithProducer(old(State()), userId, producer)
    {
      if userId !in producers {
        producers := producers[userId := []];
      }
      producers := producers[userId := producers[userId] + [producer]];
    }

    /** The first of the user's own producers with that id; nobody else's will do. */
    method GetProducer(userId: UserId, producerId: nat) returns (producer: Option<Producer>)
      ensures var ps := ProducersOf(State(), userId);
              && (producer.Some? <==> exists q | q in ps :: q.producerId == producerId)
              && (producer.Some? ==> exists i | 0 <= i < |ps| ::
                    && ps[i] == producer.value && ps[i].producerId == producerId
                    && forall j | 0 <= j < i :: ps[j].producerId != producerId)
    {
      if userId in producers {
        for i := 0 to |producers[userId]|
          invariant forall j | 0 <= j < i :: producers[userId][j].producerId != producerId
        {
          if producers[userId][i].producerId == producerId {
            return Some(producers[userId][i]);
          }
        }
      }
      return None;
    }

    method RemoveProducer(userId: UserId, producerId: nat)
      modifies this
      ensures State() == WithoutProducer(old(State()), userId, producerId)
    {
      if userId in producers {
        var ps := producers[userId];
        for i := 0 to |ps|
          invariant forall j | 0 <= j < i :: ps[j].producerId != producerId
          invariant producers == old(producers) && State() == old(State())
        {
          if ps[i].producerId == producerId {
            assert i == FirstProducer(ps, producerId);
            producers := producers[userId := ps[..i] + ps[i + 1..]];
            break;
          }
        }
      }
    }

    method AddConsumer(userId: UserId, consumer: Consumer) returns (added: bool)
      modifies this
      ensures added == !Holds(ConsumersOf(old(State()), userId), consumer.producerId)
      ensures State() == WithConsumer(old(State()), userId, consumer)
    {
      if userId !in consumers {
        consumers := consumers[userId := []];
      } else {
        var cs := consumers[userId];
        for i := 0 to |cs|
          invariant forall j | 0 <= j < i :: cs[j].producerId != consumer.producerId
        {
          if cs[i].producerId == consumer.producerId {
            return false;
          }
        }
      }
      consumers := consumers[userId := consumers[userId] + [consumer]];
      return true;
    }

    /** The inner loop: scan one user's list, shift the first match out of its backing array, and stop. */
    method ShiftConsumer(user: UserId, producerId: nat) returns (found: bool, consumerId: nat)
      requires user in consumers
      modifies this`consumers
      ensures consumers == old(consumers)[user := ShiftedList(old(consumers)[user], producerId)]
      ensures found == Reported(old(consumers)[user], producerId)
      ensures found ==> consumerId == ReportedId(old(consumers)[user], producerId)
    {
      var cs := consumers[user];
      for i := 0 to |cs|
        invariant i <= FirstConsumer(cs, producerId)
        invariant consumers == old(consumers)
      {
        if cs[i].producerId == producerId {
          var backing := new Consumer[|cs|](k requires 0 <= k < |cs| => cs[k]);
          assert backing[..|cs|] == cs;
          AppendOver(backing, |cs|, i);
          consumers := consumers[user := backing[..]];
          assert backing[..] == backing[..|cs|];
          return true, cs[i].consumerId;
        }
      }
      return false, 0;
    }

    /**
      The shortened header goes to a local variable and is dropped, so each stored list
      keeps its length. order is the order in which the map is ranged over.
    */
    method RemoveConsumerByProducerId(userId: UserId, producerId: nat, order: seq<UserId>)
      returns (removed: map<UserId, nat>)
      requires Enumerates(order, consumers.Keys)
      modifies this`consumers
      ensures State() == WithoutConsumers(old(State()), userId, producerId)
      ensures removed == ClosedConsumers(old(State()), userId, producerId)
    {
      removed := map[];
      for k := 0 to |order|
        invariant (consumers, removed) == ShiftAlong(old(consumers), userId, producerId, order[..k])
        invariant consumers.Keys == old(consumers.Keys)
      {
        var user := order[k];
        assert order[..k + 1][..k] == order[..k];
        if user != userId {
          var found, consumerId := ShiftConsumer(user, producerId);
          if found {
            removed := removed[user := consumerId];
          }
        }
      }
      assert order[..|order|] == order;
      ShiftAlongAll(old(State()), userId, producerId, order);
    }

    method GetConsumerTransportId(userId: UserId) returns (id: string)
      ensures id == ConsumerTransport(State(), userId)
    {
      if userId in consumeTransportIds {
        return consumeTransportIds[userId];
      }
      return "";
    }

    /** The first transport a user connects stays its transport. */
    method SaveConsumeTransportId(userId: UserId, transportId: string)
      modifies this`consumeTransportIds
      ensures consumeTransportIds == map[userId := transportId] + old(consumeTransportIds)
    {
      if userId !in consumeTransportIds {
        consumeTransportIds := consumeTransportIds[userId := transportId];
      }
    }

    method SaveProducerTransportId(userId: UserId, transportId: string)
      modifies this`produceTransportIds
      ensures produceTransportIds == map[userId := transportId] + old(produceTransportIds)
    {
      if userId !in produceTransportIds {
        produceTransportIds := produceTransportIds[userId := transportId];
      }
    }

    method GetConsumerStreamMid(userId: UserId) returns (mid: string)
      ensures mid == StreamMid(State(), userId)
    {
      var size := if userId in consumers then |consumers[userId]| else 0;
      mid := Itoa(size);
    }
  }

  lemma HoldsIffFirst(cs: seq<Consumer>, p: nat)
    ensures Holds(cs, p) <==> FirstConsumer(cs, p) < |cs|
  {
  }

  lemma HoldsConcat(a: seq<Consumer>, b: seq<Consumer>, p: nat)
    ensures Holds(a + b, p) <==> Holds(a, p) || Holds(b, p)
  {
    assert forall i | 0 <= i < |a| :: (a + b)[i] == a[i];
    assert forall i | 0 <= i < |b| :: (a + b)[|a| + i] == b[i];
  }

  /** What the in-place removal leaves in one stored list. */
  lemma ShiftedListHolds(cs: seq<Consumer>, p: nat, q: nat)
    ensures var i := FirstConsumer(cs, p);
            Holds(ShiftedList(cs, p), q) <==>
            if q == p && i < |cs| then i == |cs| - 1 || Holds(cs[i + 1..], p) else Holds(cs, q)
  {
    var i, ds := FirstConsumer(cs, p), ShiftedList(cs, p);
    if i < |cs| {
      var left, mid, right, last := cs[..i], [cs[i]], cs[i + 1..], [cs[|cs| - 1]];
      assert cs == (left + mid) + right;
      assert ds == (left + right) + last;
      HoldsConcat(left + mid, right, q);
      HoldsConcat(left, mid, q);
      HoldsConcat(left + right, last, q);
      HoldsConcat(left, right, q);
      assert Holds(mid, q) <==> mid[0].producerId == q;
      assert Holds(last, q) <==> last[0].producerId == q;
      assert right != [] ==> last[0] == right[|right| - 1];
    }
  }

  lemma ShiftedListSubset(cs: seq<Consumer>, p: nat)
    ensures forall c | c in ShiftedList(cs, p) :: c in cs
  {
    var i := FirstConsumer(cs, p);
    if i < |cs| {
      assert cs == cs[..i] + [cs[i]] + cs[i + 1..];
    }
  }

  /**
    Closing p reports exactly the other users who hold a consumer of it, each with its
    first consumer's id.
  */
  lemma ClosingReports(r: RouterState, u: UserId, p: nat, v: UserId)
    ensures v in ClosedConsumers(r, u, p) <==> v != u && Holds(ConsumersOf(r, v), p)
    ensures v in ClosedConsumers(r, u, p) ==>
              exists i | 0 <= i < |ConsumersOf(r, v)| ::
                var cs := ConsumersOf(r, v);
                && cs[i].producerId == p
                && (forall j | 0 <= j < i :: cs[j].producerId != p)
                && ClosedConsumers(r, u, p)[v] == cs[i].consumerId
  {
    HoldsIffFirst(ConsumersOf(r, v), p);
  }

  lemma ClosingLists(r: RouterState, u: UserId, p: nat, v: UserId)
    ensures var cs := ConsumersOf(r, v);
            ConsumersOf(WithoutConsumers(r, u, p), v) == if v == u then cs else ShiftedList(cs, p)
  {
    hide ShiftedList;
    assert ShiftedList([], p) == [];
  }

  /**
    Closing p leaves every list its length and every consumer of another producer, and adds
    nothing. The closed producer's own consumer is still there exactly when its first
    occurrence stood last or was not the only one.
  */
  lemma ClosingConsumers(r: RouterState, u: UserId, p: nat, v: UserId, q: nat)
    ensures var cs, ds := ConsumersOf(r, v), ConsumersOf(WithoutConsumers(r, u, p), v);
            && |ds| == |cs|
            && (forall c | c in ds :: c in cs)
            && (v == u || !Holds(cs, p) ==> ds == cs)
            && (q != p ==> (Holds(ds, q) <==> Holds(cs, q)))
            && (v != u && Holds(cs, p) ==>
                  exists i | 0 <= i < |cs| ::
                    && cs[i].producerId == p
                    && (forall j | 0 <= j < i :: cs[j].producerId != p)
                    && ds == cs[..i] + cs[i + 1..] + [cs[|cs| - 1]]
                    && (Holds(ds, p) <==> i == |cs| - 1 || Holds(cs[i + 1..], p)))
  {
    var cs := ConsumersOf(r, v);
    HoldsIffFirst(cs, p);
    ClosingLists(r, u, p, v);
    ShiftedListHolds(cs, p, p);
    ShiftedListHolds(cs, p, q);
    ShiftedListSubset(cs, p);
    assert FirstConsumer(cs, p) < |cs| ==> ShiftedList(cs, p) == ShiftOut(cs, FirstConsumer(cs, p));
  }

  // What storing the shortened list would do instead.

  ghost predicate OnePerProducer(cs: seq<Consumer>) {
    forall i, j | 0 <= i < j < |cs| :: cs[i].producerId != cs[j].producerId
  }

  /** The list as it would be if the shortened header were stored. */
  function ShortenedList(cs: seq<Consumer>, p: nat): seq<Consumer> {
    var i := FirstConsumer(cs, p);
    if i < |cs| then RemoveAt(cs, i) else cs
  }

  /** The shifted list has a consumer twice unless the closed producer's was not there or stood last. */
  lemma ShiftingRepeatsConsumer(cs: seq<Consumer>, p: nat)
    requires OnePerProducer(cs)
    ensures OnePerProducer(ShiftedList(cs, p)) <==> FirstConsumer(cs, p) >= |cs| - 1
  {
    var i, ds := FirstConsumer(cs, p), ShiftedList(cs, p);
    if i < |cs| - 1 {
      assert ds[|cs| - 2] == cs[|cs| - 1] == ds[|cs| - 1];
    } else if i == |cs| - 1 {
      assert ds == cs;
    }
  }

  /**
    Storing the shortened list would keep one consumer per producer and drop the closed one,
    but the next consumer added would get the mid of the one added before it, where the
    stored list gives a new one.
  */
  lemma ShorteningRepeatsMid(r: RouterState, u: UserId, p: nat, c: Consumer)
    requires var cs := ConsumersOf(r, u);
             OnePerProducer(cs) && Holds(cs, p) && !Holds(cs, c.producerId)
    ensures var cs := ConsumersOf(r, u);
            var shortened := r.(consumers := r.consumers[u := ShortenedList(cs, p)]);
            var stored := r.(consumers := r.consumers[u := ShiftedList(cs, p)]);
            && OnePerProducer(ShortenedList(cs, p)) && !Holds(ShortenedList(cs, p), p)
            && StreamMid(WithConsumer(shortened, u, c), u) == StreamMid(r, u)
            && StreamMid(WithConsumer(stored, u, c), u) != StreamMid(r, u)
  {
    hide Itoa, ShortenedList, ShiftedList, Holds, OnePerProducer;
    var cs := ConsumersOf(r, u);
    ShortenedHolds(cs, p, c.producerId);
    HoldsIffFirst(cs, p);
    ShiftedListHolds(cs, p, c.producerId);
    MidsDiffer(|cs|);
  }

  lemma ShortenedHolds(cs: seq<Consumer>, p: nat, q: nat)
    requires OnePerProducer(cs) && Holds(cs, p) && !Holds(cs, q)
    ensures var ds := ShortenedList(cs, p);
            |ds| == |cs| - 1 && OnePerProducer(ds) && !Holds(ds, p) && !Holds(ds, q)
  {
    HoldsIffFirst(cs, p);
  }

  lemma MidsDiffer(n: nat)
    ensures Itoa(n) != Itoa(n + 1)
  {
    AtoiItoa(n);
    AtoiItoa(n + 1);
  }
}
