/**
  The queue of HTTP callbacks to be retried. Requests are executed once when accepted; a
  failed one is queued, and a background loop takes one at a time from the front and, if it
  fails again, puts it at the back.
*/
module RetryQueue {
  import opened Slices

  datatype Request = Request(url: string, data: string)

  const NO_REQUEST := Request("", "")

  class ReqQueue {
    var queue: seq<Request>

    constructor ()
      ensures queue == []
    {
      queue := [];
    }

    method PushRequest(url: string, data: string)
      modifies this
      ensures queue == old(queue) + [Request(url, data)]
    {
      queue := queue + [Request(url, data)];
    }

    /** The in-place shift is stored back, so what remains is the tail. An empty queue yields an empty request. */
    method PopRequest() returns (request: Request)
      modifies this
      ensures old(queue) == [] ==> queue == [] && request == NO_REQUEST
      ensures old(queue) != [] ==> [request] + queue == old(queue)
    {
      request := NO_REQUEST;
      if |queue| > 0 {
        request := queue[0];
        queue := RemoveAt(queue, 0);
      }
    }

    /** delivered is whether the first attempt succeeded. */
    method ExecuteRequest(url: string, data: string, delivered: bool)
      modifies this
      ensures queue == if delivered then old(queue) else old(queue) + [Request(url, data)]
    {
      if !delivered {
        PushRequest(url, data);
      }
    }

    /** One round of the background loop; delivered is whether the attempt succeeds, if one is made. */
    method DealTimeoutReq(delivered: bool) returns (request: Request)
      modifies this
      ensures (queue, request) == Round(old(queue), delivered)
    {
      request := PopRequest();
      assert old(queue) != [] ==> old(queue)[1..] == queue && old(queue)[0] == request;
      assert queue + [] == queue;
      if |request.url| > 0 {
        if !delivered {
          PushRequest(request.url, request.data);
        }
      }
    }
  }

  /** A round takes the front; it goes to the back if it has a url and fails again. */
  function Round(queue: seq<Request>, delivered: bool): (seq<Request>, Request) {
    if queue == [] then ([], NO_REQUEST)
    else (queue[1..] + (if queue[0].url != "" && !delivered then [queue[0]] else []), queue[0])
  }

  // The two goroutines interleaved.

  /** attempting holds the requests whose HTTP call is under way, from either goroutine. */
  datatype State = State(queue: seq<Request>, attempting: multiset<Request>, delivered: multiset<Request>,
                         accepted: multiset<Request>)

  datatype Event =
    | Accept(request: Request)
    | Take
    | Succeed(request: Request)
    | Fail(request: Request)

  const START := State([], multiset{}, multiset{}, multiset{})

  predicate Enabled(s: State, e: Event) {
    match e
    case Accept(_) => true
    case Take => s.queue != []
    case Succeed(r) => r in s.attempting
    case Fail(r) => r in s.attempting
  }

  function Step(s: State, e: Event): State
    requires Enabled(s, e)
  {
    match e
    case Accept(r) => s.(attempting := s.attempting + multiset{r}, accepted := s.accepted + multiset{r})
    case Take =>
      var r := s.queue[0];
      s.(queue := s.queue[1..], attempting := if r.url != "" then s.attempting + multiset{r} else s.attempting)
    case Succeed(r) => s.(attempting := s.attempting - multiset{r}, delivered := s.delivered + multiset{r})
    case Fail(r) => s.(attempting := s.attempting - multiset{r}, queue := s.queue + [r])
  }

  /** How often r stands in the queue, is being attempted, or was delivered. */
  function Held(s: State, r: Request): nat {
    multiset(s.queue)[r] + s.attempting[r] + s.delivered[r]
  }

  lemma TakeFirst(queue: seq<Request>, r: Request)
    requires queue != []
    ensures multiset(queue)[r] == multiset(queue[1..])[r] + if r == queue[0] then 1 else 0
  {
    assert queue == [queue[0]] + queue[1..];
  }

  lemma StepConserves(s: State, e: Event, r: Request)
    requires Enabled(s, e)
    ensures Held(s, r) == s.accepted[r] && r.url != "" ==> Held(Step(s, e), r) == Step(s, e).accepted[r]
    ensures Held(s, r) <= s.accepted[r] ==> Held(Step(s, e), r) <= Step(s, e).accepted[r]
  {
    if e.Take? {
      TakeFirst(s.queue, r);
    }
  }

  ghost predicate Legal(s: State, es: seq<Event>)
    decreases |es|
  {
    es == [] || (Enabled(s, es[0]) && Legal(Step(s, es[0]), es[1..]))
  }

  ghost function After(s: State, es: seq<Event>): State
    requires Legal(s, es)
    decreases |es|
  {
    if es == [] then s else After(Step(s, es[0]), es[1..])
  }

  lemma {:induction false} RunConserves(s: State, es: seq<Event>, r: Request)
    requires Legal(s, es) && Held(s, r) <= s.accepted[r]
    requires r.url != "" ==> Held(s, r) == s.accepted[r]
    ensures Held(After(s, es), r) <= After(s, es).accepted[r]
    ensures r.url != "" ==> Held(After(s, es), r) == After(s, es).accepted[r]
    decreases |es|
  {
    if es != [] {
      StepConserves(s, es[0], r);
      RunConserves(Step(s, es[0]), es[1..], r);
    }
  }

  /**
    At every moment of every run the requests queued, attempted and delivered are, with
    multiplicity, those accepted; only requests with an empty url can be lost, and nothing
    is ever made up.
  */
  lemma NothingLostNothingMadeUp(es: seq<Event>, r: Request)
    requires Legal(START, es)
    ensures var s := After(START, es);
            && Held(s, r) <= s.accepted[r]
            && (r.url != "" ==> Held(s, r) == s.accepted[r])
  {
    RunConserves(START, es, r);
  }

  /** A delivered request is gone from the queue and the others move up; a failed one with a url stands last. */
  lemma RoundOutcome(queue: seq<Request>, delivered: bool)
    requires queue != []
    ensures var (rest, request) := Round(queue, delivered);
            && request == queue[0]
            && (delivered || request.url == "" ==> [request] + rest == queue)
            && (!delivered && request.url != "" ==> [request] + rest == queue + [request])
  {
  }

  /** A round of the loop is the machine's Take, followed by Succeed or Fail if the request has a url. */
  lemma RoundIsTwoSteps(s: State, delivered: bool)
    requires s.queue != []
    ensures var request := s.queue[0];
            var taken := Step(s, Take);
            var outcome := if delivered then Succeed(request) else Fail(request);
            if request.url == "" then taken.queue == Round(s.queue, delivered).0 && taken == s.(queue := taken.queue)
            else Enabled(taken, outcome) && Step(taken, outcome).queue == Round(s.queue, delivered).0
                 && Step(taken, outcome).attempting == s.attempting
                 && Step(taken, outcome).delivered == s.delivered + (if delivered then multiset{request} else multiset{})
  {
  }

  // Failing rounds.

  /** What a failed attempt puts back. */
  function Again(r: Request): seq<Request> {
    if r.url != "" then [r] else []
  }

  function WithUrl(queue: seq<Request>): (r: seq<Request>)
    ensures |r| <= |queue|
  {
    if queue == [] then []
    else Again(queue[0]) + WithUrl(queue[1..])
  }

  function FailingRounds(queue: seq<Request>, n: nat): seq<Request>
    decreases n
  {
    if n == 0 then queue else FailingRounds(Round(queue, false).0, n - 1)
  }

  lemma RoundFrom(front: seq<Request>, back: seq<Request>)
    requires front != []
    ensures Round(front + back, false).0 == front[1..] + (back + Again(front[0]))
  {
    assert (front + back)[1..] == front[1..] + back;
  }

  lemma {:induction false} FailingRoundsFrom(front: seq<Request>, back: seq<Request>)
    ensures FailingRounds(front + back, |front|) == back + WithUrl(front)
  {
    if front == [] {
      assert front + back == back;
    } else {
      hide Round, WithUrl;
      RoundFrom(front, back);
      WithUrlHead(front, back);
      FailingRoundsFrom(front[1..], back + Again(front[0]));
    }
  }

  lemma WithUrlHead(front: seq<Request>, back: seq<Request>)
    requires front != []
    ensures back + Again(front[0]) + WithUrl(front[1..]) == back + WithUrl(front)
  {
    assert back + Again(front[0]) + WithUrl(front[1..]) == back + (Again(front[0]) + WithUrl(front[1..]));
  }

  lemma {:induction false} WithUrlKeepsAll(queue: seq<Request>)
    ensures WithUrl(queue) == queue <==> forall r | r in queue :: r.url != ""
    ensures |WithUrl(queue)| == |queue| ==> WithUrl(queue) == queue
  {
    if queue != [] {
      WithUrlKeepsAll(queue[1..]);
      assert queue == [queue[0]] + queue[1..];
      if queue[0].url == "" {
        assert |WithUrl(queue)| < |queue|;
      }
    }
  }

  /** As many failing rounds as there are requests leave those with a url, in their order; so the queue is
      restored exactly when every request has one. */
  lemma FullFailingCycle(queue: seq<Request>)
    ensures FailingRounds(queue, |queue|) == WithUrl(queue)
    ensures FailingRounds(queue, |queue|) == queue <==> forall r | r in queue :: r.url != ""
  {
    FailingRoundsFrom(queue, []);
    assert queue + [] == queue && [] + WithUrl(queue) == WithUrl(queue);
    WithUrlKeepsAll(queue);
  }
}
