/**
  The request/response protocol over a worker's stream. Callers number and enrol a request,
  send it and wait; the stream's reader delivers replies. The steps are those between which
  goroutines can switch, so a caller can take its reply while the reader, still holding the
  stream's lock, has not yet deleted the entry.
*/
module Rpc {
  import opened Basics

  const WRAP: nat := 0x1_0000_0000_0000_0000

  type WorkerId = string
  type StreamRef = nat
  type CallId = nat

  datatype Reply = Reply(seqId: nat, body: string)

  datatype Outcome = Replied(reply: Reply) | Offline | SendError | Timeout

  /** The id the 64-bit counter returns on its n-th increment. */
  function SeqOf(n: nat): nat {
    n % WRAP
  }

  /** Where a call of sendRequest stands. */
  datatype Phase = Located | Numbered | Enrolled | Waiting | SendFailed | TimedOut | Returned(outcome: Outcome)

  /**
    ticket counts the increments of the id counter, from 1; 0 is not numbered yet. The
    channel holds at most one reply. delivered counts the replies ever put on it.
  */
  datatype Call = Call(stream: StreamRef, ticket: nat, phase: Phase, channel: seq<Reply>, delivered: nat)
  {
    function SeqId(): nat {
      SeqOf(ticket)
    }

    predicate GotReply() {
      phase.Returned? && phase.outcome.Replied?
    }

    predicate Awaiting() {
      phase.Enrolled? || phase.Waiting? || phase.SendFailed? || phase.TimedOut?
    }
  }

  /** Who holds a stream's lock between steps: nobody, or the reader after a delivery. */
  datatype Lock = Free | Delivering(seqId: nat)

  datatype Stream = Stream(pending: map<nat, CallId>, lock: Lock)

  datatype Server = Server(
    workers: map<WorkerId, StreamRef>,
    streams: map<StreamRef, Stream>,
    calls: map<CallId, Call>,
    issued: nat)

  datatype Event =
    | Locate(call: CallId, worker: WorkerId)
    | Number(call: CallId)
    | Enrol(call: CallId)
    | SendOk(call: CallId)
    | SendFail(call: CallId)
    | Withdraw(call: CallId)
    | Receive(call: CallId)
    | TimerFires(call: CallId)
    | Deliver(stream: StreamRef, reply: Reply)
    | FinishDelivery(stream: StreamRef)
    | Attach(worker: WorkerId, stream: StreamRef)
    | Detach(worker: WorkerId)

  const START := Server(map[], map[], map[], 0)

  predicate InPhase(s: Server, c: CallId, phase: Phase) {
    c in s.calls && s.calls[c].phase == phase
  }

  predicate LockFree(s: Server, r: StreamRef) {
    r in s.streams && s.streams[r].lock == Free
  }

  /** The reader would find the entry, and its send would have to wait for room in the channel. */
  predicate Blocks(s: Server, r: StreamRef, m: Reply) {
    && r in s.streams && m.seqId in s.streams[r].pending
    && var c := s.streams[r].pending[m.seqId];
       c in s.calls && |s.calls[c].channel| == 1
  }

  predicate Enabled(s: Server, e: Event) {
    match e
    case Locate(c, _) => c !in s.calls
    case Number(c) => InPhase(s, c, Located) && s.issued < WRAP
    case Enrol(c) => InPhase(s, c, Numbered) && LockFree(s, s.calls[c].stream)
    case SendOk(c) => InPhase(s, c, Enrolled)
    case SendFail(c) => InPhase(s, c, Enrolled)
    case Withdraw(c) =>
      && (InPhase(s, c, SendFailed) || InPhase(s, c, TimedOut))
      && LockFree(s, s.calls[c].stream)
    case Receive(c) => InPhase(s, c, Waiting) && s.calls[c].channel != []
    case TimerFires(c) => InPhase(s, c, Waiting)
    case Deliver(r, m) => LockFree(s, r) && !Blocks(s, r, m)
    case FinishDelivery(r) => r in s.streams && s.streams[r].lock.Delivering?
    case Attach(_, r) => r !in s.streams
    case Detach(_) => true
  }

  function WithCall(s: Server, c: CallId, call: Call): Server {
    s.(calls := s.calls[c := call])
  }

  function WithStream(s: Server, r: StreamRef, stream: Stream): Server {
    s.(streams := s.streams[r := stream])
  }

  function DeliverStep(s: Server, r: StreamRef, m: Reply): Server
    requires r in s.streams
  {
    var stream := s.streams[r];
    if m.seqId !in stream.pending || stream.pending[m.seqId] !in s.calls then s
    else
      var c := stream.pending[m.seqId];
      var call := s.calls[c];
      WithStream(WithCall(s, c, call.(channel := call.channel + [m], delivered := call.delivered + 1)),
                 r, stream.(lock := Delivering(m.seqId)))
  }

  function Step(s: Server, e: Event): Server
    requires Enabled(s, e)
  {
    match e
    case Locate(c, worker) =>
      if worker in s.workers then WithCall(s, c, Call(s.workers[worker], 0, Located, [], 0))
      else WithCall(s, c, Call(0, 0, Returned(Offline), [], 0))
    case Number(c) =>
      WithCall(s, c, s.calls[c].(ticket := s.issued + 1, phase := Numbered)).(issued := s.issued + 1)
    case Enrol(c) =>
      var call := s.calls[c];
      var stream := s.streams[call.stream];
      WithStream(WithCall(s, c, call.(phase := Enrolled)), call.stream,
                 stream.(pending := stream.pending[call.SeqId() := c]))
    case SendOk(c) => WithCall(s, c, s.calls[c].(phase := Waiting))
    case SendFail(c) => WithCall(s, c, s.calls[c].(phase := SendFailed))
    case Withdraw(c) =>
      var call := s.calls[c];
      var stream := s.streams[call.stream];
      WithStream(WithCall(s, c, call.(phase := Returned(if call.phase.TimedOut? then Timeout else SendError))),
                 call.stream, stream.(pending := stream.pending - {call.SeqId()}))
    case Receive(c) =>
      var call := s.calls[c];
      WithCall(s, c, call.(phase := Returned(Replied(call.channel[0])), channel := call.channel[1..]))
    case TimerFires(c) => WithCall(s, c, s.calls[c].(phase := TimedOut))
    case Deliver(r, m) => DeliverStep(s, r, m)
    case FinishDelivery(r) =>
      var stream := s.streams[r];
      WithStream(s, r, Stream(stream.pending - {stream.lock.seqId}, Free))
    case Attach(worker, r) =>
      WithStream(s.(workers := s.workers[worker := r]), r, Stream(map[], Free))
    case Detach(worker) => s.(workers := s.workers - {worker})
  }

  // The invariant, piece by piece; each piece says nothing about what is not there.

  /** An entry leads to a call of this stream under its own id; unless its reply is being delivered, it waits empty. */
  ghost predicate EntryOk(s: Server, r: StreamRef, id: nat) {
    r in s.streams && id in s.streams[r].pending ==>
      var c := s.streams[r].pending[id];
      && c in s.calls && s.calls[c].stream == r && s.calls[c].ticket > 0 && s.calls[c].SeqId() == id
      && if s.streams[r].lock == Delivering(id) then s.calls[c].delivered == 1 && (s.calls[c].Awaiting() || s.calls[c].GotReply())
         else s.calls[c].delivered == 0 && s.calls[c].Awaiting()
  }

  ghost predicate LockOk(s: Server, r: StreamRef) {
    r in s.streams && s.streams[r].lock.Delivering? ==> s.streams[r].lock.seqId in s.streams[r].pending
  }

  /** The replies put on a call's channel are there, or were returned; there is at most one, and it is its own. */
  ghost predicate CallOk(s: Server, c: CallId) {
    c in s.calls ==>
      var call := s.calls[c];
      && call.ticket <= s.issued
      && (call.ticket == 0 <==> call.phase == Located || call.phase == Returned(Offline))
      && (call.phase != Returned(Offline) ==> call.stream in s.streams)
      && call.delivered == |call.channel| + (if call.GotReply() then 1 else 0) && call.delivered <= 1
      && (forall m | m in call.channel :: m.seqId == call.SeqId())
      && (call.GotReply() ==> call.phase.outcome.reply.seqId == call.SeqId())
      && (call.phase.Located? || call.phase.Numbered? ==> call.delivered == 0)
  }

  /** A call that still expects a reply is listed, so that the reply will find it. */
  ghost predicate ListedOk(s: Server, c: CallId) {
    c in s.calls && s.calls[c].Awaiting() && s.calls[c].delivered == 0 ==>
      var r, id := s.calls[c].stream, s.calls[c].SeqId();
      r in s.streams && id in s.streams[r].pending && s.streams[r].pending[id] == c
  }

  ghost predicate TicketsDistinct(s: Server) {
    forall c, d | c in s.calls && d in s.calls && c != d :: s.calls[c].ticket > 0 ==> s.calls[c].ticket != s.calls[d].ticket
  }

  ghost predicate Invariant(s: Server) {
    && s.issued <= WRAP
    && TicketsDistinct(s)
    && (forall w | w in s.workers :: s.workers[w] in s.streams)
    && (forall r, id :: EntryOk(s, r, id))
    && (forall r :: LockOk(s, r))
    && (forall c :: CallOk(s, c))
    && (forall c :: ListedOk(s, c))
  }

  lemma StartKeeps()
    ensures Invariant(START)
  {
  }

  /** Up to 2^64 calls, distinct tickets are distinct ids. */
  lemma IdsDistinct(s: Server, c: CallId, d: CallId)
    requires c in s.calls && d in s.calls && c != d
    requires s.calls[c].ticket > 0 && s.calls[d].ticket > 0
    requires Invariant(s)
    ensures s.calls[c].SeqId() != s.calls[d].SeqId()
  {
    assert CallOk(s, c) && CallOk(s, d);
  }

  /** The 2^64 + n-th call is given the n-th call's id. */
  lemma IdsRepeat(a: Call, b: Call)
    ensures a.SeqId() == b.SeqId() <==> (a.ticket - b.ticket) % WRAP == 0
  {
    assert a.ticket == WRAP * (a.ticket / WRAP) + a.ticket % WRAP;
    assert b.ticket == WRAP * (b.ticket / WRAP) + b.ticket % WRAP;
  }

  /** An entry under a call's id is that call's. */
  lemma PendingIsMine(s: Server, c: CallId, r: StreamRef)
    requires c in s.calls && s.calls[c].ticket > 0
    requires r in s.streams && s.calls[c].SeqId() in s.streams[r].pending
    requires Invariant(s)
    ensures s.streams[r].pending[s.calls[c].SeqId()] == c && r == s.calls[c].stream
  {
    hide SeqOf, CallOk, ListedOk, LockOk;
    var id := s.calls[c].SeqId();
    assert EntryOk(s, r, id);
    var d := s.streams[r].pending[id];
    if d != c {
      IdsDistinct(s, c, d);
    }
  }

  // Every step keeps the invariant.

  /** The step changed call c only, keeping its place in the stream, its id and its replies. */
  ghost predicate SamePlace(s: Server, p: Server, c: CallId) {
    && c in s.calls && c in p.calls && p.calls == s.calls[c := p.calls[c]]
    && p.calls[c].stream == s.calls[c].stream && p.calls[c].ticket == s.calls[c].ticket
    && p.workers == s.workers && p.issued == s.issued && p.streams.Keys == s.streams.Keys
  }

  lemma PlacesKeep(s: Server, p: Server, c: CallId)
    requires SamePlace(s, p, c) && TicketsDistinct(s)
    requires forall w | w in s.workers :: s.workers[w] in s.streams
    ensures TicketsDistinct(p) && forall w | w in p.workers :: p.workers[w] in p.streams
  {
  }

  lemma InvariantFrom(s: Server)
    requires s.issued <= WRAP && TicketsDistinct(s) && forall w | w in s.workers :: s.workers[w] in s.streams
    requires forall r, id :: EntryOk(s, r, id)
    requires forall r :: LockOk(s, r)
    requires forall c :: CallOk(s, c)
    requires forall c :: ListedOk(s, c)
    ensures Invariant(s)
  {
  }

  /** A call that goes on waiting, in whatever phase. */
  lemma PhaseChangeKeeps(s: Server, c: CallId, phase: Phase)
    requires c in s.calls && s.calls[c].Awaiting() && s.calls[c].(phase := phase).Awaiting()
    requires Invariant(s)
    ensures Invariant(WithCall(s, c, s.calls[c].(phase := phase)))
  {
    hide SeqOf;
    var p := WithCall(s, c, s.calls[c].(phase := phase));
    PlacesKeep(s, p, c);
    forall r, id ensures EntryOk(p, r, id) { assert EntryOk(s, r, id); }
    forall r ensures LockOk(p, r) { assert LockOk(s, r); }
    forall d ensures CallOk(p, d) { assert CallOk(s, d); }
    forall d ensures ListedOk(p, d) { assert ListedOk(s, d); }
  }

  lemma LocateKeeps(s: Server, c: CallId, worker: WorkerId)
    requires Enabled(s, Locate(c, worker)) && Invariant(s)
    ensures Invariant(Step(s, Locate(c, worker)))
  {
    hide SeqOf;
    var p := Step(s, Locate(c, worker));
    forall r, id ensures EntryOk(p, r, id) { assert EntryOk(s, r, id); }
    forall r ensures LockOk(p, r) { assert LockOk(s, r); }
    forall d ensures CallOk(p, d) { assert CallOk(s, d); }
    forall d ensures ListedOk(p, d) { assert ListedOk(s, d); }
  }

  lemma NumberKeeps(s: Server, c: CallId)
    requires Enabled(s, Number(c)) && Invariant(s)
    ensures Invariant(Step(s, Number(c)))
  {
    hide SeqOf;
    var p := Step(s, Number(c));
    assert CallOk(s, c);
    forall r, id ensures EntryOk(p, r, id) { assert EntryOk(s, r, id); }
    forall r ensures LockOk(p, r) { assert LockOk(s, r); }
    forall d ensures CallOk(p, d) && (d in s.calls ==> s.calls[d].ticket <= s.issued) { assert CallOk(s, d); }
    forall d ensures ListedOk(p, d) { assert ListedOk(s, d); }
  }

  lemma EnrolKeeps(s: Server, c: CallId)
    requires Enabled(s, Enrol(c)) && Invariant(s)
    ensures Invariant(Step(s, Enrol(c)))
  {
    hide SeqOf, Invariant;
    var p := Step(s, Enrol(c));
    EnrolEntries(s, c);
    EnrolCalls(s, c);
    PlacesKeep(s, p, c) by { InvariantParts(s); NumberedHasTicket(s, c); }
    InvariantParts(s);
    forall r ensures LockOk(p, r) { assert LockOk(s, r); }
    InvariantFrom(p);
  }

  lemma InvariantParts(s: Server)
    requires Invariant(s)
    ensures s.issued <= WRAP && TicketsDistinct(s) && forall w | w in s.workers :: s.workers[w] in s.streams
    ensures forall r :: LockOk(s, r)
  {
  }

  lemma NumberedHasTicket(s: Server, c: CallId)
    requires InPhase(s, c, Numbered) && Invariant(s)
    ensures s.calls[c].ticket > 0 && s.calls[c].stream in s.streams && s.calls[c].delivered == 0
  {
    assert CallOk(s, c);
  }

  lemma EnrolEntries(s: Server, c: CallId)
    requires Enabled(s, Enrol(c)) && Invariant(s)
    ensures forall r, id :: EntryOk(Step(s, Enrol(c)), r, id)
  {
    hide SeqOf, ListedOk;
    var p := Step(s, Enrol(c));
    assert CallOk(s, c);
    forall r, id ensures EntryOk(p, r, id) {
      assert EntryOk(s, r, id);
    }
  }

  lemma EnrolCalls(s: Server, c: CallId)
    requires Enabled(s, Enrol(c)) && Invariant(s)
    ensures forall d :: CallOk(Step(s, Enrol(c)), d) && ListedOk(Step(s, Enrol(c)), d)
  {
    hide SeqOf, EntryOk, LockOk;
    var p := Step(s, Enrol(c));
    NumberedHasTicket(s, c);
    forall d ensures CallOk(p, d) && ListedOk(p, d) {
      assert CallOk(s, d) && ListedOk(s, d);
      if d != c && d in s.calls && s.calls[d].ticket > 0 {
        IdsDistinct(s, c, d);
      }
    }
  }

  lemma WithdrawKeeps(s: Server, c: CallId)
    requires Enabled(s, Withdraw(c)) && Invariant(s)
    ensures Invariant(Step(s, Withdraw(c)))
  {
    hide SeqOf, Invariant;
    var p := Step(s, Withdraw(c));
    WithdrawEntries(s, c);
    WithdrawCalls(s, c);
    InvariantParts(s);
    PlacesKeep(s, p, c);
    forall r ensures LockOk(p, r) { assert LockOk(s, r); }
    InvariantFrom(p);
  }

  lemma WithdrawEntries(s: Server, c: CallId)
    requires Enabled(s, Withdraw(c)) && Invariant(s)
    ensures forall r, id :: EntryOk(Step(s, Withdraw(c)), r, id)
  {
    hide SeqOf, ListedOk, CallOk;
    var p := Step(s, Withdraw(c));
    forall r, id ensures EntryOk(p, r, id) {
      assert EntryOk(s, r, id);
    }
  }

  lemma WithdrawCalls(s: Server, c: CallId)
    requires Enabled(s, Withdraw(c)) && Invariant(s)
    ensures forall d :: CallOk(Step(s, Withdraw(c)), d) && ListedOk(Step(s, Withdraw(c)), d)
  {
    hide SeqOf, EntryOk, LockOk;
    var p := Step(s, Withdraw(c));
    assert CallOk(s, c);
    forall d ensures CallOk(p, d) && ListedOk(p, d) {
      assert CallOk(s, d) && ListedOk(s, d);
      if d != c && d in s.calls && s.calls[d].ticket > 0 {
        IdsDistinct(s, c, d);
      }
    }
  }

  lemma ReceiveKeeps(s: Server, c: CallId)
    requires Enabled(s, Receive(c)) && Invariant(s)
    ensures Invariant(Step(s, Receive(c)))
  {
    hide SeqOf, Invariant;
    var p := Step(s, Receive(c));
    InvariantParts(s);
    PlacesKeep(s, p, c);
    ReceiveEntries(s, c);
    ReceiveCalls(s, c);
    forall r ensures LockOk(p, r) { assert LockOk(s, r); }
    InvariantFrom(p);
  }

  lemma ReceiveEntries(s: Server, c: CallId)
    requires Enabled(s, Receive(c)) && Invariant(s)
    ensures forall r, id :: EntryOk(Step(s, Receive(c)), r, id)
  {
    hide SeqOf, ListedOk;
    var p := Step(s, Receive(c));
    assert CallOk(s, c);
    forall r, id ensures EntryOk(p, r, id) { assert EntryOk(s, r, id); }
  }

  lemma ReceiveCalls(s: Server, c: CallId)
    requires Enabled(s, Receive(c)) && Invariant(s)
    ensures forall d :: CallOk(Step(s, Receive(c)), d) && ListedOk(Step(s, Receive(c)), d)
  {
    hide SeqOf, EntryOk, LockOk;
    var p := Step(s, Receive(c));
    forall d ensures CallOk(p, d) && ListedOk(p, d) {
      assert CallOk(s, d) && ListedOk(s, d);
    }
  }

  lemma DeliverKeeps(s: Server, r: StreamRef, m: Reply)
    requires Enabled(s, Deliver(r, m)) && Invariant(s)
    ensures Invariant(Step(s, Deliver(r, m)))
  {
    var p := Step(s, Deliver(r, m));
    if m.seqId in s.streams[r].pending {
      assert EntryOk(s, r, m.seqId);
      hide SeqOf, Invariant, EntryOk, CallOk, ListedOk;
      InvariantParts(s);
      PlacesKeep(s, p, s.streams[r].pending[m.seqId]);
      DeliverEntries(s, r, m);
      DeliverCalls(s, r, m);
      forall q ensures LockOk(p, q) { assert LockOk(s, q); }
      InvariantFrom(p);
    }
  }

  lemma DeliverEntries(s: Server, r: StreamRef, m: Reply)
    requires Enabled(s, Deliver(r, m)) && m.seqId in s.streams[r].pending && Invariant(s)
    ensures forall q, id :: EntryOk(Step(s, Deliver(r, m)), q, id)
  {
    hide SeqOf, ListedOk, CallOk;
    var p := Step(s, Deliver(r, m));
    assert EntryOk(s, r, m.seqId);
    forall q, id ensures EntryOk(p, q, id) { assert EntryOk(s, q, id); }
  }

  lemma DeliverCalls(s: Server, r: StreamRef, m: Reply)
    requires Enabled(s, Deliver(r, m)) && m.seqId in s.streams[r].pending && Invariant(s)
    ensures forall d :: CallOk(Step(s, Deliver(r, m)), d) && ListedOk(Step(s, Deliver(r, m)), d)
  {
    hide SeqOf, LockOk;
    var p := Step(s, Deliver(r, m));
    assert EntryOk(s, r, m.seqId);
    hide EntryOk;
    forall d ensures CallOk(p, d) && ListedOk(p, d) {
      assert CallOk(s, d) && ListedOk(s, d);
    }
  }

  lemma FinishKeeps(s: Server, r: StreamRef)
    requires Enabled(s, FinishDelivery(r)) && Invariant(s)
    ensures Invariant(Step(s, FinishDelivery(r)))
  {
    hide SeqOf, Invariant;
    var p := Step(s, FinishDelivery(r));
    FinishEntries(s, r);
    FinishCalls(s, r);
    InvariantParts(s);
    forall q ensures LockOk(p, q) { assert LockOk(s, q); }
    InvariantFrom(p);
  }

  lemma FinishEntries(s: Server, r: StreamRef)
    requires Enabled(s, FinishDelivery(r)) && Invariant(s)
    ensures forall q, id :: EntryOk(Step(s, FinishDelivery(r)), q, id)
  {
    hide SeqOf, ListedOk, CallOk;
    var p := Step(s, FinishDelivery(r));
    forall q, id ensures EntryOk(p, q, id) { assert EntryOk(s, q, id); }
  }

  lemma FinishCalls(s: Server, r: StreamRef)
    requires Enabled(s, FinishDelivery(r)) && Invariant(s)
    ensures forall d :: CallOk(Step(s, FinishDelivery(r)), d) && ListedOk(Step(s, FinishDelivery(r)), d)
  {
    hide SeqOf;
    var p := Step(s, FinishDelivery(r));
    assert LockOk(s, r) && EntryOk(s, r, s.streams[r].lock.seqId);
    hide EntryOk, LockOk;
    forall d ensures CallOk(p, d) && ListedOk(p, d) {
      assert CallOk(s, d) && ListedOk(s, d);
    }
  }

  lemma WorkersKeep(s: Server, e: Event)
    requires e.Attach? || e.Detach?
    requires Enabled(s, e) && Invariant(s)
    ensures Invariant(Step(s, e))
  {
    hide SeqOf;
    var p := Step(s, e);
    forall r, id ensures EntryOk(p, r, id) { assert EntryOk(s, r, id); }
    forall r ensures LockOk(p, r) { assert LockOk(s, r); }
    forall d ensures CallOk(p, d) { assert CallOk(s, d); }
    forall d ensures ListedOk(p, d) { assert ListedOk(s, d); }
  }

  lemma StepKeeps(s: Server, e: Event)
    requires Enabled(s, e) && Invariant(s)
    ensures Invariant(Step(s, e))
  {
    hide Invariant;
    match e {
      case Locate(c, worker) => LocateKeeps(s, c, worker);
      case Number(c) => NumberKeeps(s, c);
      case Enrol(c) => EnrolKeeps(s, c);
      case SendOk(c) => PhaseChangeKeeps(s, c, Waiting);
      case SendFail(c) => PhaseChangeKeeps(s, c, SendFailed);
      case Withdraw(c) => WithdrawKeeps(s, c);
      case Receive(c) => ReceiveKeeps(s, c);
      case TimerFires(c) => PhaseChangeKeeps(s, c, TimedOut);
      case Deliver(r, m) => DeliverKeeps(s, r, m);
      case FinishDelivery(r) => FinishKeeps(s, r);
      case Attach(_, _) => WorkersKeep(s, e);
      case Detach(_) => WorkersKeep(s, e);
    }
  }

  // What the invariant means for callers and for the reader.

  /** The reader never has to wait for room in a channel while it holds the lock. */
  lemma DeliveryNeverBlocks(s: Server, r: StreamRef, m: Reply)
    requires LockFree(s, r) && Invariant(s)
    ensures !Blocks(s, r, m) && Enabled(s, Deliver(r, m))
  {
    hide SeqOf;
    assert EntryOk(s, r, m.seqId);
    if m.seqId in s.streams[r].pending {
      assert CallOk(s, s.streams[r].pending[m.seqId]);
    }
  }

  /** Call c waits on stream r for exactly this reply, and has not been given one. */
  ghost predicate Expects(s: Server, r: StreamRef, m: Reply, c: CallId) {
    && c in s.calls && s.calls[c].stream == r && s.calls[c].SeqId() == m.seqId && s.calls[c].ticket > 0
    && s.calls[c].Awaiting() && s.calls[c].delivered == 0
  }

  lemma ExpectedIsListed(s: Server, r: StreamRef, m: Reply, c: CallId)
    requires LockFree(s, r) && Invariant(s)
    ensures Expects(s, r, m, c) <==> m.seqId in s.streams[r].pending && s.streams[r].pending[m.seqId] == c
    ensures Expects(s, r, m, c) ==> s.calls[c].channel == []
  {
    hide SeqOf;
    assert EntryOk(s, r, m.seqId) && ListedOk(s, c) && CallOk(s, c);
  }

  /**
    A reply has an effect exactly when a call on this very stream still expects it; that
    call, and no other, is then given it. Duplicate, late and unsolicited replies, and
    replies arriving on another stream, change nothing.
  */
  lemma OnlyExpectedRepliesCount(s: Server, r: StreamRef, m: Reply)
    requires LockFree(s, r) && Enabled(s, Deliver(r, m)) && Invariant(s)
    ensures Step(s, Deliver(r, m)) != s <==> exists c :: Expects(s, r, m, c)
    ensures forall c | Expects(s, r, m, c) ::
              Step(s, Deliver(r, m)).calls == s.calls[c := s.calls[c].(channel := [m], delivered := 1)]
  {
    hide SeqOf, Invariant;
    forall c {
      ExpectedIsListed(s, r, m, c);
    }
    if m.seqId in s.streams[r].pending {
      assert Expects(s, r, m, s.streams[r].pending[m.seqId]);
      assert Step(s, Deliver(r, m)).streams[r].lock == Delivering(m.seqId);
      var c := s.streams[r].pending[m.seqId];
      assert s.calls[c].channel + [m] == [m];
    }
  }

  /** A call that has returned is still listed only under the lock of a reader finishing the delivery to it. */
  lemma ReturnedCallsAreUnlisted(s: Server, c: CallId, r: StreamRef)
    requires c in s.calls && s.calls[c].phase.Returned? && s.calls[c].ticket > 0 && r in s.streams
    requires Invariant(s)
    ensures s.calls[c].SeqId() in s.streams[r].pending <==>
            r == s.calls[c].stream && s.streams[r].lock == Delivering(s.calls[c].SeqId())
    ensures s.calls[c].SeqId() in s.streams[r].pending ==> s.calls[c].phase.outcome.Replied?
  {
    hide SeqOf;
    assert LockOk(s, r) && EntryOk(s, r, s.calls[c].SeqId());
    if s.calls[c].SeqId() in s.streams[r].pending {
      PendingIsMine(s, c, r);
    }
  }

  /** That moment is reached: a call can take its reply before the reader has deleted the entry. */
  lemma ReturnedCallStillListed(worker: WorkerId, m: Reply)
    requires m.seqId == 1
    ensures var es := [Attach(worker, 0), Locate(0, worker), Number(0), Enrol(0), SendOk(0), Deliver(0, m), Receive(0)];
            && Legal(START, es)
            && var s := After(START, es);
               && 0 in s.calls && s.calls[0].phase == Returned(Replied(m))
               && 0 in s.streams && s.calls[0].SeqId() in s.streams[0].pending
  {
    var a := Step(START, Attach(worker, 0));
    var b := Step(a, Locate(0, worker));
    var c := Step(b, Number(0));
    var d := Step(c, Enrol(0));
    var e := Step(d, SendOk(0));
    var f := Step(e, Deliver(0, m));
    var g := Step(f, Receive(0));
    assert Enabled(START, Attach(worker, 0)) && Enabled(a, Locate(0, worker)) && Enabled(b, Number(0));
    assert Enabled(c, Enrol(0)) && Enabled(d, SendOk(0)) && Enabled(e, Deliver(0, m)) && Enabled(f, Receive(0));
    hide Step, Enabled;
    LegalStep(f, Receive(0), [], g);
    LegalStep(e, Deliver(0, m), [Receive(0)], g);
    LegalStep(d, SendOk(0), [Deliver(0, m), Receive(0)], g);
    LegalStep(c, Enrol(0), [SendOk(0), Deliver(0, m), Receive(0)], g);
    LegalStep(b, Number(0), [Enrol(0), SendOk(0), Deliver(0, m), Receive(0)], g);
    LegalStep(a, Locate(0, worker), [Number(0), Enrol(0), SendOk(0), Deliver(0, m), Receive(0)], g);
    LegalStep(START, Attach(worker, 0), [Locate(0, worker), Number(0), Enrol(0), SendOk(0), Deliver(0, m), Receive(0)], g);
  }

  /** Once every call has returned and no reader is inside a delivery, nothing is left behind. */
  lemma NothingLeaks(s: Server, r: StreamRef)
    requires forall c | c in s.calls :: s.calls[c].phase.Returned?
    requires LockFree(s, r) && Invariant(s)
    ensures s.streams[r].pending == map[]
  {
    hide SeqOf;
    forall id: nat ensures id !in s.streams[r].pending {
      assert EntryOk(s, r, id);
    }
  }

  // Runs.

  ghost predicate Legal(s: Server, es: seq<Event>)
    decreases |es|
  {
    es == [] || (Enabled(s, es[0]) && Legal(Step(s, es[0]), es[1..]))
  }

  ghost function After(s: Server, es: seq<Event>): Server
    requires Legal(s, es)
    decreases |es|
  {
    if es == [] then s else After(Step(s, es[0]), es[1..])
  }

  lemma LegalStep(s: Server, e: Event, es: seq<Event>, last: Server)
    requires Enabled(s, e) && Legal(Step(s, e), es) && After(Step(s, e), es) == last
    ensures Legal(s, [e] + es) && After(s, [e] + es) == last
  {
    assert ([e] + es)[1..] == es;
  }

  lemma {:induction false} RunKeeps(s: Server, es: seq<Event>)
    requires Legal(s, es) && Invariant(s)
    ensures Invariant(After(s, es))
    decreases |es|
  {
    hide Invariant, Enabled, Step;
    if es != [] {
      StepKeeps(s, es[0]);
      RunKeeps(Step(s, es[0]), es[1..]);
    }
  }

  /**
    In every run a call is given at most one reply, the reply it returns carries its own
    id, and no two calls share an id.
  */
  lemma EachCallItsOwnReply(s: Server, es: seq<Event>, c: CallId)
    requires Legal(START, es) && s == After(START, es) && c in s.calls
    ensures var call := s.calls[c];
            && call.delivered <= 1
            && (call.GotReply() ==> call.phase.outcome.reply.seqId == call.SeqId() && call.channel == [])
            && forall d | d in s.calls && d != c && call.ticket > 0 && s.calls[d].ticket > 0 ::
                 s.calls[d].SeqId() != call.SeqId()
  {
    StartKeeps();
    RunKeeps(START, es);
    hide SeqOf;
    assert CallOk(s, c);
    forall d | d in s.calls && d != c && s.calls[c].ticket > 0 && s.calls[d].ticket > 0
      ensures s.calls[d].SeqId() != s.calls[c].SeqId()
    {
      IdsDistinct(s, c, d);
    }
  }

  /** In every run the reader can always deliver what it has read, as soon as it has the lock. */
  lemma ReaderNeverBlocks(s: Server, es: seq<Event>, r: StreamRef, m: Reply)
    requires Legal(START, es) && s == After(START, es) && LockFree(s, r)
    ensures Enabled(s, Deliver(r, m))
  {
    StartKeeps();
    RunKeeps(START, es);
    DeliveryNeverBlocks(s, r, m);
  }

  // What a run says about its calls, told from its events.

  lemma {:induction false} RunLast(s: Server, es: seq<Event>, e: Event)
    requires Legal(s, es + [e])
    ensures Legal(s, es) && Enabled(After(s, es), e) && After(s, es + [e]) == Step(After(s, es), e)
    decreases |es|
  {
    hide Enabled, Step;
    if es == [] {
      assert (es + [e])[1..] == [];
    } else {
      assert (es + [e])[1..] == es[1..] + [e];
      RunLast(Step(s, es[0]), es[1..], e);
    }
  }

  /** The stream on which the worker last registered, unless it was taken off since. */
  function AttachedBy(es: seq<Event>, worker: WorkerId): Option<StreamRef> {
    if es == [] then None
    else
      match es[|es| - 1]
      case Attach(other, r) => if other == worker then Some(r) else AttachedBy(es[..|es| - 1], worker)
      case Detach(other) => if other == worker then None else AttachedBy(es[..|es| - 1], worker)
      case _ => AttachedBy(es[..|es| - 1], worker)
  }

  lemma {:induction false} WorkersAre(es: seq<Event>, worker: WorkerId)
    requires Legal(START, es)
    ensures var s := After(START, es);
            && (worker in s.workers <==> AttachedBy(es, worker).Some?)
            && (worker in s.workers ==> AttachedBy(es, worker) == Some(s.workers[worker]))
  {
    if es != [] {
      var front, last := es[..|es| - 1], es[|es| - 1];
      assert es == front + [last];
      RunLast(START, front, last);
      WorkersAre(front, worker);
      hide SeqOf;
    }
  }

  /** A call that has been located stays on its stream. */
  lemma StreamStays(s: Server, e: Event, c: CallId)
    requires Enabled(s, e) && c in s.calls
    ensures c in Step(s, e).calls && Step(s, e).calls[c].stream == s.calls[c].stream
    ensures s.calls[c].phase == Returned(Offline) && Invariant(s) ==> Step(s, e).calls[c].phase == Returned(Offline)
  {
    hide SeqOf;
    if Invariant(s) {
      assert CallOk(s, c);
    }
  }

  /**
    A call goes out on the stream of its worker's last registration at the time, however
    often the worker has registered; it is turned away exactly if there is none.
  */
  lemma {:induction false} SentOnLastStream(es: seq<Event>, k: nat, c: CallId, worker: WorkerId)
    requires Legal(START, es) && k < |es| && es[k] == Locate(c, worker)
    ensures var s := After(START, es);
            && c in s.calls
            && match AttachedBy(es[..k], worker)
               case Some(r) => s.calls[c].stream == r && s.calls[c].phase != Returned(Offline)
               case None => s.calls[c].phase == Returned(Offline)
  {
    var front, last := es[..|es| - 1], es[|es| - 1];
    assert es == front + [last];
    RunLast(START, front, last);
    var s := After(START, front);
    StartKeeps();
    RunKeeps(START, front);
    if k == |es| - 1 {
      assert es[..k] == front;
      WorkersAre(front, worker);
      hide Invariant;
    } else {
      assert front[..k] == es[..k];
      SentOnLastStream(front, k, c, worker);
      StreamStays(s, last, c);
      if AttachedBy(es[..k], worker).Some? {
        NeverTurnedAwayLater(s, last, c);
      }
    }
  }

  lemma NeverTurnedAwayLater(s: Server, e: Event, c: CallId)
    requires Enabled(s, e) && c in s.calls && s.calls[c].phase != Returned(Offline)
    ensures c in Step(s, e).calls && Step(s, e).calls[c].phase != Returned(Offline)
  {
    hide SeqOf;
  }

  /** Whatever a call has come to, an event brought it about. */
  ghost predicate Told(es: seq<Event>, call: Call, c: CallId) {
    && (forall m | m in call.channel :: Deliver(call.stream, m) in es)
    && match call.phase
       case SendFailed => SendFail(c) in es
       case TimedOut => TimerFires(c) in es
       case Returned(Replied(m)) => Deliver(call.stream, m) in es
       case Returned(SendError) => SendFail(c) in es
       case Returned(Timeout) => TimerFires(c) in es
       case _ => true
  }

  lemma StepTold(es: seq<Event>, s: Server, e: Event, c: CallId)
    requires Enabled(s, e) && c in Step(s, e).calls && (c in s.calls ==> Told(es, s.calls[c], c))
    requires Invariant(s)
    ensures Told(es + [e], Step(s, e).calls[c], c)
  {
    TellsMore(es, e);
    if e.Deliver? {
      DeliverTold(es, s, e.stream, e.reply, c);
    } else {
      hide SeqOf, Invariant;
    }
  }

  lemma TellsMore(es: seq<Event>, e: Event)
    ensures e in es + [e] && forall x | x in es :: x in es + [e]
  {
  }

  lemma DeliverTold(es: seq<Event>, s: Server, r: StreamRef, m: Reply, c: CallId)
    requires Enabled(s, Deliver(r, m)) && c in s.calls && Told(es, s.calls[c], c)
    requires Invariant(s)
    ensures c in Step(s, Deliver(r, m)).calls && Told(es + [Deliver(r, m)], Step(s, Deliver(r, m)).calls[c], c)
  {
    assert EntryOk(s, r, m.seqId);
    TellsMore(es, Deliver(r, m));
    hide SeqOf, Invariant;
  }

  /**
    A call returns a reply only if that reply was delivered on its stream, a send error only
    if its send failed, and a timeout only if its timer fired.
  */
  lemma {:induction false} OutcomesAreTold(es: seq<Event>, c: CallId)
    requires Legal(START, es) && c in After(START, es).calls
    ensures Told(es, After(START, es).calls[c], c)
  {
    if es != [] {
      var front, last := es[..|es| - 1], es[|es| - 1];
      assert es == front + [last];
      RunLast(START, front, last);
      StartKeeps();
      RunKeeps(START, front);
      hide Invariant, Told, Step, Enabled;
      if c in After(START, front).calls {
        OutcomesAreTold(front, c);
      }
      StepTold(front, After(START, front), last, c);
    }
  }
}
