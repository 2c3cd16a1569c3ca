/**
  Registration, keepalive and end of a worker's stream, over two tables that must agree:
  the manager's workers and the server's streams. Each event is one atomic step.
*/
module Registry {
  import opened Basics
  import opened Workers

  datatype RegistryState = RegistryState(table: Table, streams: map<WorkerId, nat>)

  /** previous and current are the worker id the handling goroutine holds; the empty name is none. */
  datatype Event =
    | Registers(previous: WorkerId, id: WorkerId, ip: string, port: Uint32, udp: bool, stream: nat, now: int)
    | KeepsAlive(id: WorkerId, attached: bool, count: Uint32, cpu: Uint32, memory: Uint32, now: int)
    | Ends(current: WorkerId)
    | Ticks(now: int)
    | OpensRouter(id: WorkerId, router: nat)
    | ClosesRouter(id: WorkerId, router: nat)

  const EMPTY := RegistryState(map[], map[])

  /** Both tables forget the worker, if there is one. */
  function Forget(g: RegistryState, id: WorkerId): RegistryState {
    if id.name == "" then g else RegistryState(Removed(g.table, id), g.streams - {id})
  }

  function Step(g: RegistryState, e: Event): RegistryState {
    match e
    case Registers(previous, id, ip, port, udp, stream, now) =>
      var f := Forget(g, previous);
      RegistryState(Registered(f.table, id, ip, port, udp, now), f.streams[id := stream])
    case KeepsAlive(id, attached, count, cpu, memory, now) =>
      var beaten := HeartbeatAt(g.table, id, now);
      g.(table := if attached then WithStats(beaten, id, count, cpu, memory, now) else beaten)
    case Ends(current) => Forget(g, current)
    case Ticks(now) => g.(table := CleanedUp(g.table, now))
    case OpensRouter(id, router) => g.(table := WithRouter(g.table, id, router))
    case ClosesRouter(id, router) => g.(table := WithoutRouter(g.table, id, router))
  }

  /** Every worker on record is under its own id, Online, and can be reached. */
  ghost predicate Agree(g: RegistryState) {
    forall id | id in g.table :: g.table[id].workerId == id && g.table[id].status == Online && id in g.streams
  }

  class SyncSession {
    var workerId: WorkerId
    var attached: bool

    constructor ()
      ensures workerId.name == "" && !attached
    {
      workerId, attached := WorkerId(""), false;
    }
  }

  class WebRtcServer {
    const manager: WorkerManager
    var streams: map<WorkerId, nat>

    ghost predicate Valid()
      reads this, manager, manager.workers.Values
    {
      manager.Valid() && Agree(State())
    }

    ghost function State(): RegistryState
      reads this, manager, manager.workers.Values
    {
      RegistryState(manager.Contents(), streams)
    }

    constructor ()
      ensures Valid() && State() == EMPTY
    {
      manager := new WorkerManager();
      streams := map[];
    }

    method OnRegister(session: SyncSession, id: WorkerId, ip: string, port: Uint32, udp: bool, stream: nat, now: int)
      requires Valid()
      modifies this, session, manager, manager.workers.Values
      ensures Valid() && session.workerId == id && session.attached
      ensures State() == Step(old(State()), Registers(old(session.workerId), id, ip, port, udp, stream, now))
    {
      hide Registered, Removed, Agree;
      ForgetCurrent(session);
      session.workerId := id;
      StoreRegistration(id, ip, port, udp, stream, now);
      session.attached := true;
    }

    method StoreRegistration(id: WorkerId, ip: string, port: Uint32, udp: bool, stream: nat, now: int)
      requires Valid()
      modifies this, manager, manager.workers.Values
      ensures Valid() && fresh(manager.workers.Values - old(manager.workers.Values))
      ensures State() == Step(old(State()), Registers(WorkerId(""), id, ip, port, udp, stream, now))
    {
      hide Registered, Removed, Agree;
      ghost var g := State();
      manager.RegisterWorker(id, ip, port, udp, now);
      streams := streams[id := stream];
      StepKeeps(g, Registers(WorkerId(""), id, ip, port, udp, stream, now));
    }

    /** Drop whatever this goroutine registered or last kept alive. */
    method ForgetCurrent(session: SyncSession)
      requires Valid()
      modifies this, manager, manager.workers.Values
      ensures Valid() && manager.workers.Values <= old(manager.workers.Values)
      ensures State() == Forget(old(State()), session.workerId)
    {
      if session.workerId.name != "" {
        manager.RemoveWorker(session.workerId);
        streams := streams - {session.workerId};
      }
    }

    method OnKeepalive(session: SyncSession, id: WorkerId, count: Uint32, cpu: Uint32, memory: Uint32, now: int)
      returns (success: bool)
      requires Valid()
      modifies session, manager.workers.Values
      ensures Valid() && session.workerId == id && success == (id in manager.workers)
      ensures State() == Step(old(State()), KeepsAlive(id, session.attached, count, cpu, memory, now))
    {
      hide HeartbeatAt, WithStats, Agree;
      Unknown(State().table, id, count, cpu, memory, now);
      ghost var g := State();
      session.workerId := id;
      success := manager.Heartbeat(id, now);
      if success && session.attached {
        var _ := manager.UpdateWorkerStats(id, count, cpu, memory, now);
      }
      StepKeeps(g, KeepsAlive(id, session.attached, count, cpu, memory, now));
    }

    /** Nothing happens to a worker that is not on record. */
    lemma Unknown(t: Table, id: WorkerId, count: Uint32, cpu: Uint32, memory: Uint32, now: int)
      ensures id !in t ==> WithStats(HeartbeatAt(t, id, now), id, count, cpu, memory, now) == HeartbeatAt(t, id, now)
      ensures HeartbeatAt(t, id, now).Keys == t.Keys
    {
    }

    method OnEnd(session: SyncSession)
      requires Valid()
      modifies this, manager, manager.workers.Values
      ensures Valid()
      ensures State() == Step(old(State()), Ends(session.workerId))
    {
      ForgetCurrent(session);
    }

    /** A worker chosen between events has a stream to send the request on. */
    method ChooseStream(now: int, order: seq<WorkerId>) returns (chosen: Worker?, stream: nat)
      requires Valid() && Enumerates(order, manager.workers.Keys)
      ensures chosen == null <==> forall id | id in State().table :: !Candidate(State().table[id], now)
      ensures chosen != null ==> Best(State().table, now, chosen.workerId)
      ensures chosen != null ==> chosen.workerId in streams && streams[chosen.workerId] == stream
    {
      chosen := manager.ChooseBestWorker(now, order);
      stream := 0;
      if chosen != null {
        assert chosen.workerId in State().table;
        stream := streams[chosen.workerId];
      }
    }
  }

  lemma StepKeeps(g: RegistryState, e: Event)
    requires Agree(g)
    ensures Agree(Step(g, e))
  {
  }

  function Run(g: RegistryState, es: seq<Event>): RegistryState {
    if es == [] then g else Step(Run(g, es[..|es| - 1]), es[|es| - 1])
  }

  /** After any run of events, whichever worker may be chosen can be reached. */
  lemma {:induction false} ChosenIsReachable(es: seq<Event>)
    ensures Agree(Run(EMPTY, es))
    ensures forall now, id | Best(Run(EMPTY, es).table, now, id) :: id in Run(EMPTY, es).streams
  {
    if es != [] {
      ChosenIsReachable(es[..|es| - 1]);
      StepKeeps(Run(EMPTY, es[..|es| - 1]), es[|es| - 1]);
    }
  }

  /** What comes of the two removals at the end of id's stream with an event between them. */
  function Torn(g: RegistryState, id: WorkerId, e: Event): RegistryState {
    var between := Step(g.(table := Removed(g.table, id)), e);
    between.(streams := between.streams - {id})
  }

  /**
    Torn apart, the two removals leave the tables in agreement exactly when the event between
    them does not register that id on another stream; if it does, the scheduler is left with
    a worker it cannot reach.
  */
  lemma TornRemoval(g: RegistryState, id: WorkerId, e: Event)
    requires Agree(g)
    ensures Agree(Torn(g, id, e)) <==> !(e.Registers? && e.id == id)
    ensures e.Registers? && e.id == id ==> id in Torn(g, id, e).table && id !in Torn(g, id, e).streams
  {
    var half := g.(table := Removed(g.table, id));
    StepKeeps(half, e);
    if e.Registers? && e.id == id {
      assert id in Torn(g, id, e).table;
    } else {
      assert id !in Step(half, e).table;
    }
  }

  /** The two writes at the end of id's stream, and the two that register id on another stream. */
  datatype Write = RemoveWorker | DeleteStream | AddWorker | StoreStream

  datatype Registration = Registration(ip: string, port: Uint32, udp: bool, stream: nat, now: int)

  function Written(g: RegistryState, id: WorkerId, r: Registration, w: Write): RegistryState {
    match w
    case RemoveWorker => g.(table := Removed(g.table, id))
    case DeleteStream => g.(streams := g.streams - {id})
    case AddWorker => g.(table := Registered(g.table, id, r.ip, r.port, r.udp, r.now))
    case StoreStream => g.(streams := g.streams[id := r.stream])
  }

  function AllWritten(g: RegistryState, id: WorkerId, r: Registration, ws: seq<Write>): RegistryState
    decreases |ws|
  {
    if ws == [] then g else AllWritten(Written(g, id, r, ws[0]), id, r, ws[1..])
  }

  /** The four writes in some order that keeps each goroutine's own. */
  ghost predicate Interleaving(ws: seq<Write>) {
    && |ws| == 4
    && (exists i, j | 0 <= i < j < 4 :: ws[i] == RemoveWorker && ws[j] == DeleteStream)
    && (exists i, j | 0 <= i < j < 4 :: ws[i] == AddWorker && ws[j] == StoreStream)
  }

  /** Of the six interleavings exactly one ends in disagreement: the registration falls between the two removals. */
  lemma FourWrites(g: RegistryState, id: WorkerId, r: Registration, ws: seq<Write>)
    requires Agree(g) && Interleaving(ws)
    ensures Agree(AllWritten(g, id, r, ws)) <==> ws != [RemoveWorker, AddWorker, StoreStream, DeleteStream]
  {
    SixInterleavings(ws);
    var a := Written(g, id, r, ws[0]);
    var b := Written(a, id, r, ws[1]);
    var c := Written(b, id, r, ws[2]);
    var d := Written(c, id, r, ws[3]);
    WriteKeeps(g, id, r, ws[0]);
    WriteKeeps(a, id, r, ws[1]);
    WriteKeeps(b, id, r, ws[2]);
    WriteKeeps(c, id, r, ws[3]);
    WritesOneByOne(g, id, r, ws);
    hide AgreeBut;
    AgreeFinally(d, id);
  }

  lemma WritesOneByOne(g: RegistryState, id: WorkerId, r: Registration, ws: seq<Write>)
    requires |ws| == 4
    ensures AllWritten(g, id, r, ws) ==
            Written(Written(Written(Written(g, id, r, ws[0]), id, r, ws[1]), id, r, ws[2]), id, r, ws[3])
  {
    hide Written;
    assert ws[1..][0] == ws[1] && ws[1..][1..] == ws[2..];
    assert ws[2..][0] == ws[2] && ws[2..][1..] == ws[3..];
    assert ws[3..][0] == ws[3] && ws[3..][1..] == [];
    var a := Written(g, id, r, ws[0]);
    var b := Written(a, id, r, ws[1]);
    var c := Written(b, id, r, ws[2]);
    assert AllWritten(a, id, r, ws[1..]) == AllWritten(b, id, r, ws[2..]);
    assert AllWritten(b, id, r, ws[2..]) == AllWritten(c, id, r, ws[3..]);
    assert AllWritten(c, id, r, ws[3..]) == AllWritten(Written(c, id, r, ws[3]), id, r, []);
  }

  /** Agreement, but for whether id has a stream. */
  ghost predicate AgreeBut(g: RegistryState, id: WorkerId) {
    forall x | x in g.table :: g.table[x].workerId == x && g.table[x].status == Online && (x == id || x in g.streams)
  }

  lemma WriteKeeps(g: RegistryState, id: WorkerId, r: Registration, w: Write)
    requires AgreeBut(g, id)
    ensures AgreeBut(Written(g, id, r, w), id)
  {
  }

  lemma AgreeFinally(g: RegistryState, id: WorkerId)
    requires AgreeBut(g, id)
    ensures Agree(g) <==> (id in g.table ==> id in g.streams)
  {
  }

  lemma SixInterleavings(ws: seq<Write>)
    requires Interleaving(ws)
    ensures || ws == [RemoveWorker, DeleteStream, AddWorker, StoreStream]
            || ws == [RemoveWorker, AddWorker, DeleteStream, StoreStream]
            || ws == [RemoveWorker, AddWorker, StoreStream, DeleteStream]
            || ws == [AddWorker, RemoveWorker, DeleteStream, StoreStream]
            || ws == [AddWorker, RemoveWorker, StoreStream, DeleteStream]
            || ws == [AddWorker, StoreStream, RemoveWorker, DeleteStream]
  {
    var i, j :| 0 <= i < j < 4 && ws[i] == RemoveWorker && ws[j] == DeleteStream;
    var k, l :| 0 <= k < l < 4 && ws[k] == AddWorker && ws[l] == StoreStream;
  }

  /**
    A worker on record outlives the end of a stream exactly when the stream's goroutine does
    not hold its id, or holds none; whose registration it is makes no difference, so the end
    of an old stream takes a newer registration along.
  */
  lemma EndTakesNewerRegistration(g: RegistryState, current: WorkerId, id: WorkerId)
    requires id in g.table && id in g.streams
    ensures var p := Step(g, Ends(current));
            && (id in p.table <==> id in p.streams)
            && (id in p.table <==> current.name == "" || current != id)
            && (id in p.table ==> p.table[id] == g.table[id] && p.streams[id] == g.streams[id])
  {
  }

  // Sessions: one goroutine for each stream, holding the id it last named.

  datatype Session = Session(held: WorkerId, attached: bool)

  datatype SessionState = SessionState(registry: RegistryState, sessions: map<nat, Session>)

  datatype SessionEvent =
    | Register(session: nat, id: WorkerId, ip: string, port: Uint32, udp: bool, stream: nat, now: int)
    | Keepalive(session: nat, id: WorkerId, count: Uint32, cpu: Uint32, memory: Uint32, now: int)
    | End(session: nat)
    | Tick(now: int)

  const NO_SESSIONS := SessionState(EMPTY, map[])

  function SessionOf(s: SessionState, session: nat): Session {
    if session in s.sessions then s.sessions[session] else Session(WorkerId(""), false)
  }

  /** The registry's event, with the id that the session holds. */
  function AsEvent(s: SessionState, e: SessionEvent): Event {
    match e
    case Register(session, id, ip, port, udp, stream, now) =>
      Registers(SessionOf(s, session).held, id, ip, port, udp, stream, now)
    case Keepalive(session, id, count, cpu, memory, now) =>
      KeepsAlive(id, SessionOf(s, session).attached, count, cpu, memory, now)
    case End(session) => Ends(SessionOf(s, session).held)
    case Tick(now) => Ticks(now)
  }

  function SessionStep(s: SessionState, e: SessionEvent): SessionState {
    SessionState(
      Step(s.registry, AsEvent(s, e)),
      match e
      case Register(session, id, _, _, _, _, _) => s.sessions[session := Session(id, true)]
      case Keepalive(session, id, _, _, _, _) => s.sessions[session := SessionOf(s, session).(held := id)]
      case End(session) => s.sessions - {session}
      case Tick(_) => s.sessions)
  }

  /** What takes a worker off the record: a session that holds its id ends or registers another, or the worker timed out. */
  predicate Drops(s: SessionState, e: SessionEvent, id: WorkerId) {
    match e
    case Register(session, new_id, _, _, _, _, _) => SessionOf(s, session).held == id && id.name != "" && new_id != id
    case Keepalive(_, _, _, _, _, _) => false
    case End(session) => SessionOf(s, session).held == id && id.name != ""
    case Tick(now) => id in s.registry.table && TimedOut(s.registry.table[id], now)
  }

  function SessionRun(s: SessionState, es: seq<SessionEvent>): SessionState {
    if es == [] then s else SessionStep(SessionRun(s, es[..|es| - 1]), es[|es| - 1])
  }

  ghost predicate DroppedIn(s: SessionState, es: seq<SessionEvent>, id: WorkerId) {
    exists k | 0 <= k < |es| :: Drops(SessionRun(s, es[..k]), es[k], id)
  }

  /**
    A worker on record stays on record, with a stream, throughout a run exactly if no event
    in it drops the worker: neither a time-out, nor any session that happens to hold its id.
  */
  lemma {:induction false} RegistrationLasts(s: SessionState, es: seq<SessionEvent>, id: WorkerId)
    requires id in s.registry.table && Agree(s.registry)
    ensures (forall k | 0 <= k <= |es| :: id in SessionRun(s, es[..k]).registry.table) <==> !DroppedIn(s, es, id)
    ensures Agree(SessionRun(s, es).registry)
  {
    if es == [] {
      assert es[..0] == es;
    } else {
      hide Step, AsEvent, SessionStep, Drops, Agree;
      var n := |es| - 1;
      var front := es[..n];
      RegistrationLasts(s, front, id);
      var f := SessionRun(s, front);
      AgreesNext(f, es[n]);
      assert es[..n + 1] == es;
      assert forall k | 0 <= k <= n :: front[..k] == es[..k];
      if id in f.registry.table {
        StaysUnlessDropped(f, es[n], id);
      }
      DroppedNext(s, es, id);
    }
  }

  lemma AgreesNext(s: SessionState, e: SessionEvent)
    requires Agree(s.registry)
    ensures Agree(SessionStep(s, e).registry)
  {
    StepKeeps(s.registry, AsEvent(s, e));
  }

  lemma DroppedNext(s: SessionState, es: seq<SessionEvent>, id: WorkerId)
    requires es != []
    ensures var n := |es| - 1;
            DroppedIn(s, es, id) <==> DroppedIn(s, es[..n], id) || Drops(SessionRun(s, es[..n]), es[n], id)
  {
    hide Drops, SessionRun;
    var n := |es| - 1;
    assert forall k | 0 <= k <= n :: es[..n][..k] == es[..k];
    if DroppedIn(s, es[..n], id) {
      var k :| 0 <= k < n && Drops(SessionRun(s, es[..n][..k]), es[..n][k], id);
      assert Drops(SessionRun(s, es[..k]), es[k], id);
    }
    if DroppedIn(s, es, id) {
      var k :| 0 <= k <= n && Drops(SessionRun(s, es[..k]), es[k], id);
      if k < n {
        assert Drops(SessionRun(s, es[..n][..k]), es[..n][k], id);
      }
    }
  }

  lemma StaysUnlessDropped(s: SessionState, e: SessionEvent, id: WorkerId)
    requires id in s.registry.table
    ensures id in SessionStep(s, e).registry.table <==> !Drops(s, e, id)
  {
  }

  /** Two streams register the same id and the older one ends: the newer registration is gone. */
  lemma OlderStreamEnds(id: WorkerId, ip: string, port: Uint32, udp: bool, now: int)
    requires id.name != ""
    ensures var one := SessionStep(NO_SESSIONS, Register(1, id, ip, port, udp, 10, now));
            var two := SessionStep(one, Register(2, id, ip, port, udp, 20, now));
            var end := SessionStep(two, End(1));
            && id in two.registry.table && two.registry.streams[id] == 20 && SessionOf(end, 2).held == id
            && id !in end.registry.table && id !in end.registry.streams
  {
  }

  // Choosing a worker.

  /** The score is the intended one exactly while ten times the router count fits in 32 bits. */
  lemma ScoreIsIdeal(w: WorkerState)
    ensures Score(w) == IdealScore(w) <==> w.routerCount <= 429496729
    ensures INT64_MIN < Score(w) <= 1000
  {
  }

  /** A tick just before, with no heartbeat between, changes neither the candidates nor who is best. */
  lemma TickChangesNoChoice(t: Table, tick: int, now: int, id: WorkerId)
    requires tick <= now
    ensures (id in CleanedUp(t, tick) && Candidate(CleanedUp(t, tick)[id], now)) <==> (id in t && Candidate(t[id], now))
    ensures Best(CleanedUp(t, tick), now, id) <==> Best(t, now, id)
  {
    var u := CleanedUp(t, tick);
    forall x ensures (x in u && Candidate(u[x], now)) <==> (x in t && Candidate(t[x], now))
      ensures x in u ==> x in t && u[x] == t[x]
    {
    }
    if Best(u, now, id) {
      forall other | other in t && Candidate(t[other], now) ensures Score(t[other]) <= Score(t[id]) {
        assert other in u && Candidate(u[other], now);
      }
    }
    if Best(t, now, id) {
      assert id in u && Candidate(u[id], now);
    }
  }

  // What is on record after each event.

  /** A worker that has just registered can be chosen until its heartbeat is too old; nobody else's record changes. */
  lemma RegisteredIsCandidate(t: Table, id: WorkerId, ip: string, port: Uint32, udp: bool, now: int, later: int)
    requires now <= later < now + HEARTBEAT_TIMEOUT
    ensures var u := Registered(t, id, ip, port, udp, now);
            && id in u && Candidate(u[id], later)
            && (id !in t ==> Score(u[id]) == 1000 && u[id].publicIp == ip && u[id].publicPort == port && u[id].useUdp == udp)
            && (id in t ==> Score(u[id]) == Score(t[id]) && u[id].routers == t[id].routers)
            && forall x | x != id :: (x in u <==> x in t) && (x in t ==> u[x] == t[x])
  {
  }

  /** A worker's score is that of the numbers it reported; reporting refreshes it, and touches nobody else. */
  lemma ReportedScore(t: Table, id: WorkerId, count: Uint32, cpu: Uint32, memory: Uint32, now: int, later: int)
    requires id in t && now <= later < now + HEARTBEAT_TIMEOUT
    ensures var u := WithStats(HeartbeatAt(t, id, now), id, count, cpu, memory, now);
            && u.Keys == t.Keys
            && Score(u[id]) == 1000 - (count * 10) % UINT32 - cpu - memory / 2
            && (Candidate(u[id], later) <==> t[id].status == Online)
            && forall x | x in t && x != id :: u[x] == t[x]
  {
  }

  /** A keepalive without statistics refreshes the worker and leaves its score. */
  lemma HeartbeatRefreshes(t: Table, id: WorkerId, now: int, later: int)
    requires id in t && now <= later < now + HEARTBEAT_TIMEOUT
    ensures var u := HeartbeatAt(t, id, now);
            && u.Keys == t.Keys && Score(u[id]) == Score(t[id])
            && (Candidate(u[id], later) <==> t[id].status == Online)
            && forall x | x in t && x != id :: u[x] == t[x]
  {
  }

  /** Routers are stored and taken away one at a time, at the worker named. */
  lemma RoutersStored(t: Table, id: WorkerId, router: nat, x: WorkerId, r: nat)
    requires x in t
    ensures x in WithRouter(t, id, router) && x in WithoutRouter(t, id, router)
    ensures r in WithRouter(t, id, router)[x].routers <==> r in t[x].routers || (x == id && r == router)
    ensures r in WithoutRouter(t, id, router)[x].routers <==> r in t[x].routers && !(x == id && r == router)
  {
  }

  // Router accounting.

  /** How far the count is off the routers stored, modulo 2^32. */
  function Drift(w: WorkerState): nat {
    Difference(w.routerCount, |w.routers|)
  }

  function Difference(a: int, b: int): nat {
    (a - b) % UINT32
  }

  /** Statistics reach this worker from the keepalive. */
  predicate ReportsStats(g: RegistryState, e: Event, id: WorkerId) {
    e.KeepsAlive? && e.id == id && e.attached
  }

  predicate AddsStoredRouter(g: RegistryState, e: Event, id: WorkerId) {
    e.OpensRouter? && e.id == id && id in g.table && e.router in g.table[id].routers
  }

  predicate StartsOver(g: RegistryState, e: Event, id: WorkerId) {
    e.Registers? && e.previous == id && id.name != ""
  }

  lemma ModularStep(a: int, b: int, k: int)
    ensures ((a + k) % UINT32 - (b + k)) % UINT32 == (a - b) % UINT32
  {
    var q := (a + k) / UINT32;
    assert (a + k) % UINT32 == a + k - UINT32 * q;
    ModularShift(a - b, -q);
    assert (a + k) % UINT32 - (b + k) == (a - b) + UINT32 * (-q);
  }

  lemma ModularShift(x: int, q: int)
    ensures (x + UINT32 * q) % UINT32 == x % UINT32
  {
    assert x == UINT32 * (x / UINT32) + x % UINT32;
    assert x + UINT32 * q == UINT32 * (x / UINT32 + q) + x % UINT32;
  }

  lemma ModularSuccessor(a: int, b: int)
    ensures ((a + 1) % UINT32 - b) % UINT32 == (a - b + 1) % UINT32
    ensures (a - b + 1) % UINT32 != (a - b) % UINT32
  {
    ModularStep(a, b - 1, 1);
  }

  lemma ModularSum(x: int, k: int)
    ensures (x % UINT32 + k) % UINT32 == (x + k) % UINT32
  {
    ModularShift(x % UINT32 + k, x / UINT32);
    assert x + k == x % UINT32 + k + UINT32 * (x / UINT32);
  }

  lemma WithoutRouterDrift(w: WorkerState, router: nat)
    requires router in w.routers
    ensures Drift(w.(routers := w.routers - {router}, routerCount := (w.routerCount + (UINT32 - 1)) % UINT32)) == Drift(w)
  {
    ModularStep(w.routerCount, |w.routers|, -1);
    ModularShift(w.routerCount - 1, 1);
    assert |w.routers - {router}| == |w.routers| - 1;
  }

  lemma WithRouterDrift(w: WorkerState, router: nat)
    ensures Drift(w.(routers := w.routers + {router}, routerCount := (w.routerCount + 1) % UINT32)) ==
            (Drift(w) + if router in w.routers then 1 else 0) % UINT32
  {
    if router in w.routers {
      assert w.routers + {router} == w.routers;
      ModularSuccessor(w.routerCount, |w.routers|);
      ModularSum(w.routerCount - |w.routers|, 1);
    } else {
      assert |w.routers + {router}| == |w.routers| + 1;
      ModularStep(w.routerCount, |w.routers|, 1);
    }
  }

  /**
    Through every event in which a worker stays on record, its drift stays what it was,
    unless the event reports statistics, registers it anew, or stores a router already
    stored. In the last case the drift goes up by one.
  */
  lemma DriftStep(g: RegistryState, e: Event, id: WorkerId)
    requires id in g.table && id in Step(g, e).table
    requires !ReportsStats(g, e, id) && !StartsOver(g, e, id)
    ensures Drift(Step(g, e).table[id]) == (Drift(g.table[id]) + if AddsStoredRouter(g, e, id) then 1 else 0) % UINT32
  {
    hide Drift;
    var w := g.table[id];
    SmallDrift(w);
    if e.OpensRouter? && e.id == id {
      WithRouterDrift(w, e.router);
    } else if e.ClosesRouter? && e.id == id && e.router in w.routers {
      WithoutRouterDrift(w, e.router);
    } else {
      var v := Step(g, e).table[id];
      assert v.routerCount == w.routerCount && v.routers == w.routers;
      SameDrift(v, w);
    }
  }

  lemma SameDrift(v: WorkerState, w: WorkerState)
    requires v.routerCount == w.routerCount && v.routers == w.routers
    ensures Drift(v) == Drift(w)
  {
  }

  lemma SmallDrift(w: WorkerState)
    ensures Drift(w) % UINT32 == Drift(w)
  {
  }

  /** Throughout the events the worker is on record, none reports its statistics, and none registers it anew. */
  ghost predicate Steady(g: RegistryState, es: seq<Event>, id: WorkerId) {
    && id in Run(g, es).table
    && (es == [] ||
        var front, last := es[..|es| - 1], es[|es| - 1];
        Steady(g, front, id) && !ReportsStats(Run(g, front), last, id) && !StartsOver(Run(g, front), last, id))
  }

  /** How often a router was stored that was stored already. */
  function Doubled(g: RegistryState, es: seq<Event>, id: WorkerId): nat {
    if es == [] then 0
    else
      var front, last := es[..|es| - 1], es[|es| - 1];
      Doubled(g, front, id) + if AddsStoredRouter(Run(g, front), last, id) then 1 else 0
  }

  /** Over any sequence of events the drift goes up by exactly the number of routers stored twice, modulo 2^32. */
  lemma {:induction false} DriftKept(g: RegistryState, es: seq<Event>, id: WorkerId)
    requires Steady(g, es, id)
    ensures id in g.table && id in Run(g, es).table
    ensures Drift(Run(g, es).table[id]) == (Drift(g.table[id]) + Doubled(g, es, id)) % UINT32
  {
    if es == [] {
      SmallDrift(g.table[id]);
    } else {
      hide Drift, ReportsStats, StartsOver, AddsStoredRouter, Step;
      var front, last := es[..|es| - 1], es[|es| - 1];
      DriftKept(g, front, id);
      DriftStep(Run(g, front), last, id);
      ModularSum(Drift(g.table[id]) + Doubled(g, front, id), if AddsStoredRouter(Run(g, front), last, id) then 1 else 0);
    }
  }

  /** A new registration starts with no drift. */
  lemma NewWorkerHasNoDrift(g: RegistryState, e: Event, id: WorkerId)
    requires id !in g.table && id in Step(g, e).table
    ensures Drift(Step(g, e).table[id]) == 0
  {
  }
}
