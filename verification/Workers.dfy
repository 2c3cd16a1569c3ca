/** The workers a server knows, what is recorded about each, and how one is chosen. */
module Workers {
  import opened Basics

  const INT64_MIN: int := -0x8000_0000_0000_0000

  /** Times are nanoseconds on a clock that does not go back. */
  const HEARTBEAT_TIMEOUT: int := 60_000_000_000

  datatype WorkerId = WorkerId(name: string)

  datatype Status = Offline | Online | Busy

  datatype WorkerState = WorkerState(
    workerId: WorkerId, publicIp: string, publicPort: Uint32, useUdp: bool, status: Status,
    routerCount: Uint32, cpuUsage: Uint32, memoryUsage: Uint32, lastHeartbeat: int, routers: set<nat>)

  type Table = map<WorkerId, WorkerState>

  function Registered(t: Table, id: WorkerId, ip: string, port: Uint32, udp: bool, now: int): Table {
    if id in t then t[id := t[id].(lastHeartbeat := now, status := Online)]
    else t[id := WorkerState(id, ip, port, udp, Online, 0, 0, 0, now, {})]
  }

  function WithStats(t: Table, id: WorkerId, count: Uint32, cpu: Uint32, memory: Uint32, now: int): Table {
    if id in t
    then t[id := t[id].(routerCount := count, cpuUsage := cpu, memoryUsage := memory, lastHeartbeat := now)]
    else t
  }

  function HeartbeatAt(t: Table, id: WorkerId, now: int): Table {
    if id in t then t[id := t[id].(lastHeartbeat := now)] else t
  }

  function Removed(t: Table, id: WorkerId): Table {
    t - {id}
  }

  predicate TimedOut(w: WorkerState, now: int) {
    now - w.lastHeartbeat > HEARTBEAT_TIMEOUT
  }

  function CleanedUp(t: Table, now: int): Table {
    map id | id in t && !TimedOut(t[id], now) :: t[id]
  }

  function Expired(t: Table, id: WorkerId, now: int): Table {
    if id in t && TimedOut(t[id], now) then Removed(t, id) else t
  }

  /** The table after part of the range over it. */
  function ExpiredAlong(t: Table, now: int, order: seq<WorkerId>): Table {
    if order == [] then t
    else Expired(ExpiredAlong(t, now, order[..|order| - 1]), order[|order| - 1], now)
  }

  lemma {:induction false} ExpiredAlongAt(t: Table, now: int, order: seq<WorkerId>, id: WorkerId)
    ensures var u := ExpiredAlong(t, now, order);
            && (id in u <==> id in t && !(id in order && TimedOut(t[id], now)))
            && (id in u ==> u[id] == t[id])
  {
    if order != [] {
      ExpiredAlongAt(t, now, order[..|order| - 1], id);
      assert order == order[..|order| - 1] + [order[|order| - 1]];
      ExpiredAlongAt(t, now, order[..|order| - 1], order[|order| - 1]);
    }
  }

  /** A tick removes exactly the workers timed out by then, whatever the order. */
  lemma ExpiredAlongAll(t: Table, now: int, order: seq<WorkerId>)
    requires Enumerates(order, t.Keys)
    ensures ExpiredAlong(t, now, order) == CleanedUp(t, now)
  {
    var u := ExpiredAlong(t, now, order);
    forall id ensures id in u <==> id in CleanedUp(t, now)
      ensures id in u ==> u[id] == t[id]
    {
      ExpiredAlongAt(t, now, order, id);
    }
  }

  function WithRouter(t: Table, id: WorkerId, router: nat): Table {
    if id in t
    then t[id := t[id].(routers := t[id].routers + {router}, routerCount := (t[id].routerCount + 1) % UINT32)]
    else t
  }

  /** Go adds ^uint32(0), which is 2^32 - 1. */
  function WithoutRouter(t: Table, id: WorkerId, router: nat): Table {
    if id in t && router in t[id].routers
    then t[id := t[id].(routers := t[id].routers - {router}, routerCount := (t[id].routerCount + (UINT32 - 1)) % UINT32)]
    else t
  }

  predicate Candidate(w: WorkerState, now: int) {
    w.status == Online && now - w.lastHeartbeat < HEARTBEAT_TIMEOUT
  }

  /** The product is taken in uint32 before it is widened. */
  function Score(w: WorkerState): int {
    1000 - (w.routerCount * 10) % UINT32 - w.cpuUsage - w.memoryUsage / 2
  }

  function IdealScore(w: WorkerState): int {
    1000 - w.routerCount * 10 - w.cpuUsage - w.memoryUsage / 2
  }

  ghost predicate Best(t: Table, now: int, id: WorkerId) {
    && id in t && Candidate(t[id], now)
    && forall other | other in t && Candidate(t[other], now) :: Score(t[other]) <= Score(t[id])
  }

  class Worker {
    const workerId: WorkerId
    const publicIp: string
    const publicPort: Uint32
    const useUdp: bool
    var status: Status
    var routerCount: Uint32
    var cpuUsage: Uint32
    var memoryUsage: Uint32
    var lastHeartbeat: int
    var routers: set<nat>

    constructor (workerId: WorkerId, publicIp: string, publicPort: Uint32, useUdp: bool, now: int)
      ensures this.workerId == workerId
      ensures State() == WorkerState(workerId, publicIp, publicPort, useUdp, Online, 0, 0, 0, now, {})
    {
      this.workerId, this.publicIp, this.publicPort, this.useUdp := workerId, publicIp, publicPort, useUdp;
      status, routerCount, cpuUsage, memoryUsage, lastHeartbeat, routers := Online, 0, 0, 0, now, {};
    }

    function State(): WorkerState
      reads this
    {
      WorkerState(workerId, publicIp, publicPort, useUdp, status, routerCount, cpuUsage, memoryUsage, lastHeartbeat, routers)
    }
  }

  class WorkerManager {
    var workers: map<WorkerId, Worker>

    /** Each worker is kept under its own id; so no worker is kept twice. */
    ghost predicate Valid()
      reads this, workers.Values
    {
      forall id | id in workers :: workers[id] in workers.Values && workers[id].workerId == id
    }

    ghost function Contents(): Table
      reads this, workers.Values
    {
      map id | id in workers :: workers[id].State()
    }

    constructor ()
      ensures Valid() && Contents() == map[]
    {
      workers := map[];
    }

    method RegisterWorker(workerId: WorkerId, publicIp: string, publicPort: Uint32, useUdp: bool, now: int)
      requires Valid()
      modifies this, workers.Values
      ensures Valid() && fresh(workers.Values - old(workers.Values))
      ensures Contents() == Registered(old(Contents()), workerId, publicIp, publicPort, useUdp, now)
    {
      if workerId in workers {
        var worker := workers[workerId];
        worker.lastHeartbeat := now;
        worker.status := Online;
      } else {
        var worker := new Worker(workerId, publicIp, publicPort, useUdp, now);
        workers := workers[workerId := worker];
      }
    }

    method UpdateWorkerStats(workerId: WorkerId, count: Uint32, cpu: Uint32, memory: Uint32, now: int) returns (ok: bool)
      requires Valid()
      modifies workers.Values
      ensures Valid() && ok == (workerId in workers)
      ensures Contents() == WithStats(old(Contents()), workerId, count, cpu, memory, now)
    {
      ok := workerId in workers;
      if ok {
        var worker := workers[workerId];
        worker.routerCount := count;
        worker.cpuUsage := cpu;
        worker.memoryUsage := memory;
        worker.lastHeartbeat := now;
      }
    }

    method Heartbeat(workerId: WorkerId, now: int) returns (ok: bool)
      requires Valid()
      modifies workers.Values
      ensures Valid() && ok == (workerId in workers)
      ensures Contents() == HeartbeatAt(old(Contents()), workerId, now)
    {
      ok := workerId in workers;
      if ok {
        workers[workerId].lastHeartbeat := now;
      }
    }

    method RemoveWorker(workerId: WorkerId)
      requires Valid()
      modifies this, workers.Values
      ensures Valid() && workers.Values <= old(workers.Values)
      ensures Contents() == Removed(old(Contents()), workerId)
      ensures workerId in old(workers) ==> old(workers)[workerId].status == Offline
    {
      if workerId in workers {
        workers[workerId].status := Offline;
        ghost var worker := workers[workerId];
        workers := workers - {workerId};
        assert forall id | id in workers :: workers[id] == old(workers)[id];
      }
    }

    /** order is the order in which the map is ranged over. */
    method GetOnlineWorkers(now: int, order: seq<WorkerId>) returns (online: seq<Worker>)
      requires Valid() && Enumerates(order, workers.Keys)
      ensures forall w | w in online :: w.workerId in workers && workers[w.workerId] == w && Candidate(w.State(), now)
      ensures forall id | id in workers && Candidate(workers[id].State(), now) :: workers[id] in online
    {
      online := [];
      for i := 0 to |order|
        invariant forall w | w in online :: w.workerId in workers && workers[w.workerId] == w && Candidate(w.State(), now)
        invariant forall j | 0 <= j < i && Candidate(workers[order[j]].State(), now) :: workers[order[j]] in online
      {
        var worker := workers[order[i]];
        if worker.status == Online && now - worker.lastHeartbeat < HEARTBEAT_TIMEOUT {
          online := online + [worker];
        }
      }
    }

    /** No worker exactly when none is a candidate; otherwise a candidate no other one beats. */
    method ChooseBestWorker(now: int, order: seq<WorkerId>) returns (best: Worker?)
      requires Valid() && Enumerates(order, workers.Keys)
      ensures best == null <==> forall id | id in Contents() :: !Candidate(Contents()[id], now)
      ensures best != null ==> best.workerId in workers && workers[best.workerId] == best
      ensures best != null ==> Best(Contents(), now, best.workerId)
    {
      var online := GetOnlineWorkers(now, order);
      best := null;
      var bestScore := 0;
      for i := 0 to |online|
        invariant best == null <==> i == 0
        invariant best != null ==> best in online && bestScore == Score(best.State())
        invariant forall j | 0 <= j < i :: Score(online[j].State()) <= bestScore
      {
        var worker := online[i];
        var score := 1000 - (worker.routerCount * 10) % UINT32 - worker.cpuUsage - worker.memoryUsage / 2;
        if best == null || score > bestScore {
          best := worker;
          bestScore := score;
        }
      }
      assert best == null ==> online == [];
      assert best != null ==> best.workerId in Contents() && Candidate(Contents()[best.workerId], now);
      assert forall id | id in workers && Candidate(workers[id].State(), now) :: workers[id] in online;
    }

    method CleanupTick(now: int, order: seq<WorkerId>)
      requires Valid() && Enumerates(order, workers.Keys)
      modifies this, workers.Values
      ensures Valid() && workers.Values <= old(workers.Values)
      ensures Contents() == CleanedUp(old(Contents()), now)
    {
      for i := 0 to |order|
        invariant Valid() && workers.Values <= old(workers.Values)
        invariant Contents() == ExpiredAlong(old(Contents()), now, order[..i])
      {
        ExpireWorker(order[i], now);
        assert order[..i + 1][..i] == order[..i];
      }
      assert order[..|order|] == order;
      ExpiredAlongAll(old(Contents()), now, order);
    }

    /** The loop body: a worker removed by then is passed over. */
    method ExpireWorker(workerId: WorkerId, now: int)
      requires Valid()
      modifies this, workers.Values
      ensures Valid() && workers.Values <= old(workers.Values)
      ensures Contents() == Expired(old(Contents()), workerId, now)
    {
      if workerId in workers && now - workers[workerId].lastHeartbeat > HEARTBEAT_TIMEOUT {
        RemoveWorker(workerId);
      }
    }

    method AddRouter(workerId: WorkerId, router: nat) returns (ok: bool)
      requires Valid()
      modifies workers.Values
      ensures Valid() && ok == (workerId in workers)
      ensures Contents() == WithRouter(old(Contents()), workerId, router)
    {
      ok := workerId in workers;
      if ok {
        var worker := workers[workerId];
        worker.routers := worker.routers + {router};
        worker.routerCount := (worker.routerCount + 1) % UINT32;
      }
    }

    method RemoveRouter(workerId: WorkerId, router: nat) returns (ok: bool)
      requires Valid()
      modifies workers.Values
      ensures Valid() && ok == (workerId in workers && router in old(workers[workerId].routers))
      ensures Contents() == WithoutRouter(old(Contents()), workerId, router)
    {
      ok := false;
      if workerId in workers {
        var worker := workers[workerId];
        if router in worker.routers {
          worker.routers := worker.routers - {router};
          worker.routerCount := (worker.routerCount + (UINT32 - 1)) % UINT32;
          ok := true;
        }
      }
    }
  }
}
