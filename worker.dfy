/**
 * The per-session worker and the pool that owns the workers. A worker is a
 * status machine around its delegate (the agent service); the pool maps
 * session ids to workers under a capacity bound.
 */
module Workers {
  import opened Common
  import opened Schemas

  /** The worker's status string, one constructor per value the code assigns. */
  datatype WorkerStatus = Initializing | Ready | Processing | Error | Failed | Terminating | Terminated
  {
    function Wire(): string {
      match this
      case Initializing => "initializing"
      case Ready => "ready"
      case Processing => "processing"
      case Error => "error"
      case Failed => "failed"
      case Terminating => "terminating"
      case Terminated => "terminated"
    }
  }

  /** The worker's delegate, known by the session it was constructed for. */
  datatype DelegateHandle = DelegateHandle(sessionId: SessionId)

  /**
   * What the delegate does when asked to process a message: the updates it
   * yields, in order, and the exception it raises after them, if any.
   */
  datatype DelegateRun = DelegateRun(yielded: seq<AgentUpdate>, raised: Option<string>)

  const VNC_BASE_PORT: int := 5900
  const VNC_PORT_RANGE: int := 1000

  /**
   * The simulated display port, `5900 + hash(session_id) % 1000` with a
   * floored modulo: the one port of 5900..6899 congruent to 5900 + hash.
   */
  function VncPort(sessionHash: int): (port: int)
    ensures VNC_BASE_PORT <= port < VNC_BASE_PORT + VNC_PORT_RANGE
    ensures (port - VNC_BASE_PORT - sessionHash) % VNC_PORT_RANGE == 0
  {
    VNC_BASE_PORT + sessionHash % VNC_PORT_RANGE
  }

  /** The update a worker appends when its delegate raises. */
  function WorkerErrorUpdate(workerId: string, error: string, now: Timestamp): AgentUpdate {
    AgentUpdate(UpdateType.Error, "Error processing message: " + error, now,
                map["worker_id" := VStr(workerId), "error" := VStr(error)])
  }

  /**
   * The stream a ready worker yields for one delegate run: the delegate's
   * updates first, unchanged, and at most one more.
   */
  function Forwarded(run: DelegateRun, workerId: string, now: Timestamp): (us: seq<AgentUpdate>)
    ensures |us| == |run.yielded| + (if run.raised.Some? then 1 else 0)
    ensures us[..|run.yielded|] == run.yielded
    ensures run.raised.None? ==> us == run.yielded
  {
    run.yielded + (if run.raised.Some? then [WorkerErrorUpdate(workerId, run.raised.value, now)] else [])
  }

  /**
   * A ready worker forwards every delegate update unchanged and in order;
   * when the delegate raises, exactly one more error update follows them,
   * naming the worker and the exception.
   */
  lemma ForwardedShape(run: DelegateRun, workerId: string, now: Timestamp)
    ensures var us := Forwarded(run, workerId, now);
            && |us| == |run.yielded| + (if run.raised.Some? then 1 else 0)
            && us[..|run.yielded|] == run.yielded
            && CountKind(us, UpdateType.Error) == CountKind(run.yielded, UpdateType.Error) + (if run.raised.Some? then 1 else 0)
    ensures run.raised.Some? ==>
              var last := Forwarded(run, workerId, now)[|run.yielded|];
              && last.updateType == UpdateType.Error
              && last.content == "Error processing message: " + run.raised.value
              && Lookup(last.metadata, "worker_id", VNull) == VStr(workerId)
  {
    var us := Forwarded(run, workerId, now);
    var tail := if run.raised.Some? then [WorkerErrorUpdate(workerId, run.raised.value, now)] else [];
    CountKindAppend(run.yielded, tail, UpdateType.Error);
    assert us[..|run.yielded|] == run.yielded;
  }

  /** The health entry of one worker. */
  datatype WorkerHealth = WorkerHealth(workerId: string, status: string, createdAt: Timestamp, vncPort: Option<int>)

  /** The pool's health report. */
  datatype HealthReport = HealthReport(totalWorkers: nat, maxWorkers: nat, workers: map<SessionId, WorkerHealth>)

  class Worker {
    const sessionId: SessionId
    const workerId: string
    const createdAt: Timestamp
    var status: WorkerStatus
    var vncPort: Option<int>
    var agentService: Option<DelegateHandle>
    /** Every status the worker has been given, in order. */
    ghost var statusLog: seq<WorkerStatus>

    /** A new worker is initializing, with no port and no delegate. */
    constructor (sessionId: SessionId, workerId: string, createdAt: Timestamp)
      ensures this.sessionId == sessionId && this.workerId == workerId && this.createdAt == createdAt
      ensures status == Initializing && vncPort == None && agentService == None
      ensures statusLog == [Initializing]
    {
      this.sessionId := sessionId;
      this.workerId := workerId;
      this.createdAt := createdAt;
      status := Initializing;
      vncPort := None;
      agentService := None;
      statusLog := [Initializing];
    }

    function Health(): (h: WorkerHealth)
      reads this
      ensures h.workerId == workerId && h.status == status.Wire() && h.vncPort == vncPort
      ensures h.createdAt == createdAt
    {
      WorkerHealth(workerId, status.Wire(), createdAt, vncPort)
    }

    method SetStatus(s: WorkerStatus)
      modifies this`status, this`statusLog
      ensures status == s && statusLog == old(statusLog) + [s]
    {
      status := s;
      statusLog := statusLog + [s];
    }

    /**
     * Assigns the display port, then constructs the delegate. If the
     * construction raises (`agentFailure`), the worker is failed and the
     * error propagates; otherwise the worker is ready with its delegate.
     */
    method Initialize(sessionHash: int, agentFailure: Option<string>) returns (outcome: Outcome<ServiceError>)
      modifies this`status, this`vncPort, this`agentService, this`statusLog
      ensures vncPort == Some(VncPort(sessionHash))
      ensures agentFailure.None? ==>
                && outcome == Pass
                && status == Ready && agentService == Some(DelegateHandle(sessionId))
                && statusLog == old(statusLog) + [Initializing, Ready]
      ensures agentFailure.Some? ==>
                && outcome == Fail(InitializationFailure(agentFailure.value))
                && status == Failed && agentService == old(agentService)
                && statusLog == old(statusLog) + [Initializing, Failed]
    {
      SetStatus(Initializing);
      vncPort := Some(VncPort(sessionHash));
      if agentFailure.Some? {
        SetStatus(Failed);
        return Fail(InitializationFailure(agentFailure.value));
      }
      agentService := Some(DelegateHandle(sessionId));
      SetStatus(Ready);
      outcome := Pass;
    }

    /**
     * Forwards one delegate run. A worker that is not ready, or has no
     * delegate, raises before yielding anything and keeps its status.
     * Otherwise it passes through processing, forwards the delegate's
     * updates, turns a delegate exception into one error update (passing
     * through the error status), and ends ready.
     */
    method ProcessMessage(run: DelegateRun, now: Timestamp) returns (r: Result<seq<AgentUpdate>, ServiceError>)
      modifies this`status, this`statusLog
      ensures old(status) != Ready ==>
                r == Err(NotReady(old(status).Wire())) && status == old(status) && statusLog == old(statusLog)
      ensures old(status) == Ready && agentService.None? ==>
                r == Err(AgentNotInitialized) && status == old(status) && statusLog == old(statusLog)
      ensures old(status) == Ready && agentService.Some? ==>
                && r == Ok(Forwarded(run, workerId, now))
                && status == Ready
                && statusLog == old(statusLog)
                               + (if run.raised.Some? then [WorkerStatus.Processing, WorkerStatus.Error, Ready]
                                  else [WorkerStatus.Processing, Ready])
    {
      if status != Ready {
        return Err(NotReady(status.Wire()));
      }
      if agentService.None? {
        return Err(AgentNotInitialized);
      }
      SetStatus(WorkerStatus.Processing);
      var forwarded: seq<AgentUpdate> := [];
      var i := 0;
      while i < |run.yielded|
        invariant 0 <= i <= |run.yielded|
        invariant forwarded == run.yielded[..i]
      {
        forwarded := forwarded + [run.yielded[i]];
        i := i + 1;
      }
      assert forwarded == run.yielded;
      if run.raised.Some? {
        SetStatus(WorkerStatus.Error);
        forwarded := forwarded + [WorkerErrorUpdate(workerId, run.raised.value, now)];
        assert forwarded == Forwarded(run, workerId, now);
        SetStatus(Ready);
      } else {
        assert Forwarded(run, workerId, now) == run.yielded + [] == forwarded;
        SetStatus(Ready);
      }
      r := Ok(forwarded);
    }

    /**
     * Releases the worker's resources. It moves to terminating; a delegate
     * whose history reset raises (`failure`) leaves the worker terminating
     * with its delegate, and the error propagates. Otherwise the delegate
     * is dropped and the worker is terminated.
     */
    method Cleanup(failure: Option<string>) returns (outcome: Outcome<ServiceError>)
      modifies this`status, this`agentService, this`statusLog
      ensures old(agentService).Some? && failure.Some? ==>
                && outcome == Fail(CleanupFailure(failure.value))
                && status == Terminating && agentService == old(agentService)
                && statusLog == old(statusLog) + [Terminating]
      ensures !(old(agentService).Some? && failure.Some?) ==>
                && outcome == Pass
                && status == WorkerStatus.Terminated && agentService == None
                && statusLog == old(statusLog) + [Terminating, WorkerStatus.Terminated]
    {
      SetStatus(Terminating);
      if agentService.Some? {
        if failure.Some? {
          return Fail(CleanupFailure(failure.value));
        }
        agentService := None;
      }
      SetStatus(WorkerStatus.Terminated);
      outcome := Pass;
    }
  }

  /** The capacity the code gives a pool it constructs itself. */
  const DEFAULT_MAX_WORKERS: nat := 100

  class WorkerPool {
    var workers: map<SessionId, Worker>
    const maxWorkers: nat

    /**
     * The pool holds at most `maxWorkers` workers, each filed under its own
     * session, and no two entries share a worker id.
     */
    ghost predicate Valid()
      reads this
    {
      && |workers| <= maxWorkers
      && (forall s :: s in workers ==> workers[s].sessionId == s)
      && (forall s, t :: s in workers && t in workers && s != t ==> workers[s].workerId != workers[t].workerId)
    }

    /** An empty pool holding at most `maxWorkers` workers. */
    constructor (maxWorkers: nat)
      ensures this.maxWorkers == maxWorkers && workers == map[] && Valid()
    {
      this.maxWorkers := maxWorkers;
      workers := map[];
    }

    /**
     * Returns the session's worker, creating and initialising one if there
     * is none. An existing worker is returned as it is. A new session at
     * capacity, or one whose worker fails to initialise, leaves the pool
     * unchanged; otherwise a fresh ready worker with id `freshWorkerId` is
     * filed under the session.
     */
    method SpawnWorker(sessionId: SessionId, freshWorkerId: string, now: Timestamp, sessionHash: int, agentFailure: Option<string>)
      returns (r: Result<Worker, ServiceError>)
      requires Valid()
      requires forall s :: s in workers ==> workers[s].workerId != freshWorkerId
      modifies this
      ensures Valid()
      ensures sessionId in old(workers) ==> r == Ok(old(workers)[sessionId]) && workers == old(workers)
      ensures sessionId !in old(workers) && |old(workers)| >= maxWorkers ==>
                r == Err(CapacityExceeded(maxWorkers)) && workers == old(workers)
      ensures sessionId !in old(workers) && |old(workers)| < maxWorkers && agentFailure.Some? ==>
                r == Err(InitializationFailure(agentFailure.value)) && workers == old(workers)
      ensures sessionId !in old(workers) && |old(workers)| < maxWorkers && agentFailure.None? ==>
                && r.Ok? && fresh(r.value)
                && workers == old(workers)[sessionId := r.value]
                && r.value.sessionId == sessionId && r.value.workerId == freshWorkerId && r.value.createdAt == now
                && r.value.status == Ready && r.value.agentService == Some(DelegateHandle(sessionId))
                && r.value.vncPort == Some(VncPort(sessionHash))
    {
      if sessionId in workers {
        return Ok(workers[sessionId]);
      }
      if |workers| >= maxWorkers {
        return Err(CapacityExceeded(maxWorkers));
      }
      var worker := new Worker(sessionId, freshWorkerId, now);
      var outcome := worker.Initialize(sessionHash, agentFailure);
      if outcome.Fail? {
        return Err(outcome.error);
      }
      workers := workers[sessionId := worker];
      r := Ok(worker);
    }

    /** `workers.get(session_id)`: the session's worker, if the pool has one. */
    function GetWorker(sessionId: SessionId): (r: Option<Worker>)
      reads this
      ensures r.Some? <==> sessionId in workers
      ensures r.Some? ==> r.value == workers[sessionId]
      ensures Valid() && r.Some? ==> r.value.sessionId == sessionId
    {
      if sessionId in workers then Some(workers[sessionId]) else None
    }

    /**
     * Terminates the session's worker. An unknown session gives false and
     * changes nothing. A worker whose cleanup raises stays in the pool and
     * the error propagates. Otherwise the worker is terminated, its entry
     * removed, and the result is true; every other entry is kept.
     */
    method TerminateWorker(sessionId: SessionId, failure: Option<string>) returns (r: Result<bool, ServiceError>)
      requires Valid()
      modifies this, if sessionId in workers then {workers[sessionId]} else {}
      ensures Valid()
      ensures sessionId !in old(workers) ==> r == Ok(false) && workers == old(workers)
      ensures sessionId in old(workers) && old(workers[sessionId].agentService).Some? && failure.Some? ==>
                && r == Err(CleanupFailure(failure.value)) && workers == old(workers)
                && old(workers)[sessionId].status == Terminating
                && old(workers)[sessionId].agentService == old(workers[sessionId].agentService)
      ensures sessionId in old(workers) && !(old(workers[sessionId].agentService).Some? && failure.Some?) ==>
                && r == Ok(true) && workers == old(workers) - {sessionId}
                && old(workers)[sessionId].status == WorkerStatus.Terminated
                && old(workers)[sessionId].agentService == None
    {
      if sessionId !in workers {
        return Ok(false);
      }
      var worker := workers[sessionId];
      var outcome := worker.Cleanup(failure);
      if outcome.Fail? {
        return Err(outcome.error);
      }
      workers := workers - {sessionId};
      r := Ok(true);
    }

    /** Reports the pool's size, its capacity and every worker's health entry. */
    method HealthCheck() returns (report: HealthReport)
      ensures report.totalWorkers == |workers| && report.maxWorkers == maxWorkers
      ensures report.workers.Keys == workers.Keys
      ensures forall s :: s in workers ==> report.workers[s] == workers[s].Health()
      ensures Valid() ==> report.totalWorkers <= report.maxWorkers
    {
      var statuses: map<SessionId, WorkerHealth> := map[];
      var remaining := workers.Keys;
      while remaining != {}
        invariant remaining <= workers.Keys
        invariant statuses.Keys == workers.Keys - remaining
        invariant forall s :: s in statuses ==> statuses[s] == workers[s].Health()
        decreases remaining
      {
        var s :| s in remaining;
        statuses := statuses[s := workers[s].Health()];
        remaining := remaining - {s};
      }
      report := HealthReport(|workers|, maxWorkers, statuses);
    }

    /**
     * Shuts every worker down, ignoring cleanup errors, then empties the
     * pool. Each worker ends terminated, or terminating when its cleanup
     * raised (`failures` names the sessions whose cleanup raises).
     */
    method CleanupAll(failures: map<SessionId, string>)
      requires Valid()
      modifies this, workers.Values
      ensures workers == map[] && Valid()
      ensures forall s :: s in old(workers) ==>
                old(workers)[s].status
                == (if old(workers[s].agentService).Some? && s in failures then Terminating else WorkerStatus.Terminated)
      ensures forall s :: s in old(workers) ==>
                old(workers)[s].statusLog
                == old(workers[s].statusLog)
                   + (if old(workers[s].agentService).Some? && s in failures then [Terminating]
                      else [Terminating, WorkerStatus.Terminated])
    {
      CleanupEach(workers, failures);
      workers := map[];
    }
  }

  /**
   * What one cleanup did to a worker since the enclosing method began: it
   * is left `terminating` when it had a delegate whose cleanup raised and
   * `terminated` otherwise, and its status history grew by those steps.
   */
  twostate predicate CleanedUp(w: Worker, failed: bool)
    reads w
  {
    var raised := old(w.agentService).Some? && failed;
    && w.status == (if raised then Terminating else WorkerStatus.Terminated)
    && w.statusLog == old(w.statusLog) + (if raised then [Terminating] else [Terminating, WorkerStatus.Terminated])
  }

  /**
   * Cleans up each of a set of distinct workers in turn, ignoring the
   * errors: each worker goes through its cleanup exactly once.
   */
  method CleanupEach(ws: map<SessionId, Worker>, failures: map<SessionId, string>)
    requires forall s, t :: s in ws && t in ws && s != t ==> ws[s].workerId != ws[t].workerId
    modifies ws.Values
    ensures forall s :: s in ws ==> CleanedUp(ws[s], s in failures)
  {
    var remaining := ws.Keys;
    while remaining != {}
      invariant remaining <= ws.Keys
      invariant forall s :: s in ws.Keys - remaining ==> CleanedUp(ws[s], s in failures)
      invariant forall s :: s in remaining ==> unchanged(ws[s])
      decreases remaining
    {
      var s :| s in remaining;
      var w := ws[s];
      assert forall t :: t in ws && t != s ==> ws[t] != w by {
        forall t | t in ws && t != s
          ensures ws[t] != w
        {
          assert ws[t].workerId != w.workerId;
        }
      }
      var failure := if s in failures then Some(failures[s]) else None;
      var _ := w.Cleanup(failure);
      remaining := remaining - {s};
    }
  }
}
