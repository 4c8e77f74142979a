/** The job protocol as a state machine in which every step is one store command (or the passing
    of time, a delivery, a crash).  Any number of requests and task executions interleave. */
module Protocol {
  import opened RedisStore
  import opened QueueControl

  type ReqId = nat
  type RunId = nat

  /** `hardLimit` is Celery's task_time_limit, the rest are the environment settings. */
  datatype Config = Config(hardLimit: real, lockTtl: real, maxGlobal: int, maxTenant: int)

  const DEFAULTS := Config(360.0, 400.0, MAX_QUEUE_SIZE, MAX_TENANT_QUEUE)

  /** How far an `/analyze` request that has passed the rate limiter got. */
  datatype ReqPhase =
    | New | PassedGlobal | PassedTenant
    | Created(job: JobId) | CountedGlobal(job: JobId) | CountedTenant(job: JobId) | Refreshed(job: JobId)
    | Accepted(job: JobId) | Refused | Aborted

  datatype Request = Request(tenant: TenantId, phase: ReqPhase)

  /** How far one execution of process_analysis_job got.  `Killed` is the hard limit or a lost
      worker: no `finally` block runs. */
  datatype RunPhase =
    | Delivered | InBody | Released | SawGlobal | PastGlobal | SawTenant
    | Finished | Skipped | Killed

  datatype Run = Run(job: JobId, tenant: TenantId, phase: RunPhase, start: real, acquired: real) {
    predicate Active() { !phase.Finished? && !phase.Skipped? && !phase.Killed? }
  }

  /** `creator` names the request that created each job.  The last three fields are history: which
      execution set each lock last, per counter the jobs whose INCR has executed while their
      decrement has not, and the counters that have ever expired while live.  The collections are type
      parameters only to keep the solver away from the well-founded order Dafny attaches to
      collections inside a datatype; `State` fixes them. */
  datatype StateOf<Locks, Depths, Creators, Messages, Requests, Runs, Holders, Jobs, Keys> = State(
    now: real,
    locks: Locks,
    depths: Depths,
    creator: Creators,
    sent: Messages,
    requests: Requests,
    runs: Runs,
    holder: Holders,
    open: Jobs,
    lapsed: Keys)

  type State = StateOf<map<JobId, Entry<()>>, map<DepthKey, Entry<int>>, map<JobId, ReqId>, map<JobId, TenantId>,
                       map<ReqId, Request>, map<RunId, Run>, map<JobId, RunId>, map<DepthKey, set<JobId>>,
                           set<DepthKey>>

  function Init(): State {
    State(0.0, map[], map[], map[], map[], map[], map[], map[], map[], {})
  }

  /** The jobs counted in `k` and not yet discounted from it. */
  function Open(s: State, k: DepthKey): set<JobId> {
    if k in s.open then s.open[k] else {}
  }

  datatype Event =
    | Arrive(q: ReqId, tenant: TenantId)
    | CheckGlobal(q: ReqId) | CheckTenant(q: ReqId) | Create(q: ReqId, job: JobId)
    | IncrGlobal(q: ReqId) | IncrTenant(q: ReqId) | ExpireTenant(q: ReqId) | Send(q: ReqId)
    | Abort(q: ReqId)
    | Deliver(r: RunId, job: JobId)
    | Acquire(r: RunId) | Release(r: RunId)
    | ReadGlobal(r: RunId) | DecrGlobal(r: RunId) | ReadTenant(r: RunId) | DecrTenant(r: RunId)
    | Kill(r: RunId)
    | Tick(d: real)

  predicate Enabled(c: Config, s: State, e: Event) {
    match e
    case Arrive(q, _) => q !in s.requests
    case CheckGlobal(q) => q in s.requests && s.requests[q].phase.New?
    case CheckTenant(q) => q in s.requests && s.requests[q].phase.PassedGlobal?
    case Create(q, j) => q in s.requests && s.requests[q].phase.PassedTenant? && j !in s.creator
    case IncrGlobal(q) => q in s.requests && s.requests[q].phase.Created?
    case IncrTenant(q) => q in s.requests && s.requests[q].phase.CountedGlobal?
    case ExpireTenant(q) => q in s.requests && s.requests[q].phase.CountedTenant?
    case Send(q) => q in s.requests && s.requests[q].phase.Refreshed?
    case Abort(q) => q in s.requests && InFlight(s.requests[q].phase)
    // a first delivery, a redelivery, a Celery retry or a client retry
    case Deliver(r, j) => r !in s.runs && j in s.sent
    case Acquire(r) => r in s.runs && s.runs[r].phase.Delivered?
    case Release(r) => r in s.runs && s.runs[r].phase.InBody?
    case ReadGlobal(r) => r in s.runs && s.runs[r].phase.Released?
    case DecrGlobal(r) => r in s.runs && s.runs[r].phase.SawGlobal?
    case ReadTenant(r) => r in s.runs && s.runs[r].phase.PastGlobal?
    case DecrTenant(r) => r in s.runs && s.runs[r].phase.SawTenant?
    case Kill(r) => r in s.runs && s.runs[r].Active()
    // no execution outlives the hard limit
    case Tick(d) => d >= 0.0 && forall r | r in s.runs && s.runs[r].Active() ::
        s.now + d <= s.runs[r].start + c.hardLimit
  }

  predicate InFlight(p: ReqPhase) {
    !p.Accepted? && !p.Refused? && !p.Aborted?
  }

  function Apply(c: Config, s: State, e: Event): State
    requires Enabled(c, s, e)
  {
    match e
    case Arrive(q, t) => s.(requests := s.requests[q := Request(t, New)])
    case CheckGlobal(q) =>
      Goto(s, q, if Count(s.depths, GlobalDepth, s.now) >= c.maxGlobal then Refused else PassedGlobal)
    case CheckTenant(q) =>
      Goto(s, q, if Count(s.depths, TenantDepth(s.requests[q].tenant), s.now) >= c.maxTenant then Refused
                 else PassedTenant)
    case Create(q, j) => OnCreate(s, q, j)
    case IncrGlobal(q) => OnIncrGlobal(s, q)
    case IncrTenant(q) => OnIncrTenant(s, q)
    case ExpireTenant(q) => OnExpireTenant(s, q)
    case Send(q) => OnSend(s, q)
    case Abort(q) => Goto(s, q, Aborted)
    case Deliver(r, j) => s.(runs := s.runs[r := Run(j, s.sent[j], Delivered, s.now, s.now)])
    case Acquire(r) => OnAcquire(c, s, r)
    case Release(r) => OnRelease(s, r)
    case ReadGlobal(r) => OnReadGlobal(s, r)
    case DecrGlobal(r) => OnDecrGlobal(s, r)
    case ReadTenant(r) => OnReadTenant(s, r)
    case DecrTenant(r) => OnDecrTenant(s, r)
    case Kill(r) => Move(s, r, Killed)
    case Tick(d) =>
      s.(now := s.now + d,
         lapsed := s.lapsed + set k | k in s.depths && Live(s.depths, k, s.now) && !Live(s.depths, k, s.now + d))
  }

  function Goto(s: State, q: ReqId, p: ReqPhase): State
    requires q in s.requests
  {
    s.(requests := s.requests[q := s.requests[q].(phase := p)])
  }

  function OnCreate(s: State, q: ReqId, j: JobId): State
    requires q in s.requests
  {
    s.(requests := s.requests[q := s.requests[q].(phase := Created(j))],
       creator := s.creator[j := q])
  }

  function OnIncrGlobal(s: State, q: ReqId): State
    requires q in s.requests && s.requests[q].phase.Created?
  {
    var j := s.requests[q].phase.job;
    s.(requests := s.requests[q := s.requests[q].(phase := CountedGlobal(j))],
       depths := Add(s.depths, GlobalDepth, 1, s.now),
       open := s.open[GlobalDepth := Open(s, GlobalDepth) + {j}])
  }

  function OnIncrTenant(s: State, q: ReqId): State
    requires q in s.requests && s.requests[q].phase.CountedGlobal?
  {
    var j, k := s.requests[q].phase.job, TenantDepth(s.requests[q].tenant);
    s.(requests := s.requests[q := s.requests[q].(phase := CountedTenant(j))],
       depths := Add(s.depths, k, 1, s.now),
       open := s.open[k := Open(s, k) + {j}])
  }

  function OnExpireTenant(s: State, q: ReqId): State
    requires q in s.requests && s.requests[q].phase.CountedTenant?
  {
    s.(requests := s.requests[q := s.requests[q].(phase := Refreshed(s.requests[q].phase.job))],
       depths := Expire(s.depths, TenantDepth(s.requests[q].tenant), s.now, TENANT_DEPTH_TTL))
  }

  function OnSend(s: State, q: ReqId): State
    requires q in s.requests && s.requests[q].phase.Refreshed?
  {
    var j := s.requests[q].phase.job;
    s.(requests := s.requests[q := s.requests[q].(phase := Accepted(j))],
       sent := s.sent[j := s.requests[q].tenant])
  }

  function Move(s: State, r: RunId, p: RunPhase): State
    requires r in s.runs
  {
    s.(runs := s.runs[r := s.runs[r].(phase := p)])
  }

  /** SET NX EX: `taken` is the refusal. */
  function OnAcquire(c: Config, s: State, r: RunId): State
    requires r in s.runs
  {
    var j := s.runs[r].job;
    var taken := Live(s.locks, j, s.now);
    s.(runs := s.runs[r := if taken then s.runs[r].(phase := Skipped)
                           else s.runs[r].(phase := InBody, acquired := s.now)],
       locks := if taken then s.locks else SetEx(s.locks, j, (), s.now, c.lockTtl),
       holder := if taken then s.holder else s.holder[j := r])
  }

  /** The first command of the `finally` block: an unconditional DELETE. */
  function OnRelease(s: State, r: RunId): State
    requires r in s.runs
  {
    s.(runs := s.runs[r := s.runs[r].(phase := Released)], locks := s.locks - {s.runs[r].job})
  }

  /** An execution that reads zero will not decrement, so its job is discounted here. */
  function OnReadGlobal(s: State, r: RunId): State
    requires r in s.runs
  {
    var saw := Count(s.depths, GlobalDepth, s.now) > 0;
    s.(runs := s.runs[r := s.runs[r].(phase := if saw then SawGlobal else PastGlobal)],
       open := if saw then s.open else s.open[GlobalDepth := Open(s, GlobalDepth) - {s.runs[r].job}])
  }

  function OnDecrGlobal(s: State, r: RunId): State
    requires r in s.runs
  {
    s.(runs := s.runs[r := s.runs[r].(phase := PastGlobal)],
       depths := Add(s.depths, GlobalDepth, -1, s.now),
       open := s.open[GlobalDepth := Open(s, GlobalDepth) - {s.runs[r].job}])
  }

  function OnReadTenant(s: State, r: RunId): State
    requires r in s.runs
  {
    var k := TenantDepth(s.runs[r].tenant);
    var saw := Count(s.depths, k, s.now) > 0;
    s.(runs := s.runs[r := s.runs[r].(phase := if saw then SawTenant else Finished)],
       open := if saw then s.open else s.open[k := Open(s, k) - {s.runs[r].job}])
  }

  function OnDecrTenant(s: State, r: RunId): State
    requires r in s.runs
  {
    var k := TenantDepth(s.runs[r].tenant);
    s.(runs := s.runs[r := s.runs[r].(phase := Finished)],
       depths := Add(s.depths, k, -1, s.now),
       open := s.open[k := Open(s, k) - {s.runs[r].job}])
  }

  /** The state after a sequence of events from the empty store, if each was enabled in turn. */
  function Exec(c: Config, es: seq<Event>): Option<State> {
    if es == [] then Some(Init())
    else
      var before := Exec(c, es[..|es| - 1]);
      if before.Some? && Enabled(c, before.value, es[|es| - 1])
      then Some(Apply(c, before.value, es[|es| - 1]))
      else None
  }

  ghost predicate Reachable(c: Config, s: State) {
    exists es :: Exec(c, es) == Some(s)
  }

  /** One more event after a run that is already known to execute. */
  lemma Extend(c: Config, es: seq<Event>, s: State, e: Event)
    requires Exec(c, es) == Some(s) && Enabled(c, s, e)
    ensures Exec(c, es + [e]) == Some(Apply(c, s, e))
  {
    assert (es + [e])[..|es|] == es;
  }
}
