/** The two depth counters never over-report, at the granularity of single commands and across
    crashes, retries and expiry; without repeated deliveries and expiry they are exact. */
module CounterSafety {
  import opened RedisStore
  import opened QueueControl
  import opened Protocol
  import opened Sets

  function TenantOf(s: State, j: JobId): Option<TenantId> {
    if j in s.creator && s.creator[j] in s.requests then Some(s.requests[s.creator[j]].tenant) else None
  }

  ghost predicate Counts(s: State, k: DepthKey, j: JobId) {
    j in s.creator && (k.TenantDepth? ==> TenantOf(s, j) == Some(k.tenant))
  }

  predicate Carries(p: ReqPhase) {
    p.Created? || p.CountedGlobal? || p.CountedTenant? || p.Refreshed? || p.Accepted?
  }

  ghost predicate ReqOk(s: State, q: ReqId)
    requires q in s.requests
  {
    var p := s.requests[q].phase;
    var t := TenantDepth(s.requests[q].tenant);
    && (Carries(p) ==> p.job in s.creator && s.creator[p.job] == q)
    && (p.Created? ==> p.job !in Open(s, GlobalDepth))
    && (p.Created? || p.CountedGlobal? ==> p.job !in Open(s, t))
  }

  ghost predicate JobOk(s: State, j: JobId)
    requires j in s.creator
  {
    && s.creator[j] in s.requests
    && (s.requests[s.creator[j]].phase.Aborted? ||
        (Carries(s.requests[s.creator[j]].phase) && s.requests[s.creator[j]].phase.job == j))
    && (j in s.sent <==> s.requests[s.creator[j]].phase == Accepted(j))
    && (j in s.sent ==> s.sent[j] == s.requests[s.creator[j]].tenant)
  }

  ghost predicate RunOk(s: State, r: RunId)
    requires r in s.runs
  {
    var x := s.runs[r];
    && x.job in s.sent && x.job in s.creator && s.sent[x.job] == x.tenant
    && (x.phase.PastGlobal? || x.phase.SawTenant? || x.phase.Finished? ==> x.job !in Open(s, GlobalDepth))
    && (x.phase.Finished? ==> x.job !in Open(s, TenantDepth(x.tenant)))
  }

  ghost predicate DepthOk(s: State, k: DepthKey) {
    && Count(s.depths, k, s.now) <= |Open(s, k)|
    && (forall j | j in Open(s, k) :: Counts(s, k, j))
  }

  ghost predicate Inv(s: State) {
    && (forall q {:trigger ReqOk(s, q)} | q in s.requests :: ReqOk(s, q))
    && (forall j {:trigger JobOk(s, j)} | j in s.creator :: JobOk(s, j))
    && s.sent.Keys <= s.creator.Keys
    && (forall r {:trigger RunOk(s, r)} | r in s.runs :: RunOk(s, r))
    && (forall k {:trigger DepthOk(s, k)} :: DepthOk(s, k))
  }

  /** A request command that only moves the request on (and may refresh a live counter's expiry). */
  lemma InvGoto(s: State, s': State, q: ReqId, p: ReqPhase)
    requires Inv(s) && q in s.requests
    requires s' == s.(requests := s'.requests, depths := s'.depths)
    requires s'.requests == s.requests[q := s.requests[q].(phase := p)]
    requires forall k :: Count(s'.depths, k, s.now) == Count(s.depths, k, s.now)
    requires ReqOk(s', q) && InFlight(s.requests[q].phase) && !p.Accepted?
    requires Carries(s.requests[q].phase) ==> p.Aborted? || (Carries(p) && p.job == s.requests[q].phase.job)
    ensures Inv(s')
  {
    assert ReqOk(s, q);
    forall q' | q' in s'.requests ensures ReqOk(s', q') { assert q' != q ==> ReqOk(s, q'); }
    forall j | j in s'.creator ensures JobOk(s', j) { assert JobOk(s, j); }
    forall r | r in s'.runs ensures RunOk(s', r) { assert RunOk(s, r); }
    forall k ensures DepthOk(s', k) { assert DepthOk(s, k); }
  }

  lemma InvArrive(s: State, q: ReqId, t: TenantId)
    requires Inv(s) && q !in s.requests
    ensures Inv(s.(requests := s.requests[q := Request(t, New)]))
  {
    var s' := s.(requests := s.requests[q := Request(t, New)]);
    forall q' | q' in s'.requests ensures ReqOk(s', q') { assert q' != q ==> ReqOk(s, q'); }
    forall j | j in s'.creator ensures JobOk(s', j) { assert JobOk(s, j); }
    forall r | r in s'.runs ensures RunOk(s', r) { assert RunOk(s, r); }
    forall k ensures DepthOk(s', k) {
      assert DepthOk(s, k);
      forall j | j in Open(s', k) ensures Counts(s', k, j) { assert Counts(s, k, j); assert JobOk(s, j); }
    }
  }

  lemma InvCreate(s: State, q: ReqId, j: JobId)
    requires Inv(s) && q in s.requests && s.requests[q].phase.PassedTenant? && j !in s.creator
    ensures Inv(OnCreate(s, q, j))
  {
    var s' := OnCreate(s, q, j);
    forall k ensures DepthOk(s', k) && j !in Open(s', k) {
      assert DepthOk(s, k);
      forall i | i in Open(s', k) ensures Counts(s', k, i) && i != j { assert Counts(s, k, i); }
    }
    forall q' | q' in s'.requests ensures ReqOk(s', q') { assert q' != q ==> ReqOk(s, q'); }
    forall i | i in s'.creator ensures JobOk(s', i) { assert i != j ==> JobOk(s, i); }
    forall r | r in s'.runs ensures RunOk(s', r) { assert RunOk(s, r); }
  }

  lemma InvIncrGlobal(s: State, q: ReqId)
    requires Inv(s) && q in s.requests && s.requests[q].phase.Created?
    ensures Inv(OnIncrGlobal(s, q))
  {
    var s' := OnIncrGlobal(s, q);
    assert ReqOk(s, q);
    forall q' | q' in s'.requests ensures ReqOk(s', q') { assert ReqOk(s, q'); }
    forall j | j in s'.creator ensures JobOk(s', j) { assert JobOk(s, j); }
    forall r | r in s'.runs ensures RunOk(s', r) { assert RunOk(s, r); assert JobOk(s, s.runs[r].job); }
    forall k ensures DepthOk(s', k) { assert DepthOk(s, k); }
  }

  lemma InvIncrTenant(s: State, q: ReqId)
    requires Inv(s) && q in s.requests && s.requests[q].phase.CountedGlobal?
    ensures Inv(OnIncrTenant(s, q))
  {
    var s' := OnIncrTenant(s, q);
    assert ReqOk(s, q);
    forall q' | q' in s'.requests ensures ReqOk(s', q') { assert ReqOk(s, q'); }
    forall j | j in s'.creator ensures JobOk(s', j) { assert JobOk(s, j); }
    forall r | r in s'.runs ensures RunOk(s', r) { assert RunOk(s, r); assert JobOk(s, s.runs[r].job); }
    forall k ensures DepthOk(s', k) { assert DepthOk(s, k); }
  }

  lemma InvSend(s: State, q: ReqId)
    requires Inv(s) && q in s.requests && s.requests[q].phase.Refreshed?
    ensures Inv(OnSend(s, q))
  {
    var s' := OnSend(s, q);
    assert ReqOk(s, q);
    forall q' | q' in s'.requests ensures ReqOk(s', q') { assert ReqOk(s, q'); }
    forall j | j in s'.creator ensures JobOk(s', j) { assert JobOk(s, j); }
    forall r | r in s'.runs ensures RunOk(s', r) { assert RunOk(s, r); assert JobOk(s, s.runs[r].job); }
    forall k ensures DepthOk(s', k) { assert DepthOk(s, k); }
  }

  /** A command of an execution that touches at most counter `k` and discounts its job from it. */
  lemma InvDiscount(s: State, s': State, r: RunId, k: DepthKey)
    requires Inv(s) && r in s.runs && r in s'.runs
    requires s' == s.(runs := s'.runs, depths := s'.depths, open := s'.open)
    requires s'.runs == s.runs[r := s.runs[r].(phase := s'.runs[r].phase)]
    requires s'.open == s.open[k := Open(s, k) - {s.runs[r].job}]
    requires forall k' | k' != k :: Count(s'.depths, k', s.now) == Count(s.depths, k', s.now)
    requires Count(s'.depths, k, s.now) <= Count(s.depths, k, s.now) - 1 || Count(s'.depths, k, s.now) <= 0
    requires RunOk(s', r)
    ensures Inv(s')
  {
    forall q | q in s'.requests ensures ReqOk(s', q) { assert ReqOk(s, q); }
    forall j | j in s'.creator ensures JobOk(s', j) { assert JobOk(s, j); }
    forall r' | r' in s'.runs ensures RunOk(s', r') { assert RunOk(s, r'); }
    forall k' ensures DepthOk(s', k') {
      assert DepthOk(s, k');
      assert |Open(s, k)| <= |Open(s, k) - {s.runs[r].job}| + 1;
    }
  }

  /** Anything that leaves the counters, the requests and the jobs alone. */
  lemma InvRuns(s: State, s': State)
    requires Inv(s)
    requires s'.now == s.now && s'.depths == s.depths && s'.open == s.open
    requires s'.requests == s.requests && s'.creator == s.creator && s'.sent == s.sent
    requires forall r {:trigger RunOk(s', r)} | r in s'.runs :: RunOk(s', r)
    ensures Inv(s')
  {
    forall q | q in s'.requests ensures ReqOk(s', q) { assert ReqOk(s, q); }
    forall j | j in s'.creator ensures JobOk(s', j) { assert JobOk(s, j); }
    forall k ensures DepthOk(s', k) { assert DepthOk(s, k); }
  }

  lemma InvMove(s: State, s': State, r: RunId)
    requires Inv(s) && r in s.runs && r in s'.runs
    requires s'.now == s.now && s'.depths == s.depths && s'.open == s.open
    requires s'.requests == s.requests && s'.creator == s.creator && s'.sent == s.sent
    requires s'.runs == s.runs[r := s'.runs[r]]
    requires s'.runs[r].job == s.runs[r].job && s'.runs[r].tenant == s.runs[r].tenant
    requires var p := s'.runs[r].phase; !p.PastGlobal? && !p.Finished? && (p.SawTenant? ==> s.runs[r].phase.PastGlobal?)
    ensures Inv(s')
  {
    forall r' | r' in s'.runs ensures RunOk(s', r') { assert RunOk(s, r'); }
    InvRuns(s, s');
  }

  lemma InvDeliver(c: Config, s: State, r: RunId, j: JobId)
    requires Inv(s) && Enabled(c, s, Deliver(r, j))
    ensures Inv(Apply(c, s, Deliver(r, j)))
  {
    var s' := Apply(c, s, Deliver(r, j));
    forall r' | r' in s'.runs ensures RunOk(s', r') { assert r' in s.runs ==> RunOk(s, r'); }
    InvRuns(s, s');
  }

  lemma InvTick(c: Config, s: State, d: real)
    requires Inv(s) && Enabled(c, s, Tick(d))
    ensures Inv(Apply(c, s, Tick(d)))
  {
    var s' := Apply(c, s, Tick(d));
    forall q | q in s'.requests ensures ReqOk(s', q) { assert ReqOk(s, q); }
    forall j | j in s'.creator ensures JobOk(s', j) { assert JobOk(s, j); }
    forall r' | r' in s'.runs ensures RunOk(s', r') { assert RunOk(s, r'); }
    forall k ensures DepthOk(s', k) { assert DepthOk(s, k); }
  }

  lemma InvRequestStep(c: Config, s: State, e: Event, q: ReqId)
    requires Inv(s) && Enabled(c, s, e)
    requires e == CheckGlobal(q) || e == CheckTenant(q) || e == ExpireTenant(q) || e == Abort(q)
    ensures Inv(Apply(c, s, e))
  {
    var s' := Apply(c, s, e);
    assert ReqOk(s, q);
    match e
    case CheckGlobal(_) => InvGoto(s, s', q, if Count(s.depths, GlobalDepth, s.now) >= c.maxGlobal then Refused
        else PassedGlobal);
    case CheckTenant(_) => InvGoto(s, s', q,
        if Count(s.depths, TenantDepth(s.requests[q].tenant), s.now) >= c.maxTenant then Refused else PassedTenant);
    case ExpireTenant(_) => InvGoto(s, s', q, Refreshed(s.requests[q].phase.job));
    case Abort(_) => InvGoto(s, s', q, Aborted);
  }

  lemma InvFinally(c: Config, s: State, e: Event, r: RunId)
    requires Inv(s) && Enabled(c, s, e)
    requires e == ReadGlobal(r) || e == DecrGlobal(r) || e == ReadTenant(r) || e == DecrTenant(r)
    ensures Inv(Apply(c, s, e))
  {
    var s' := Apply(c, s, e);
    var k := TenantDepth(s.runs[r].tenant);
    assert RunOk(s, r);
    match e
    case ReadGlobal(_) =>
      if Count(s.depths, GlobalDepth, s.now) > 0 { InvMove(s, s', r); } else { InvDiscount(s, s', r, GlobalDepth); }
    case DecrGlobal(_) => InvDiscount(s, s', r, GlobalDepth);
    case ReadTenant(_) =>
      if Count(s.depths, k, s.now) > 0 { InvMove(s, s', r); } else { InvDiscount(s, s', r, k); }
    case DecrTenant(_) => InvDiscount(s, s', r, k);
  }

  lemma InvStep(c: Config, s: State, e: Event)
    requires Inv(s) && Enabled(c, s, e)
    ensures Inv(Apply(c, s, e))
  {
    match e
    case Arrive(q, t) => InvArrive(s, q, t);
    case CheckGlobal(q) => InvRequestStep(c, s, e, q);
    case CheckTenant(q) => InvRequestStep(c, s, e, q);
    case Create(q, j) => InvCreate(s, q, j);
    case IncrGlobal(q) => InvIncrGlobal(s, q);
    case IncrTenant(q) => InvIncrTenant(s, q);
    case ExpireTenant(q) => InvRequestStep(c, s, e, q);
    case Send(q) => InvSend(s, q);
    case Abort(q) => InvRequestStep(c, s, e, q);
    case Deliver(r, j) => InvDeliver(c, s, r, j);
    case Acquire(r) => InvMove(s, Apply(c, s, e), r);
    case Release(r) => InvMove(s, Apply(c, s, e), r);
    case ReadGlobal(r) => InvFinally(c, s, e, r);
    case DecrGlobal(r) => InvFinally(c, s, e, r);
    case ReadTenant(r) => InvFinally(c, s, e, r);
    case DecrTenant(r) => InvFinally(c, s, e, r);
    case Kill(r) => InvMove(s, Apply(c, s, e), r);
    case Tick(d) => InvTick(c, s, d);
  }

  lemma {:induction false} InvHolds(c: Config, es: seq<Event>)
    requires Exec(c, es).Some?
    ensures Inv(Exec(c, es).value)
  {
    if es != [] {
      InvHolds(c, es[..|es| - 1]);
      InvStep(c, Exec(c, es[..|es| - 1]).value, es[|es| - 1]);
    } else {
      assert forall k :: Open(Init(), k) == {};
    }
  }

  /** The job whose increment of `k` event `e` executes */
  function IncrementedBy(s: State, e: Event, k: DepthKey): set<JobId>
    requires forall q | e == IncrGlobal(q) :: q in s.requests && s.requests[q].phase.Created?
    requires forall q | e == IncrTenant(q) :: q in s.requests && s.requests[q].phase.CountedGlobal?
  {
    match e
    case IncrGlobal(q) => if k.GlobalDepth? then {s.requests[q].phase.job} else {}
    case IncrTenant(q) => if k == TenantDepth(s.requests[q].tenant) then {s.requests[q].phase.job} else {}
    case _ => {}
  }

  /** The jobs whose increment of `k` was executed along a run */
  ghost function Incremented(c: Config, es: seq<Event>, k: DepthKey): set<JobId>
    requires Exec(c, es).Some?
  {
    if es == [] then {}
    else
      var before, e := es[..|es| - 1], es[|es| - 1];
      Incremented(c, before, k) + IncrementedBy(Exec(c, before).value, e, k)
  }

  /** Those of which no execution has run to its end */
  ghost function Unfinished(c: Config, es: seq<Event>, k: DepthKey): set<JobId>
    requires Exec(c, es).Some?
  {
    set j | j in Incremented(c, es, k) && NotFinished(Exec(c, es).value, j)
  }

  ghost predicate NotFinished(s: State, j: JobId) {
    forall r | r in s.runs :: s.runs[r].job == j ==> !s.runs[r].phase.Finished?
  }

  lemma OpenGrows(c: Config, s: State, e: Event, k: DepthKey)
    requires Enabled(c, s, e)
    ensures Open(Apply(c, s, e), k) <= Open(s, k) + IncrementedBy(s, e, k)
  {
  }

  lemma {:induction false} OpenIsIncremented(c: Config, es: seq<Event>, k: DepthKey)
    requires Exec(c, es).Some?
    ensures Open(Exec(c, es).value, k) <= Incremented(c, es, k)
  {
    if es == [] {
    } else {
      OpenIsIncremented(c, es[..|es| - 1], k);
      OpenGrows(c, Exec(c, es[..|es| - 1]).value, es[|es| - 1], k);
    }
  }

  lemma IncrementedIsCreated(c: Config, s: State, e: Event, k: DepthKey, j: JobId)
    requires Inv(s) && Enabled(c, s, e) && j in IncrementedBy(s, e, k)
    ensures Counts(s, k, j)
  {
    assert ReqOk(s, e.q);
  }

  lemma CountsStays(c: Config, s: State, e: Event, k: DepthKey, j: JobId)
    requires Inv(s) && Enabled(c, s, e) && Counts(s, k, j)
    ensures Counts(Apply(c, s, e), k, j)
  {
    assert JobOk(s, j);
    RequestsStay(c, s, e);
  }

  lemma RequestsStay(c: Config, s: State, e: Event)
    requires Enabled(c, s, e)
    ensures forall q | q in s.requests ::
              q in Apply(c, s, e).requests && Apply(c, s, e).requests[q].tenant == s.requests[q].tenant
    ensures forall j | j in s.creator :: j in Apply(c, s, e).creator && Apply(c, s, e).creator[j] == s.creator[j]
  {
  }

  lemma {:induction false} IncrementedCounts(c: Config, es: seq<Event>, k: DepthKey, j: JobId)
    requires Exec(c, es).Some? && j in Incremented(c, es, k)
    ensures Counts(Exec(c, es).value, k, j)
  {
    var before, e := es[..|es| - 1], es[|es| - 1];
    InvHolds(c, before);
    if j in Incremented(c, before, k) {
      IncrementedCounts(c, before, k, j);
    } else {
      IncrementedIsCreated(c, Exec(c, before).value, e, k, j);
    }
    CountsStays(c, Exec(c, before).value, e, k, j);
  }

  /** In every run, with any crashes, retries, redeliveries and expiry, each depth counter is at most the
      number of jobs whose increment has executed and of which no execution has finished. */
  lemma {:induction false} NeverOverReports(c: Config, es: seq<Event>, k: DepthKey)
    requires Exec(c, es).Some?
    ensures Count(Exec(c, es).value.depths, k, Exec(c, es).value.now) <= |Unfinished(c, es, k)|
  {
    InvHolds(c, es);
    OpenIsIncremented(c, es, k);
    var s := Exec(c, es).value;
    assert DepthOk(s, k);
    forall j | j in Open(s, k) ensures j in Unfinished(c, es, k) { OpenIsNotFinished(s, k, j); }
    SubsetSize(Open(s, k), Unfinished(c, es, k));
  }

  lemma OpenIsNotFinished(s: State, k: DepthKey, j: JobId)
    requires Inv(s) && j in Open(s, k)
    ensures NotFinished(s, j)
  {
    assert DepthOk(s, k) && Counts(s, k, j) && JobOk(s, j);
    forall r | r in s.runs && s.runs[r].job == j ensures !s.runs[r].phase.Finished? { assert RunOk(s, r); }
  }

  /** A request is turned away only while at least as many jobs as the limit are counted and unfinished. */
  lemma {:induction false} RefusalIsNeverSpurious(c: Config, es: seq<Event>, q: ReqId, e: Event)
    requires Exec(c, es).Some? && Enabled(c, Exec(c, es).value, e)
    requires e == CheckGlobal(q) || e == CheckTenant(q)
    requires Apply(c, Exec(c, es).value, e).requests[q].phase.Refused?
    ensures e.CheckGlobal? ==> |Unfinished(c, es, GlobalDepth)| >= c.maxGlobal
    ensures e.CheckTenant? ==> |Unfinished(c, es, TenantDepth(Exec(c, es).value.requests[q].tenant))| >= c.maxTenant
  {
    var s := Exec(c, es).value;
    NeverOverReports(c, es, if e.CheckGlobal? then GlobalDepth else TenantDepth(s.requests[q].tenant));
  }
}
