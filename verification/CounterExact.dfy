/** Without repeated deliveries a depth counter is exact as long as its own key has not expired. */
module CounterExact {
  import opened RedisStore
  import opened QueueControl
  import opened Protocol
  import opened CounterSafety
  import AdmissionBounds

  /** No job was delivered twice: no retry, no redelivery. */
  ghost predicate SingleDelivery(s: State) {
    forall r1, r2 | r1 in s.runs && r2 in s.runs :: s.runs[r1].job == s.runs[r2].job ==> r1 == r2
  }

  ghost predicate ReqOpen(s: State, q: ReqId)
    requires q in s.requests
  {
    var p := s.requests[q].phase;
    && (p.CountedGlobal? || p.CountedTenant? || p.Refreshed? ==> p.job in Open(s, GlobalDepth))
    && (p.CountedTenant? || p.Refreshed? ==> p.job in Open(s, TenantDepth(s.requests[q].tenant)))
  }

  ghost predicate Undelivered(s: State, j: JobId) {
    forall r | r in s.runs :: s.runs[r].job != j
  }

  /** A job that was sent but not delivered yet is counted in both of its counters. */
  ghost predicate JobOpen(s: State, j: JobId)
    requires j in s.sent
  {
    Undelivered(s, j) ==> j in Open(s, GlobalDepth) && j in Open(s, TenantDepth(s.sent[j]))
  }

  predicate BeforeDiscount(p: RunPhase) {
    p.Delivered? || p.InBody? || p.Released? || p.SawGlobal? || p.Skipped?
  }

  ghost predicate RunOpen(s: State, r: RunId)
    requires r in s.runs
  {
    var x := s.runs[r];
    && (BeforeDiscount(x.phase) ==> x.job in Open(s, GlobalDepth))
    && (!x.phase.Finished? && !x.phase.Killed? ==> x.job in Open(s, TenantDepth(x.tenant)))
  }

  ghost predicate Exact(s: State, k: DepthKey) {
    k in s.lapsed || Count(s.depths, k, s.now) == |Open(s, k)|
  }

  ghost predicate ExactInv(s: State) {
    && (forall q {:trigger ReqOpen(s, q)} | q in s.requests :: ReqOpen(s, q))
    && (forall j {:trigger JobOpen(s, j)} | j in s.sent :: JobOpen(s, j))
    && (forall r {:trigger RunOpen(s, r)} | r in s.runs :: RunOpen(s, r))
    && (forall k {:trigger Exact(s, k)} :: Exact(s, k))
  }

  ghost predicate RunsGrow(s: State, s': State) {
    forall r | r in s.runs :: r in s'.runs && s'.runs[r].job == s.runs[r].job
  }

  lemma StillUndelivered(s: State, s': State, j: JobId)
    requires RunsGrow(s, s')
    ensures Undelivered(s', j) ==> Undelivered(s, j)
  {
    if Undelivered(s', j) {
      forall r | r in s.runs ensures s.runs[r].job != j { assert r in s'.runs; }
    }
  }

  lemma RunsOnlyGrow(c: Config, s: State, e: Event)
    requires Enabled(c, s, e)
    ensures RunsGrow(s, Apply(c, s, e))
  {
  }

  lemma SingleBefore(c: Config, s: State, e: Event)
    requires Enabled(c, s, e) && SingleDelivery(Apply(c, s, e))
    ensures SingleDelivery(s)
  {
    var s' := Apply(c, s, e);
    RunsOnlyGrow(c, s, e);
    forall r1, r2 | r1 in s.runs && r2 in s.runs && s.runs[r1].job == s.runs[r2].job ensures r1 == r2 {
      assert r1 in s'.runs && r2 in s'.runs && s'.runs[r1].job == s.runs[r1].job && s'.runs[r2].job == s.runs[r2].job;
    }
  }

  lemma ExactGoto(s: State, s': State, q: ReqId, p: ReqPhase)
    requires ExactInv(s) && q in s.requests
    requires s' == s.(requests := s'.requests, depths := s'.depths)
    requires s'.requests == s.requests[q := s.requests[q].(phase := p)]
    requires forall k :: Count(s'.depths, k, s.now) == Count(s.depths, k, s.now)
    requires ReqOpen(s', q)
    ensures ExactInv(s')
  {
    forall q' | q' in s'.requests ensures ReqOpen(s', q') { assert q' != q ==> ReqOpen(s, q'); }
    forall j | j in s'.sent ensures JobOpen(s', j) { assert JobOpen(s, j); }
    forall r | r in s'.runs ensures RunOpen(s', r) { assert RunOpen(s, r); }
    forall k ensures Exact(s', k) { assert Exact(s, k); }
  }

  lemma ExactArrive(s: State, q: ReqId, t: TenantId)
    requires ExactInv(s) && q !in s.requests
    ensures ExactInv(s.(requests := s.requests[q := Request(t, New)]))
  {
    var s' := s.(requests := s.requests[q := Request(t, New)]);
    forall q' | q' in s'.requests ensures ReqOpen(s', q') { assert q' != q ==> ReqOpen(s, q'); }
    forall j | j in s'.sent ensures JobOpen(s', j) { assert JobOpen(s, j); }
    forall r | r in s'.runs ensures RunOpen(s', r) { assert RunOpen(s, r); }
    forall k ensures Exact(s', k) { assert Exact(s, k); }
  }

  lemma ExactCreate(s: State, q: ReqId, j: JobId)
    requires ExactInv(s) && q in s.requests && s.requests[q].phase.PassedTenant?
    ensures ExactInv(OnCreate(s, q, j))
  {
    var s' := OnCreate(s, q, j);
    forall q' | q' in s'.requests ensures ReqOpen(s', q') { assert q' != q ==> ReqOpen(s, q'); }
    forall j | j in s'.sent ensures JobOpen(s', j) { assert JobOpen(s, j); }
    forall r | r in s'.runs ensures RunOpen(s', r) { assert RunOpen(s, r); }
    forall k ensures Exact(s', k) { assert Exact(s, k); }
  }

  lemma ExactIncrGlobal(s: State, q: ReqId)
    requires Inv(s) && ExactInv(s) && q in s.requests && s.requests[q].phase.Created?
    ensures ExactInv(OnIncrGlobal(s, q))
  {
    var s' := OnIncrGlobal(s, q);
    assert ReqOk(s, q);
    forall q' | q' in s'.requests ensures ReqOpen(s', q') { assert ReqOpen(s, q'); }
    forall j | j in s'.sent ensures JobOpen(s', j) { assert JobOpen(s, j); }
    forall r | r in s'.runs ensures RunOpen(s', r) { assert RunOpen(s, r); }
    forall k ensures Exact(s', k) { assert Exact(s, k); }
  }

  lemma ExactIncrTenant(s: State, q: ReqId)
    requires Inv(s) && ExactInv(s) && q in s.requests && s.requests[q].phase.CountedGlobal?
    ensures ExactInv(OnIncrTenant(s, q))
  {
    var s' := OnIncrTenant(s, q);
    assert ReqOk(s, q);
    forall q' | q' in s'.requests ensures ReqOpen(s', q') { assert ReqOpen(s, q'); }
    forall j | j in s'.sent ensures JobOpen(s', j) { assert JobOpen(s, j); }
    forall r | r in s'.runs ensures RunOpen(s', r) { assert RunOpen(s, r); }
    forall k ensures Exact(s', k) { assert Exact(s, k); }
  }

  lemma ExactSend(s: State, q: ReqId)
    requires Inv(s) && ExactInv(s) && q in s.requests && s.requests[q].phase.Refreshed?
    ensures ExactInv(OnSend(s, q))
  {
    var s' := OnSend(s, q);
    assert ReqOk(s, q) && ReqOpen(s, q);
    forall q' | q' in s'.requests ensures ReqOpen(s', q') { assert ReqOpen(s, q'); }
    forall j | j in s'.sent ensures JobOpen(s', j) { assert j in s.sent ==> JobOpen(s, j); }
    forall r | r in s'.runs ensures RunOpen(s', r) { assert RunOpen(s, r); }
    forall k ensures Exact(s', k) { assert Exact(s, k); }
  }

  /** Discounting a job from counter `k`: no other execution and no request still needs it there. */
  lemma ExactDiscount(s: State, s': State, r: RunId, k: DepthKey)
    requires Inv(s) && ExactInv(s) && SingleDelivery(s) && r in s.runs && r in s'.runs
    requires s' == s.(runs := s'.runs, depths := s'.depths, open := s'.open)
    requires s'.runs == s.runs[r := s.runs[r].(phase := s'.runs[r].phase)]
    requires s'.open == s.open[k := Open(s, k) - {s.runs[r].job}]
    requires s.runs[r].job in Open(s, k)
    requires forall k' | k' != k :: Count(s'.depths, k', s.now) == Count(s.depths, k', s.now)
    requires k in s.lapsed || Count(s'.depths, k, s.now) == Count(s.depths, k, s.now) - 1
    requires RunOpen(s', r)
    ensures ExactInv(s')
  {
    assert RunOk(s, r) && JobOk(s, s.runs[r].job);
    forall q | q in s'.requests ensures ReqOpen(s', q) { assert ReqOk(s, q) && ReqOpen(s, q); }
    forall j | j in s'.sent ensures JobOpen(s', j) {
      assert JobOpen(s, j);
      StillUndelivered(s, s', j);
    }
    forall r' | r' in s'.runs ensures RunOpen(s', r') { assert RunOpen(s, r'); }
    forall k' ensures Exact(s', k') { assert Exact(s, k'); }
  }

  lemma ExactMove(s: State, s': State, r: RunId)
    requires ExactInv(s) && r in s.runs && r in s'.runs
    requires s'.now == s.now && s'.depths == s.depths && s'.open == s.open && s'.lapsed == s.lapsed
    requires s'.requests == s.requests && s'.sent == s.sent
    requires s'.runs == s.runs[r := s'.runs[r]]
    requires s'.runs[r].job == s.runs[r].job
    requires RunOpen(s', r)
    ensures ExactInv(s')
  {
    forall q | q in s'.requests ensures ReqOpen(s', q) { assert ReqOpen(s, q); }
    forall j | j in s'.sent ensures JobOpen(s', j) { assert JobOpen(s, j); StillUndelivered(s, s', j); }
    forall r' | r' in s'.runs ensures RunOpen(s', r') { assert RunOpen(s, r'); }
    forall k ensures Exact(s', k) { assert Exact(s, k); }
  }

  lemma ExactDeliver(c: Config, s: State, r: RunId, j: JobId)
    requires Inv(s) && ExactInv(s) && Enabled(c, s, Deliver(r, j)) && SingleDelivery(Apply(c, s, Deliver(r, j)))
    ensures ExactInv(Apply(c, s, Deliver(r, j)))
  {
    var s' := Apply(c, s, Deliver(r, j));
    forall r' | r' in s.runs ensures s.runs[r'].job != j { assert r' in s'.runs && r in s'.runs; }
    assert JobOpen(s, j);
    forall q | q in s'.requests ensures ReqOpen(s', q) { assert ReqOpen(s, q); }
    forall i | i in s'.sent ensures JobOpen(s', i) {
      assert JobOpen(s, i);
      StillUndelivered(s, s', i);
      assert s'.runs[r].job == j;
    }
    forall r' | r' in s'.runs ensures RunOpen(s', r') { assert r' in s.runs ==> RunOpen(s, r'); }
    forall k ensures Exact(s', k) { assert Exact(s, k); }
  }

  lemma ExactTick(c: Config, s: State, d: real)
    requires ExactInv(s) && Enabled(c, s, Tick(d))
    ensures ExactInv(Apply(c, s, Tick(d)))
  {
    var s' := Apply(c, s, Tick(d));
    forall q | q in s'.requests ensures ReqOpen(s', q) { assert ReqOpen(s, q); }
    forall j | j in s'.sent ensures JobOpen(s', j) { assert JobOpen(s, j); }
    forall r | r in s'.runs ensures RunOpen(s', r) { assert RunOpen(s, r); }
    forall k ensures Exact(s', k) { assert Exact(s, k); }
  }

  lemma ExactRequestStep(c: Config, s: State, e: Event, q: ReqId)
    requires ExactInv(s) && Enabled(c, s, e)
    requires e == CheckGlobal(q) || e == CheckTenant(q) || e == ExpireTenant(q) || e == Abort(q)
    ensures ExactInv(Apply(c, s, e))
  {
    var s' := Apply(c, s, e);
    assert ReqOpen(s, q);
    match e
    case CheckGlobal(_) => ExactGoto(s, s', q, if Count(s.depths, GlobalDepth, s.now) >= c.maxGlobal then Refused
        else PassedGlobal);
    case CheckTenant(_) => ExactGoto(s, s', q,
        if Count(s.depths, TenantDepth(s.requests[q].tenant), s.now) >= c.maxTenant then Refused else PassedTenant);
    case ExpireTenant(_) => ExactGoto(s, s', q, Refreshed(s.requests[q].phase.job));
    case Abort(_) => ExactGoto(s, s', q, Aborted);
  }

  /** An execution that reads zero discounts its job without decrementing; a counter that has not
      expired does not read zero here. */
  lemma ExactRead(c: Config, s: State, e: Event, r: RunId, k: DepthKey)
    requires Inv(s) && ExactInv(s) && SingleDelivery(s) && Enabled(c, s, e)
    requires (e == ReadGlobal(r) && k == GlobalDepth) || (e == ReadTenant(r) && k == TenantDepth(s.runs[r].tenant))
    ensures ExactInv(Apply(c, s, e))
  {
    var s' := Apply(c, s, e);
    assert RunOpen(s, r) && s.runs[r].job in Open(s, k);
    if Count(s.depths, k, s.now) > 0 {
      ExactMove(s, s', r);
    } else {
      assert Exact(s, k) && |Open(s, k)| > 0;
      ExactDiscount(s, s', r, k);
    }
  }

  lemma ExactDecr(c: Config, s: State, e: Event, r: RunId, k: DepthKey)
    requires Inv(s) && ExactInv(s) && SingleDelivery(s) && Enabled(c, s, e)
    requires (e == DecrGlobal(r) && k == GlobalDepth) || (e == DecrTenant(r) && k == TenantDepth(s.runs[r].tenant))
    ensures ExactInv(Apply(c, s, e))
  {
    assert RunOpen(s, r);
    ExactDiscount(s, Apply(c, s, e), r, k);
  }

  lemma ExactRequest(c: Config, s: State, e: Event)
    requires Inv(s) && ExactInv(s) && Enabled(c, s, e)
    requires e.Arrive? || e.CheckGlobal? || e.CheckTenant? || e.Create? || e.IncrGlobal? || e.IncrTenant? ||
        e.ExpireTenant? || e.Send? || e.Abort?
    ensures ExactInv(Apply(c, s, e))
  {
    match e
    case Arrive(q, t) => ExactArrive(s, q, t);
    case Create(q, j) => ExactCreate(s, q, j);
    case IncrGlobal(q) => ExactIncrGlobal(s, q);
    case IncrTenant(q) => ExactIncrTenant(s, q);
    case Send(q) => ExactSend(s, q);
    case CheckGlobal(q) => ExactRequestStep(c, s, e, q);
    case CheckTenant(q) => ExactRequestStep(c, s, e, q);
    case ExpireTenant(q) => ExactRequestStep(c, s, e, q);
    case Abort(q) => ExactRequestStep(c, s, e, q);
  }

  lemma ExactLock(c: Config, s: State, e: Event, r: RunId)
    requires ExactInv(s) && Enabled(c, s, e) && (e == Acquire(r) || e == Release(r) || e == Kill(r))
    ensures ExactInv(Apply(c, s, e))
  {
    assert RunOpen(s, r);
    ExactMove(s, Apply(c, s, e), r);
  }

  lemma ExactStep(c: Config, s: State, e: Event)
    requires Inv(s) && ExactInv(s) && Enabled(c, s, e) && SingleDelivery(s) && SingleDelivery(Apply(c, s, e))
    ensures ExactInv(Apply(c, s, e))
  {
    match e
    case Deliver(r, j) => ExactDeliver(c, s, r, j);
    case Acquire(r) => ExactLock(c, s, e, r);
    case Release(r) => ExactLock(c, s, e, r);
    case ReadGlobal(r) => ExactRead(c, s, e, r, GlobalDepth);
    case DecrGlobal(r) => ExactDecr(c, s, e, r, GlobalDepth);
    case ReadTenant(r) => ExactRead(c, s, e, r, TenantDepth(s.runs[r].tenant));
    case DecrTenant(r) => ExactDecr(c, s, e, r, TenantDepth(s.runs[r].tenant));
    case Kill(r) => ExactLock(c, s, e, r);
    case Tick(d) => ExactTick(c, s, d);
    case _ => ExactRequest(c, s, e);
  }

  lemma {:induction false} ExactHolds(c: Config, es: seq<Event>)
    requires Exec(c, es).Some? && SingleDelivery(Exec(c, es).value)
    ensures ExactInv(Exec(c, es).value)
  {
    if es != [] {
      var s := Exec(c, es[..|es| - 1]).value;
      SingleBefore(c, s, es[|es| - 1]);
      ExactHolds(c, es[..|es| - 1]);
      InvHolds(c, es[..|es| - 1]);
      ExactStep(c, s, es[|es| - 1]);
    } else {
      assert forall k :: Open(Init(), k) == {};
    }
  }

  /** No request is between its admission and its message, no execution is inside its `finally`
      block, and no request or execution was lost. */
  ghost predicate Quiet(s: State) {
    && (forall q | q in s.requests :: Settled(s.requests[q].phase))
    && (forall r | r in s.runs :: Resting(s.runs[r].phase))
  }

  predicate Settled(p: ReqPhase) {
    p.New? || p.PassedGlobal? || p.PassedTenant? || p.Accepted? || p.Refused?
  }

  predicate Resting(p: RunPhase) {
    p.Delivered? || p.InBody? || p.Skipped? || p.Finished?
  }

  /** If no job is delivered twice, a counter whose key has never expired is, at every command, exactly
      the number of jobs whose increment has executed while their decrement has not, crashes included;
      whenever nothing is lost or half-way these are the unfinished jobs.  The global counter has no
      expiry. */
  lemma {:induction false} ExactCount(c: Config, es: seq<Event>, k: DepthKey)
    requires Exec(c, es).Some? && SingleDelivery(Exec(c, es).value)
    requires k.GlobalDepth? || k !in Exec(c, es).value.lapsed
    ensures Count(Exec(c, es).value.depths, k, Exec(c, es).value.now) == |Open(Exec(c, es).value, k)|
    ensures Quiet(Exec(c, es).value) ==> Open(Exec(c, es).value, k) == Unfinished(c, es, k)
  {
    var s := Exec(c, es).value;
    ExactHolds(c, es);
    GlobalNeverLapses(c, es);
    assert Exact(s, k);
    if Quiet(s) { QuietIsUnfinished(c, es, k); }
  }

  lemma {:induction false} GlobalNeverLapses(c: Config, es: seq<Event>)
    requires Exec(c, es).Some?
    ensures GlobalDepth !in Exec(c, es).value.lapsed
  {
    if es == [] {
    } else {
      GlobalNeverLapses(c, es[..|es| - 1]);
      AdmissionBounds.GlobalNeverExpires(c, es[..|es| - 1]);
      LapseStep(c, Exec(c, es[..|es| - 1]).value, es[|es| - 1]);
    }
  }

  lemma LapseStep(c: Config, s: State, e: Event)
    requires Enabled(c, s, e) && GlobalDepth !in s.lapsed
    requires GlobalDepth in s.depths ==> s.depths[GlobalDepth].expiry.None?
    ensures GlobalDepth !in Apply(c, s, e).lapsed
  {
  }

  lemma {:induction false} QuietIsUnfinished(c: Config, es: seq<Event>, k: DepthKey)
    requires Exec(c, es).Some? && ExactInv(Exec(c, es).value) && Quiet(Exec(c, es).value)
    ensures Open(Exec(c, es).value, k) == Unfinished(c, es, k)
  {
    var s := Exec(c, es).value;
    InvHolds(c, es);
    OpenIsIncremented(c, es, k);
    forall j ensures j in Open(s, k) <==> j in Unfinished(c, es, k) {
      if j in Open(s, k) {
        OpenIsNotFinished(s, k, j);
      } else if j in Unfinished(c, es, k) {
        IncrementedCounts(c, es, k, j);
        UnfinishedIsOpen(s, k, j);
      }
    }
  }

  lemma UnfinishedIsOpen(s: State, k: DepthKey, j: JobId)
    requires Inv(s) && ExactInv(s) && Quiet(s) && Counts(s, k, j) && NotFinished(s, j)
    ensures j in Open(s, k)
  {
    assert JobOk(s, j);
    assert JobOpen(s, j);
    if r :| r in s.runs && s.runs[r].job == j {
      assert RunOpen(s, r) && RunOk(s, r);
    }
  }
}
