/** The global depth has no expiry: a job that was counted and then lost with its request or its worker
    keeps its place in the queue for ever. */
module LostSlots {
  import opened RedisStore
  import opened QueueControl
  import opened Protocol
  import opened Sets
  import opened CounterSafety
  import opened CounterExact

  /** The request that created the job died, or an execution of it was killed. */
  ghost predicate Abandoned(s: State, j: JobId) {
    || (j in s.creator && s.creator[j] in s.requests && s.requests[s.creator[j]].phase.Aborted?)
    || (exists r :: r in s.runs && s.runs[r].job == j && s.runs[r].phase.Killed?)
  }

  /** The abandoned jobs whose increment has executed while their decrement has not */
  ghost function Lost(s: State): set<JobId> {
    set j | j in Open(s, GlobalDepth) && Abandoned(s, j)
  }

  /** No event but an execution's own takes a job out of the global counter. */
  lemma OpenStays(c: Config, s: State, e: Event, j: JobId)
    requires Enabled(c, s, e) && j in Open(s, GlobalDepth)
    requires forall r | e == ReadGlobal(r) || e == DecrGlobal(r) :: s.runs[r].job != j
    ensures j in Open(Apply(c, s, e), GlobalDepth)
  {
  }

  lemma {:induction false} AbandonedStays(c: Config, s: State, e: Event, j: JobId)
    requires Enabled(c, s, e) && Abandoned(s, j)
    ensures Abandoned(Apply(c, s, e), j)
  {
    if r :| r in s.runs && s.runs[r].job == j && s.runs[r].phase.Killed? {
      KilledStays(c, s, e, r);
    } else {
      AbortedStays(c, s, e, j);
    }
  }

  lemma KilledStays(c: Config, s: State, e: Event, r: RunId)
    requires Enabled(c, s, e) && r in s.runs && s.runs[r].phase.Killed?
    ensures r in Apply(c, s, e).runs && Apply(c, s, e).runs[r] == s.runs[r]
  {
  }

  lemma AbortedStays(c: Config, s: State, e: Event, j: JobId)
    requires Enabled(c, s, e) && j in s.creator && s.creator[j] in s.requests && s.requests[s.creator[j]].phase.Aborted?
    ensures j in Apply(c, s, e).creator && Apply(c, s, e).creator[j] == s.creator[j]
    ensures s.creator[j] in Apply(c, s, e).requests && Apply(c, s, e).requests[s.creator[j]].phase.Aborted?
  {
  }

  lemma {:induction false} LostStep(c: Config, s: State, e: Event, j: JobId)
    requires Inv(s) && Enabled(c, s, e) && SingleDelivery(Apply(c, s, e)) && j in Lost(s)
    ensures j in Lost(Apply(c, s, e))
  {
    AbandonedStays(c, s, e, j);
    SingleBefore(c, s, e);
    forall r | e == ReadGlobal(r) || e == DecrGlobal(r) ensures s.runs[r].job != j { LostHasNoExecution(s, r, j); }
    OpenStays(c, s, e, j);
  }

  lemma LostHasNoExecution(s: State, r: RunId, j: JobId)
    requires Inv(s) && SingleDelivery(s) && j in Lost(s) && r in s.runs && s.runs[r].Active()
    ensures s.runs[r].job != j
  {
    assert RunOk(s, r) && DepthOk(s, GlobalDepth) && Counts(s, GlobalDepth, j) && JobOk(s, j);
  }

  /** As long as no job is delivered twice, a lost job stays lost, and the global depth stays at least the
      number of lost jobs. */
  lemma {:induction false} LostNeverReturns(c: Config, es: seq<Event>, more: seq<Event>)
    requires Exec(c, es).Some? && Exec(c, es + more).Some? && SingleDelivery(Exec(c, es + more).value)
    ensures Lost(Exec(c, es).value) <= Lost(Exec(c, es + more).value)
    ensures Count(Exec(c, es + more).value.depths, GlobalDepth,
        Exec(c, es + more).value.now) >= |Lost(Exec(c, es).value)|
    decreases |more|
  {
    var whole := es + more;
    if more == [] {
      assert whole == es;
    } else {
      var before, e := whole[..|whole| - 1], whole[|whole| - 1];
      assert before == es + more[..|more| - 1];
      var s := Exec(c, before).value;
      SingleBefore(c, s, e);
      LostNeverReturns(c, es, more[..|more| - 1]);
      InvHolds(c, before);
      forall j | j in Lost(s) ensures j in Lost(Apply(c, s, e)) { LostStep(c, s, e, j); }
    }
    ExactCount(c, whole, GlobalDepth);
    SubsetSize(Lost(Exec(c, es).value), Open(Exec(c, whole).value, GlobalDepth));
  }

  /** Once as many jobs are lost as the queue holds, every later request is refused. */
  lemma {:induction false} EveryRequestRefused(c: Config, es: seq<Event>, more: seq<Event>, q: ReqId)
    requires Exec(c, es).Some? && Exec(c, es + more).Some? && SingleDelivery(Exec(c, es + more).value)
    requires |Lost(Exec(c, es).value)| >= c.maxGlobal && Enabled(c, Exec(c, es + more).value, CheckGlobal(q))
    ensures Apply(c, Exec(c, es + more).value, CheckGlobal(q)).requests[q].phase.Refused?
  {
    LostNeverReturns(c, es, more);
  }

  /** Nothing is left to do: every request has been answered or has died, every message was delivered, and
      every execution has finished or was killed. */
  ghost predicate Idle(s: State) {
    && (forall q | q in s.requests :: Settled(s.requests[q].phase) || s.requests[q].phase.Aborted?)
    && (forall r | r in s.runs :: s.runs[r].phase.Finished? || s.runs[r].phase.Killed?)
    && (forall j | j in s.sent :: !Undelivered(s, j))
  }

  /** What the counter has drifted to when nothing is left to do is exactly the number of lost jobs. */
  lemma {:induction false} DriftIsLost(c: Config, es: seq<Event>)
    requires Exec(c, es).Some? && SingleDelivery(Exec(c, es).value) && Idle(Exec(c, es).value)
    ensures Count(Exec(c, es).value.depths, GlobalDepth, Exec(c, es).value.now) == |Lost(Exec(c, es).value)|
  {
    var s := Exec(c, es).value;
    InvHolds(c, es);
    ExactCount(c, es, GlobalDepth);
    forall j | j in Open(s, GlobalDepth) ensures Abandoned(s, j) { OpenIsAbandoned(s, j); }
    assert Open(s, GlobalDepth) == Lost(s);
  }

  lemma {:induction false} OpenIsAbandoned(s: State, j: JobId)
    requires CounterSafety.Inv(s) && Idle(s) && j in Open(s, GlobalDepth)
    ensures Abandoned(s, j)
  {
    assert DepthOk(s, GlobalDepth) && Counts(s, GlobalDepth, j) && JobOk(s, j);
    if j in s.sent {
      var r :| r in s.runs && s.runs[r].job == j;
      assert RunOk(s, r);
    }
  }

  // ---- A run that fills the queue with lost jobs ----

  lemma ReachableOn(c: Config, s: State, e: Event)
    requires Reachable(c, s) && Enabled(c, s, e)
    ensures Reachable(c, Apply(c, s, e))
  {
    var es :| Exec(c, es) == Some(s);
    Extend(c, es, s, e);
  }

  /** The first `m` requests, each of a tenant of its own, were accepted; the only execution of each job
      was killed. */
  ghost predicate Stage(s: State, m: nat) {
    && s.now == 0.0 && (forall q :: q in s.requests <==> 0 <= q < m) && (forall r :: r in s.runs <==> 0 <= r < m)
    && (forall r | 0 <= r < m :: s.runs[r].job == r && s.runs[r].phase.Killed?)
    && (forall q | m <= q :: q !in s.creator && q !in s.locks && TenantDepth(q) !in s.depths)
    && (forall j :: j in Open(s, GlobalDepth) <==> 0 <= j < m)
    && Count(s.depths, GlobalDepth, 0.0) == m
  }

  function Admitted(s: State, q: ReqId): State {
    OnCreate(s.(requests := s.requests[q := Request(q, PassedTenant)]), q, q)
  }

  function Sent(s: State, q: ReqId): State
    requires q in s.requests && s.requests[q].phase.Created?
  {
    OnSend(OnExpireTenant(OnIncrTenant(OnIncrGlobal(s, q), q), q), q)
  }

  function Died(c: Config, s: State, q: ReqId): State
    requires q in s.sent
  {
    Move(OnAcquire(c, s.(runs := s.runs[q := Run(q, s.sent[q], Delivered, s.now, s.now)]), q), q, Killed)
  }

  lemma {:induction false} ChecksReach(c: Config, s: State, q: ReqId, passed: State)
    requires Reachable(c, s) && q !in s.requests && TenantDepth(q) !in s.depths
    requires Count(s.depths, GlobalDepth, s.now) < c.maxGlobal && 0 < c.maxTenant
    requires passed == s.(requests := s.requests[q := Request(q, PassedGlobal)])
    ensures Reachable(c, passed)
  {
    ReachableOn(c, s, Arrive(q, q));
    var arrived := s.(requests := s.requests[q := Request(q, New)]);
    ReachableOn(c, arrived, CheckGlobal(q));
    assert Apply(c, arrived, CheckGlobal(q)).requests == passed.requests;
  }

  lemma {:induction false} AdmitReaches(c: Config, s: State, q: ReqId)
    requires Reachable(c, s) && q !in s.requests && q !in s.creator && TenantDepth(q) !in s.depths
    requires Count(s.depths, GlobalDepth, s.now) < c.maxGlobal && 0 < c.maxTenant
    ensures Reachable(c, Admitted(s, q))
  {
    var once := s.(requests := s.requests[q := Request(q, PassedGlobal)]);
    ChecksReach(c, s, q, once);
    ReachableOn(c, once, CheckTenant(q));
    var twice := s.(requests := s.requests[q := Request(q, PassedTenant)]);
    assert Apply(c, once, CheckTenant(q)).requests == twice.requests;
    ReachableOn(c, twice, Create(q, q));
  }

  lemma {:induction false} SendReaches(c: Config, s: State, q: ReqId)
    requires Reachable(c, s) && q in s.requests && s.requests[q].phase.Created?
    ensures Reachable(c, Sent(s, q))
  {
    ReachableOn(c, s, IncrGlobal(q));
    var s1 := OnIncrGlobal(s, q);
    ReachableOn(c, s1, IncrTenant(q));
    var s2 := OnIncrTenant(s1, q);
    ReachableOn(c, s2, ExpireTenant(q));
    ReachableOn(c, OnExpireTenant(s2, q), Send(q));
  }

  lemma {:induction false} DieReaches(c: Config, s: State, q: ReqId)
    requires Reachable(c, s) && q in s.sent && q !in s.runs && q !in s.locks
    ensures Reachable(c, Died(c, s, q))
  {
    ReachableOn(c, s, Deliver(q, q));
    var s1 := s.(runs := s.runs[q := Run(q, s.sent[q], Delivered, s.now, s.now)]);
    ReachableOn(c, s1, Acquire(q));
    ReachableOn(c, OnAcquire(c, s1, q), Kill(q));
  }

  lemma CountedFields(c: Config, s: State, m: nat, t: State)
    requires Stage(s, m) && t == Died(c, Sent(Admitted(s, m), m), m)
    ensures Open(t, GlobalDepth) == Open(s, GlobalDepth) + {m}
    ensures t.now == 0.0 && Count(t.depths, GlobalDepth, 0.0) == m + 1
    ensures forall k | k in t.depths :: k in s.depths || k == GlobalDepth || k == TenantDepth(m)
  {
  }

  lemma RunFields(c: Config, s: State, m: nat, t: State)
    requires Stage(s, m) && t == Died(c, Sent(Admitted(s, m), m), m)
    ensures t.runs == s.runs[m := Run(m, m, Killed, 0.0, 0.0)]
    ensures t.requests == s.requests[m := Request(m, Accepted(m))]
    ensures t.creator == s.creator[m := m] && t.locks.Keys == s.locks.Keys + {m}
  {
  }

  lemma {:induction false} StageExtends(s: State, m: nat, t: State)
    requires Stage(s, m) && t.now == 0.0 && Count(t.depths, GlobalDepth, 0.0) == m + 1
    requires Open(t, GlobalDepth) == Open(s, GlobalDepth) + {m}
    requires forall k | k in t.depths :: k in s.depths || k == GlobalDepth || k == TenantDepth(m)
    requires t.runs == s.runs[m := Run(m, m, Killed, 0.0, 0.0)]
    requires t.requests == s.requests[m := Request(m, Accepted(m))]
    requires t.creator == s.creator[m := m] && t.locks.Keys == s.locks.Keys + {m}
    ensures Stage(t, m + 1)
  {
    forall j ensures j in Open(t, GlobalDepth) <==> 0 <= j < m + 1 { assert j in Open(s, GlobalDepth) <==> 0 <= j < m; }
  }

  lemma {:induction false} StageGrows(c: Config, s: State, m: nat)
    requires Stage(s, m)
    ensures Stage(Died(c, Sent(Admitted(s, m), m), m), m + 1)
  {
    var t := Died(c, Sent(Admitted(s, m), m), m);
    CountedFields(c, s, m, t);
    RunFields(c, s, m, t);
    StageExtends(s, m, t);
  }

  /** A run after which every request is refused for ever, though no execution is left. */
  lemma {:induction false} QueueCanFillWithLost(c: Config)
    requires 0 <= c.maxGlobal && 0 < c.maxTenant
    ensures exists es ::
        Exec(c, es).Some? && SingleDelivery(Exec(c, es).value) && |Lost(Exec(c, es).value)| == c.maxGlobal
  {
    var s, m := Init(), 0;
    assert Exec(c, []) == Some(s);
    while m < c.maxGlobal
      invariant m <= c.maxGlobal && Reachable(c, s) && Stage(s, m)
    {
      AdmitReaches(c, s, m);
      SendReaches(c, Admitted(s, m), m);
      DieReaches(c, Sent(Admitted(s, m), m), m);
      StageGrows(c, s, m);
      s := Died(c, Sent(Admitted(s, m), m), m);
      m := m + 1;
    }
    forall j | 0 <= j < m ensures Abandoned(s, j) { assert j in s.runs; }
    Interval(Lost(s), 0, m);
    var es :| Exec(c, es) == Some(s);
  }
}
