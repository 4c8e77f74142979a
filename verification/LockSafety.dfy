/** Mutual exclusion and progress of the per-job lock, over every interleaving of deliveries,
    redeliveries, retries, kills and delays. */
module LockSafety {
  import opened RedisStore
  import opened QueueControl
  import opened Protocol

  /** At most one execution is inside the body of a given job. */
  ghost predicate Exclusive(s: State) {
    forall r1, r2 | r1 in s.runs && r2 in s.runs ::
      s.runs[r1].phase.InBody? && s.runs[r2].phase.InBody? && s.runs[r1].job == s.runs[r2].job ==> r1 == r2
  }

  /** The entry of job `j` is the one execution `r` stored. */
  ghost predicate SetBy(c: Config, s: State, j: JobId, r: RunId) {
    && j in s.locks && j in s.holder && s.holder[j] == r
    && r in s.runs && s.runs[r].job == j
    && s.locks[j].expiry == Some(s.runs[r].acquired + c.lockTtl)
  }

  ghost predicate RunOk(c: Config, s: State, r: RunId)
    requires r in s.runs
  {
    && s.runs[r].start <= s.runs[r].acquired <= s.now
    && (s.runs[r].Active() ==> s.now <= s.runs[r].start + c.hardLimit)
    && (s.runs[r].phase.InBody? ==> SetBy(c, s, s.runs[r].job, r))
  }

  /** A stored entry belongs to an execution that is inside the body or was killed there. */
  ghost predicate LockOk(c: Config, s: State, j: JobId)
    requires j in s.locks
  {
    && j in s.holder && SetBy(c, s, j, s.holder[j])
    && (s.runs[s.holder[j]].phase.InBody? || s.runs[s.holder[j]].phase.Killed?)
  }

  ghost predicate Inv(c: Config, s: State) {
    && (forall r {:trigger RunOk(c, s, r)} | r in s.runs :: RunOk(c, s, r))
    && (forall j {:trigger LockOk(c, s, j)} | j in s.locks :: LockOk(c, s, j))
  }

  /** While the hard limit is below the lock's life, the holder's entry cannot expire under it. */
  lemma HolderIsLive(c: Config, s: State, r: RunId)
    requires c.hardLimit < c.lockTtl
    requires Inv(c, s) && r in s.runs && s.runs[r].phase.InBody?
    ensures SetBy(c, s, s.runs[r].job, r) && Live(s.locks, s.runs[r].job, s.now)
  {
    assert RunOk(c, s, r);
  }

  lemma InvAcquire(c: Config, s: State, r: RunId)
    requires 0.0 <= c.hardLimit < c.lockTtl
    requires Inv(c, s) && r in s.runs && s.runs[r].phase.Delivered? && !Live(s.locks, s.runs[r].job, s.now)
    ensures Inv(c, OnAcquire(c, s, r))
  {
    var s' := OnAcquire(c, s, r);
    assert RunOk(c, s, r);
    forall r' | r' in s'.runs ensures RunOk(c, s', r') {
      assert RunOk(c, s, r');
      if s.runs[r'].phase.InBody? { HolderIsLive(c, s, r'); }
    }
    forall j | j in s'.locks ensures LockOk(c, s', j) {
      if j != s.runs[r].job { assert LockOk(c, s, j); }
    }
  }

  lemma InvRelease(c: Config, s: State, r: RunId)
    requires 0.0 <= c.hardLimit < c.lockTtl
    requires Inv(c, s) && r in s.runs && s.runs[r].phase.InBody?
    ensures Inv(c, OnRelease(s, r))
  {
    var s' := OnRelease(s, r);
    assert RunOk(c, s, r);
    forall r' | r' in s'.runs ensures RunOk(c, s', r') {
      assert RunOk(c, s, r');
    }
    forall j | j in s'.locks ensures LockOk(c, s', j) {
      assert LockOk(c, s, j);
    }
  }

  /** Moving one execution neither into nor out of the body, except by killing it, and leaving the
      lock family alone keeps the invariant. */
  lemma InvMove(c: Config, s: State, s': State, r: RunId, p: RunPhase)
    requires Inv(c, s) && r in s.runs && s.runs[r].Active()
    requires s'.locks == s.locks && s'.holder == s.holder && s'.now == s.now
    requires s'.runs == s.runs[r := s.runs[r].(phase := p)]
    requires !p.InBody? && (s.runs[r].phase.InBody? ==> p.Killed?)
    ensures Inv(c, s')
  {
    forall r' | r' in s'.runs ensures RunOk(c, s', r') {
      assert RunOk(c, s, r');
    }
    forall j | j in s'.locks ensures LockOk(c, s', j) {
      assert LockOk(c, s, j);
    }
  }

  lemma InvSame(c: Config, s: State, s': State)
    requires Inv(c, s)
    requires s'.locks == s.locks && s'.holder == s.holder && s'.now == s.now && s'.runs == s.runs
    ensures Inv(c, s')
  {
    forall r | r in s'.runs ensures RunOk(c, s', r) {
      assert RunOk(c, s, r);
    }
    forall j | j in s'.locks ensures LockOk(c, s', j) {
      assert LockOk(c, s, j);
    }
  }

  lemma InvDeliver(c: Config, s: State, r: RunId, j: JobId)
    requires 0.0 <= c.hardLimit
    requires Inv(c, s) && Enabled(c, s, Deliver(r, j))
    ensures Inv(c, Apply(c, s, Deliver(r, j)))
  {
    var s' := Apply(c, s, Deliver(r, j));
    forall r' | r' in s'.runs ensures RunOk(c, s', r') {
      assert r' in s.runs ==> RunOk(c, s, r');
    }
    forall j | j in s'.locks ensures LockOk(c, s', j) {
      assert LockOk(c, s, j);
    }
  }

  lemma InvTick(c: Config, s: State, d: real)
    requires Inv(c, s) && Enabled(c, s, Tick(d))
    ensures Inv(c, Apply(c, s, Tick(d)))
  {
    var s' := Apply(c, s, Tick(d));
    forall r | r in s'.runs ensures RunOk(c, s', r) {
      assert RunOk(c, s, r);
    }
    forall j | j in s'.locks ensures LockOk(c, s', j) {
      assert LockOk(c, s, j);
    }
  }

  lemma InvRunStep(c: Config, s: State, e: Event, r: RunId)
    requires 0.0 <= c.hardLimit < c.lockTtl
    requires Inv(c, s) && Enabled(c, s, e)
    requires e == Acquire(r) || e == Release(r) || e == ReadGlobal(r) || e == ReadTenant(r)
    ensures Inv(c, Apply(c, s, e))
  {
    var s' := Apply(c, s, e);
    match e
    case Acquire(_) =>
      if Live(s.locks, s.runs[r].job, s.now) { InvMove(c, s, s', r, Skipped); } else { InvAcquire(c, s, r); }
    case Release(_) => InvRelease(c, s, r);
    case ReadGlobal(_) =>
      InvMove(c, s, s', r, if Count(s.depths, GlobalDepth, s.now) > 0 then SawGlobal else PastGlobal);
    case ReadTenant(_) =>
      InvMove(c, s, s', r, if Count(s.depths, TenantDepth(s.runs[r].tenant), s.now) > 0 then SawTenant else Finished);
  }

  lemma InvStep(c: Config, s: State, e: Event)
    requires 0.0 <= c.hardLimit < c.lockTtl
    requires Inv(c, s) && Enabled(c, s, e)
    ensures Inv(c, Apply(c, s, e))
  {
    match e
    case Deliver(r, j) => InvDeliver(c, s, r, j);
    case Acquire(r) => InvRunStep(c, s, e, r);
    case Release(r) => InvRunStep(c, s, e, r);
    case ReadGlobal(r) => InvRunStep(c, s, e, r);
    case DecrGlobal(r) => InvMove(c, s, Apply(c, s, e), r, PastGlobal);
    case ReadTenant(r) => InvRunStep(c, s, e, r);
    case DecrTenant(r) => InvMove(c, s, Apply(c, s, e), r, Finished);
    case Kill(r) => InvMove(c, s, Apply(c, s, e), r, Killed);
    case Tick(d) => InvTick(c, s, d);
    case _ => InvSame(c, s, Apply(c, s, e));
  }

  lemma {:induction false} InvHolds(c: Config, es: seq<Event>)
    requires 0.0 <= c.hardLimit < c.lockTtl
    requires Exec(c, es).Some?
    ensures Inv(c, Exec(c, es).value)
  {
    if es == [] {
    } else {
      InvHolds(c, es[..|es| - 1]);
      InvStep(c, Exec(c, es[..|es| - 1]).value, es[|es| - 1]);
    }
  }

  lemma ExclusiveFromInv(c: Config, s: State)
    requires Inv(c, s)
    ensures Exclusive(s)
  {
    forall r1, r2 | r1 in s.runs && r2 in s.runs && s.runs[r1].phase.InBody? && s.runs[r2].phase.InBody?
                    && s.runs[r1].job == s.runs[r2].job
      ensures r1 == r2
    {
      assert RunOk(c, s, r1) && RunOk(c, s, r2);
    }
  }

  /** The job lock gives mutual exclusion in every run exactly when the hard time limit is
      strictly below the lock's time to live. */
  lemma MutualExclusionIffLimitBelowTtl(c: Config)
    requires 0.0 <= c.hardLimit && 0.0 <= c.lockTtl && 0 < c.maxGlobal && 0 < c.maxTenant
    ensures (forall es | Exec(c, es).Some? :: Exclusive(Exec(c, es).value)) <==> c.hardLimit < c.lockTtl
  {
    if c.hardLimit < c.lockTtl {
      forall es | Exec(c, es).Some? ensures Exclusive(Exec(c, es).value) {
        InvHolds(c, es);
        ExclusiveFromInv(c, Exec(c, es).value);
      }
    } else {
      var es, s := AdmitFirst(c);
      es, s := FirstDelivery(c, es, s);
      es, s := Overlap(c, es, s);
    }
  }

  /** The settings the platform starts with meet that condition. */
  lemma {:induction false} DefaultsAreExclusive(es: seq<Event>)
    requires Exec(DEFAULTS, es).Some?
    ensures DEFAULTS == Config(360.0, 400.0, 100, 10)
    ensures Exclusive(Exec(DEFAULTS, es).value)
  {
    MutualExclusionIffLimitBelowTtl(DEFAULTS);
  }

  /** A run that admits one job and sends it, without time passing. */
  lemma AdmitFirst(c: Config) returns (es: seq<Event>, s: State)
    requires 0 < c.maxGlobal && 0 < c.maxTenant
    ensures Exec(c, es) == Some(s)
    ensures s.now == 0.0 && s.locks == map[] && s.runs == map[] && 0 in s.sent
  {
    Extend(c, [], Init(), Arrive(0, 0));
    es, s := [] + [Arrive(0, 0)], Apply(c, Init(), Arrive(0, 0));
    Extend(c, es, s, CheckGlobal(0));
    es, s := es + [CheckGlobal(0)], Goto(s, 0, PassedGlobal);
    Extend(c, es, s, CheckTenant(0));
    es, s := es + [CheckTenant(0)], Goto(s, 0, PassedTenant);
    es, s := SendFirst(c, es, s);
  }

  lemma SendFirst(c: Config, es0: seq<Event>, s0: State) returns (es: seq<Event>, s: State)
    requires Exec(c, es0) == Some(s0) && 0 in s0.requests && s0.requests[0].phase.PassedTenant? && 0 !in s0.creator
    ensures Exec(c, es) == Some(s) && 0 in s.sent
    ensures s.now == s0.now && s.locks == s0.locks && s.runs == s0.runs
  {
    Extend(c, es0, s0, Create(0, 0));
    es, s := es0 + [Create(0, 0)], OnCreate(s0, 0, 0);
    Extend(c, es, s, IncrGlobal(0));
    es, s := es + [IncrGlobal(0)], OnIncrGlobal(s, 0);
    Extend(c, es, s, IncrTenant(0));
    es, s := es + [IncrTenant(0)], OnIncrTenant(s, 0);
    Extend(c, es, s, ExpireTenant(0));
    es, s := es + [ExpireTenant(0)], OnExpireTenant(s, 0);
    Extend(c, es, s, Send(0));
    es, s := es + [Send(0)], OnSend(s, 0);
  }

  lemma FirstDelivery(c: Config, es0: seq<Event>, s0: State) returns (es: seq<Event>, s: State)
    requires Exec(c, es0) == Some(s0)
    requires s0.now == 0.0 && s0.locks == map[] && s0.runs == map[] && 0 in s0.sent
    ensures Exec(c, es) == Some(s) && s.now == 0.0 && 0 in s.sent
    ensures s.runs.Keys == {0} && s.runs[0].job == 0 && s.runs[0].phase.InBody? && s.runs[0].start == 0.0
    ensures 0 in s.locks && s.locks[0].expiry == Some(c.lockTtl)
  {
    Extend(c, es0, s0, Deliver(0, 0));
    es, s := es0 + [Deliver(0, 0)], Apply(c, s0, Deliver(0, 0));
    Extend(c, es, s, Acquire(0));
    es, s := es + [Acquire(0)], OnAcquire(c, s, 0);
  }

  /** The first execution outlives its lock entry, and the next delivery is let in beside it. */
  lemma Overlap(c: Config, es0: seq<Event>, s0: State) returns (es: seq<Event>, s: State)
    requires 0.0 <= c.lockTtl <= c.hardLimit
    requires Exec(c, es0) == Some(s0) && s0.now == 0.0 && 0 in s0.sent
    requires s0.runs.Keys == {0} && s0.runs[0].job == 0 && s0.runs[0].phase.InBody? && s0.runs[0].start == 0.0
    requires 0 in s0.locks && s0.locks[0].expiry == Some(c.lockTtl)
    ensures Exec(c, es) == Some(s) && !Exclusive(s)
  {
    Extend(c, es0, s0, Tick(c.lockTtl));
    es, s := es0 + [Tick(c.lockTtl)], Apply(c, s0, Tick(c.lockTtl));
    Extend(c, es, s, Deliver(1, 0));
    es, s := es + [Deliver(1, 0)], Apply(c, s, Deliver(1, 0));
    Extend(c, es, s, Acquire(1));
    es, s := es + [Acquire(1)], OnAcquire(c, s, 1);
    assert s.runs[0].phase.InBody? && s.runs[1].phase.InBody?;
  }

  /** In every run the DELETE in the `finally` block removes the entry its own execution stored,
      which is still alive, and leaves every other execution in the body its lock. */
  lemma {:induction false} ReleaseIsOwn(c: Config, s: State, r: RunId)
    requires 0.0 <= c.hardLimit < c.lockTtl && Reachable(c, s)
    requires r in s.runs && s.runs[r].phase.InBody?
    ensures SetBy(c, s, s.runs[r].job, r) && Live(s.locks, s.runs[r].job, s.now)
    ensures forall other | other in s.runs && other != r && s.runs[other].phase.InBody? ::
              Live(OnRelease(s, r).locks, s.runs[other].job, s.now)
  {
    var es :| Exec(c, es) == Some(s);
    InvHolds(c, es);
    HolderIsLive(c, s, r);
    ExclusiveFromInv(c, s);
    forall other | other in s.runs && other != r && s.runs[other].phase.InBody?
      ensures Live(OnRelease(s, r).locks, s.runs[other].job, s.now)
    {
      HolderIsLive(c, s, other);
    }
  }

  /** A lock that blocks a delivery is either held by an execution inside the body or was left by
      one killed there less than `lockTtl` ago. */
  lemma {:induction false} LockProgress(c: Config, s: State, j: JobId)
    requires 0.0 <= c.hardLimit < c.lockTtl && Reachable(c, s) && Live(s.locks, j, s.now)
    ensures exists r | r in s.runs :: s.runs[r].job == j &&
              (s.runs[r].phase.InBody? || (s.runs[r].phase.Killed? && s.now < s.runs[r].acquired + c.lockTtl))
  {
    var es :| Exec(c, es) == Some(s);
    InvHolds(c, es);
    assert LockOk(c, s, j);
  }
}
