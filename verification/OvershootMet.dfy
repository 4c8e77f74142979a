/** Runs in which the gap between check_backpressure and increment_queue takes a counter to the bound of
    `AdmissionBounds.OvershootBound`. */
module OvershootMet {
  import opened RedisStore
  import opened QueueControl
  import opened Protocol
  import opened AdmissionBounds
  import opened Sets

  ghost predicate Reaches(c: Config, s: State, k: DepthKey, n: nat) {
    exists es :: AtMostPending(c, es, k, n) && Exec(c, es) == Some(s)
  }

  lemma {:induction false} ReachesOn(c: Config, s: State, e: Event, k: DepthKey, n: nat)
    requires Reaches(c, s, k, n) && Enabled(c, s, e) && |Pending(Apply(c, s, e), k)| <= n
    ensures Reaches(c, Apply(c, s, e), k, n)
  {
    var es :| AtMostPending(c, es, k, n) && Exec(c, es) == Some(s);
    Extend(c, es, s, e);
    assert (es + [e])[..|es|] == es;
    assert AtMostPending(c, es + [e], k, n);
  }

  lemma PendingIsBounded(c: Config, s: State, k: DepthKey, n: nat)
    requires Reaches(c, s, k, n)
    ensures |Pending(s, k)| <= n
  {
  }

  /** For the global counter each request is of a tenant of its own, for a tenant's all are of that one. */
  function Owner(k: DepthKey, q: ReqId): TenantId {
    if k.GlobalDepth? then q else k.tenant
  }

  function Counted(k: DepthKey, q: ReqId): ReqPhase {
    if k.GlobalDepth? then CountedGlobal(q) else CountedTenant(q)
  }

  /** Requests below `done` have incremented `k`, those from `done` to `base` have created their job. */
  ghost predicate Stage(s: State, k: DepthKey, done: nat, base: nat) {
    && done <= base && s.now == 0.0
    && (forall q :: q in s.requests <==> 0 <= q < base)
    && (forall q | 0 <= q < base ::
        s.requests[q] == Request(Owner(k, q), if q < done then Counted(k, q) else Created(q)))
    && (forall q | base <= q :: q !in s.creator)
    && (forall key | key in s.depths :: key == GlobalDepth || key == k)
    && Depth(s, GlobalDepth) == done && Depth(s, k) == done
  }

  lemma {:induction false} StagePending(s: State, k: DepthKey, done: nat, base: nat)
    requires Stage(s, k, done, base)
    ensures |Pending(s, k)| == base - done
  {
    assert forall q :: q in Pending(s, k) <==> done <= q < base;
    Interval(Pending(s, k), done, base);
  }

  /** Request `q` has come as far as `p`. */
  function With(s: State, k: DepthKey, q: ReqId, p: ReqPhase): State {
    s.(requests := s.requests[q := Request(Owner(k, q), p)])
  }

  lemma {:induction false} GatherStep(
    c: Config, s: State, k: DepthKey, q: ReqId, p: ReqPhase, e: Event, p': ReqPhase, n: nat)
    requires q !in s.requests && |Pending(s, k)| < n && Reaches(c, With(s, k, q, p), k, n)
    requires Enabled(c, With(s, k, q, p), e)
    requires Apply(c, With(s, k, q, p), e).requests == With(s, k, q, p').requests
    ensures Reaches(c, Apply(c, With(s, k, q, p), e), k, n)
  {
    PendingChange(s, Apply(c, With(s, k, q, p), e), q, k);
    ReachesOn(c, With(s, k, q, p), e, k, n);
  }

  lemma {:induction false} GatherChecks(c: Config, s: State, k: DepthKey, q: ReqId, n: nat)
    requires q !in s.requests && |Pending(s, k)| < n && Reaches(c, With(s, k, q, New), k, n)
    requires Depth(s, GlobalDepth) < c.maxGlobal && Depth(s, TenantDepth(Owner(k, q))) < c.maxTenant
    ensures Reaches(c, With(s, k, q, PassedTenant), k, n)
  {
    GatherStep(c, s, k, q, New, CheckGlobal(q), PassedGlobal, n);
    assert Apply(c, With(s, k, q, New), CheckGlobal(q)) == With(s, k, q, PassedGlobal);
    GatherStep(c, s, k, q, PassedGlobal, CheckTenant(q), PassedTenant, n);
    assert Apply(c, With(s, k, q, PassedGlobal), CheckTenant(q)) == With(s, k, q, PassedTenant);
  }

  lemma {:induction false} GatherCreate(c: Config, s: State, k: DepthKey, q: ReqId, n: nat)
    requires q !in s.requests && |Pending(s, k)| < n && Reaches(c, With(s, k, q, PassedTenant), k, n) && q !in s.creator
    ensures Reaches(c, OnCreate(With(s, k, q, PassedTenant), q, q), k, n)
  {
    GatherStep(c, s, k, q, PassedTenant, Create(q, q), Created(q), n);
  }

  lemma {:induction false} GatherArrival(c: Config, s: State, k: DepthKey, q: ReqId, n: nat)
    requires Reaches(c, s, k, n) && q !in s.requests && |Pending(s, k)| < n
    ensures Reaches(c, With(s, k, q, New), k, n)
  {
    PendingChange(s, With(s, k, q, New), q, k);
    ReachesOn(c, s, Arrive(q, Owner(k, q)), k, n);
  }

  lemma {:induction false} StageGrows(s: State, k: DepthKey, done: nat, base: nat)
    requires Stage(s, k, done, base)
    ensures Stage(OnCreate(With(s, k, base, PassedTenant), base, base), k, done, base + 1)
  {
  }

  /** One more request reads the depths and creates its job. */
  lemma {:induction false} Gather(c: Config, s: State, k: DepthKey, done: nat, base: nat, n: nat) returns (s': State)
    requires Reaches(c, s, k, n) && Stage(s, k, done, base) && base - done < n
    requires done < c.maxGlobal && 0 < c.maxTenant && (k.TenantDepth? ==> done < c.maxTenant)
    ensures Reaches(c, s', k, n) && Stage(s', k, done, base + 1)
  {
    StagePending(s, k, done, base);
    assert base !in s.requests && base !in s.creator;
    assert Depth(s, TenantDepth(Owner(k, base))) < c.maxTenant;
    GatherArrival(c, s, k, base, n);
    GatherChecks(c, s, k, base, n);
    s' := OnCreate(With(s, k, base, PassedTenant), base, base);
    GatherCreate(c, s, k, base, n);
    StageGrows(s, k, done, base);
  }

  /** Request `q` counts its job in the global depth, and in its tenant's if that is the one of interest. */
  function Flushed(s: State, k: DepthKey, q: ReqId): State
    requires q in s.requests && s.requests[q].phase.Created?
  {
    if k.GlobalDepth? then OnIncrGlobal(s, q) else OnIncrTenant(OnIncrGlobal(s, q), q)
  }

  lemma {:induction false} StageFlushes(s: State, k: DepthKey, done: nat, base: nat)
    requires Stage(s, k, done, base) && done < base
    ensures Stage(Flushed(s, k, done), k, done + 1, base)
  {
  }

  lemma {:induction false} FlushReaches(c: Config, s: State, k: DepthKey, q: ReqId, n: nat)
    requires Reaches(c, s, k, n) && q in s.requests && s.requests[q].phase.Created?
    ensures Reaches(c, Flushed(s, k, q), k, n)
  {
    PendingIsBounded(c, s, k, n);
    var counted := OnIncrGlobal(s, q);
    PendingChange(s, counted, q, k);
    ReachesOn(c, s, IncrGlobal(q), k, n);
    if k.TenantDepth? {
      PendingIsBounded(c, counted, k, n);
      PendingChange(counted, OnIncrTenant(counted, q), q, k);
      ReachesOn(c, counted, IncrTenant(q), k, n);
    }
  }

  lemma {:induction false} Flush(c: Config, s: State, k: DepthKey, done: nat, base: nat, n: nat) returns (s': State)
    requires Reaches(c, s, k, n) && Stage(s, k, done, base) && done < base
    ensures Reaches(c, s', k, n) && Stage(s', k, done + 1, base)
  {
    StageFlushes(s, k, done, base);
    FlushReaches(c, s, k, done, n);
    s' := Flushed(s, k, done);
  }

  /** For every `n` some run with at most `n` requests in the gap takes the global depth, or that of any
      one tenant, to its limit plus `n - 1`. */
  lemma {:induction false} OvershootIsMet(c: Config, k: DepthKey, n: nat)
    requires 1 <= n && 1 <= c.maxGlobal && 1 <= c.maxTenant && (k.TenantDepth? ==> c.maxTenant <= c.maxGlobal)
    ensures exists es :: AtMostPending(c, es, k, n) && Depth(Exec(c, es).value, k) == Limit(c, k) + n - 1
  {
    var s := Init();
    assert Pending(s, k) == {} && AtMostPending(c, [], k, n) && Reaches(c, s, k, n);
    var done := 0;
    while done < Limit(c, k) - 1
      invariant done <= Limit(c, k) - 1 && Reaches(c, s, k, n) && Stage(s, k, done, done)
    {
      s := Gather(c, s, k, done, done, n);
      s := Flush(c, s, k, done, done + 1, n);
      done := done + 1;
    }
    var base := done;
    while base < done + n
      invariant done <= base <= done + n && Reaches(c, s, k, n) && Stage(s, k, done, base)
    {
      s := Gather(c, s, k, done, base, n);
      base := base + 1;
    }
    while done < base
      invariant done <= base && Reaches(c, s, k, n) && Stage(s, k, done, base)
    {
      s := Flush(c, s, k, done, base, n);
      done := done + 1;
    }
    var es :| AtMostPending(c, es, k, n) && Exec(c, es) == Some(s);
  }
}
