/** Runs in which the read-then-write gap of decrement_queue takes the counters to the bounds of
    `AdmissionBounds.UndershootBound`. */
module UndershootMet {
  import opened RedisStore
  import opened QueueControl
  import opened Protocol
  import opened AdmissionBounds
  import opened Sets

  ghost predicate Gets(c: Config, s: State, k: DepthKey, n: nat) {
    exists es :: AtMostDecrementing(c, es, k, n) && Exec(c, es) == Some(s)
  }

  lemma {:induction false} GetsOn(c: Config, s: State, e: Event, k: DepthKey, n: nat)
    requires Gets(c, s, k, n) && Enabled(c, s, e) && |Decrementing(Apply(c, s, e), k)| <= n
    ensures Gets(c, Apply(c, s, e), k, n)
  {
    var es :| AtMostDecrementing(c, es, k, n) && Exec(c, es) == Some(s);
    Extend(c, es, s, e);
    assert (es + [e])[..|es|] == es;
    assert AtMostDecrementing(c, es + [e], k, n);
  }

  // ---- One accepted job of tenant 0 ----

  lemma {:induction false} RequestGets(c: Config, s: State, e: Event, k: DepthKey, n: nat)
    requires Gets(c, s, k, n) && Enabled(c, s, e) && s.runs == map[] && Apply(c, s, e).runs == map[]
    ensures Gets(c, Apply(c, s, e), k, n)
  {
    assert Decrementing(Apply(c, s, e), k) == {};
    GetsOn(c, s, e, k, n);
  }

  lemma {:induction false} AdmitOne(c: Config, k: DepthKey, n: nat) returns (s: State)
    requires 0 < c.maxGlobal && 0 < c.maxTenant
    ensures Gets(c, s, k, n)
    ensures s == Init().(requests := map[0 := Request(0, Created(0))], creator := map[0 := 0])
  {
    s := Init();
    assert Decrementing(s, k) == {} && AtMostDecrementing(c, [], k, n) && Gets(c, s, k, n);
    RequestGets(c, s, Arrive(0, 0), k, n);
    s := s.(requests := map[0 := Request(0, New)]);
    RequestGets(c, s, CheckGlobal(0), k, n);
    assert Apply(c, s, CheckGlobal(0)).requests == map[0 := Request(0, PassedGlobal)];
    s := s.(requests := map[0 := Request(0, PassedGlobal)]);
    RequestGets(c, s, CheckTenant(0), k, n);
    assert Apply(c, s, CheckTenant(0)).requests == map[0 := Request(0, PassedTenant)];
    s := s.(requests := map[0 := Request(0, PassedTenant)]);
    RequestGets(c, s, Create(0, 0), k, n);
    assert Apply(c, s, Create(0, 0)).requests == map[0 := Request(0, Created(0))];
    s := s.(requests := map[0 := Request(0, Created(0))], creator := map[0 := 0]);
  }

  lemma {:induction false} AcceptOne(c: Config, k: DepthKey, n: nat) returns (s: State)
    requires 0 < c.maxGlobal && 0 < c.maxTenant
    ensures Gets(c, s, k, n)
    ensures s.now == 0.0 && s.runs == map[] && s.locks == map[] && 0 in s.sent && s.sent[0] == 0
    ensures GlobalDepth in s.depths && s.depths[GlobalDepth] == Entry(1, None)
    ensures TenantDepth(0) in s.depths && s.depths[TenantDepth(0)] == Entry(1, Some(TENANT_DEPTH_TTL))
  {
    s := AdmitOne(c, k, n);
    RequestGets(c, s, IncrGlobal(0), k, n);
    s := OnIncrGlobal(s, 0);
    RequestGets(c, s, IncrTenant(0), k, n);
    s := OnIncrTenant(s, 0);
    RequestGets(c, s, ExpireTenant(0), k, n);
    s := OnExpireTenant(s, 0);
    RequestGets(c, s, Send(0), k, n);
    s := OnSend(s, 0);
  }

  // ---- Executions of it, one after the other ----

  function Execution(s: State, p: RunPhase): Run {
    Run(0, 0, p, s.now, s.now)
  }

  /** Executions 0, ..., m - 1 have read the counter and are all about to decrement it. */
  ghost predicate Poised(s: State, m: nat, p: RunPhase) {
    && (forall r :: r in s.runs <==> 0 <= r < m)
    && (forall r | 0 <= r < m :: s.runs[r] == Execution(s, p))
    && 0 in s.sent && s.sent[0] == 0 && 0 !in s.locks
  }

  lemma {:induction false} PoisedSize(s: State, m: nat, p: RunPhase, k: DepthKey)
    requires Poised(s, m, p) && ((k.GlobalDepth? && p.SawGlobal?) || (k == TenantDepth(0) && p.SawTenant?))
    ensures |Decrementing(s, k)| == m
  {
    assert forall r :: r in Decrementing(s, k) <==> 0 <= r < m;
    Interval(Decrementing(s, k), 0, m);
  }

  /** The state with execution `r` as far as `p` */
  function At(s: State, r: RunId, p: RunPhase): State {
    s.(runs := s.runs[r := Execution(s, p)])
  }

  lemma {:induction false} RunGets(c: Config, s: State, r: RunId, t: State, e: Event, k: DepthKey, n: nat)
    requires r !in s.runs && |Decrementing(s, k)| < n && Gets(c, t, k, n) && Enabled(c, t, e)
    requires r in Apply(c, t, e).runs && Apply(c, t, e).runs == s.runs[r := Apply(c, t, e).runs[r]]
    ensures Gets(c, Apply(c, t, e), k, n)
  {
    DecrementingChange(s, Apply(c, t, e), r, k);
    GetsOn(c, t, e, k, n);
  }

  lemma {:induction false} TakeLock(c: Config, s: State, r: RunId, k: DepthKey, n: nat) returns (t: State)
    requires Gets(c, s, k, n) && r !in s.runs && |Decrementing(s, k)| < n && 0 in s.sent && s.sent[0] == 0 &&
        0 !in s.locks
    ensures Gets(c, t, k, n) && t == At(s, r, InBody).(locks := t.locks, holder := t.holder)
    ensures t.locks == SetEx(s.locks, 0, (), s.now, c.lockTtl)
  {
    RunGets(c, s, r, s, Deliver(r, 0), k, n);
    RunGets(c, s, r, At(s, r, Delivered), Acquire(r), k, n);
    t := OnAcquire(c, At(s, r, Delivered), r);
    assert t.runs == At(s, r, InBody).runs;
  }

  /** A delivery takes the lock and gives it back. */
  lemma {:induction false} PassLock(c: Config, s: State, r: RunId, k: DepthKey, n: nat) returns (t: State)
    requires Gets(c, s, k, n) && r !in s.runs && |Decrementing(s, k)| < n && 0 in s.sent && s.sent[0] == 0 &&
        0 !in s.locks
    ensures Gets(c, t, k, n) && t == At(s, r, Released).(locks := t.locks, holder := t.holder) && 0 !in t.locks
  {
    var held := TakeLock(c, s, r, k, n);
    RunGets(c, s, r, held, Release(r), k, n);
    t := OnRelease(held, r);
    assert t.runs == At(s, r, Released).runs;
  }

  lemma {:induction false} PoisedGrows(s: State, m: nat, p: RunPhase, t: State)
    requires Poised(s, m, p) && t.runs == s.runs[m := Execution(s, p)]
    requires t.now == s.now && t.sent == s.sent && 0 !in t.locks
    ensures Poised(t, m + 1, p)
  {
  }

  /** One more execution reads the global depth and is about to decrement it. */
  lemma {:induction false} JoinGlobal(c: Config, s: State, m: nat, n: nat) returns (t: State)
    requires Gets(c, s, GlobalDepth, n) && Poised(s, m, SawGlobal) && m < n && Depth(s, GlobalDepth) == 1
    ensures Gets(c, t, GlobalDepth, n) && Poised(t, m + 1, SawGlobal) && t.depths == s.depths && t.now == s.now
  {
    PoisedSize(s, m, SawGlobal, GlobalDepth);
    t := PassLock(c, s, m, GlobalDepth, n);
    RunGets(c, s, m, t, ReadGlobal(m), GlobalDepth, n);
    t := OnReadGlobal(t, m);
    assert t.runs == s.runs[m := Execution(s, SawGlobal)];
    PoisedGrows(s, m, SawGlobal, t);
  }

  lemma {:induction false} DropGlobal(c: Config, s: State, r: RunId, n: nat)
    requires Gets(c, s, GlobalDepth, n) && r in s.runs && s.runs[r].phase.SawGlobal?
    ensures Gets(c, OnDecrGlobal(s, r), GlobalDepth, n)
  {
    var es :| AtMostDecrementing(c, es, GlobalDepth, n) && Exec(c, es) == Some(s);
    DecrementingChange(s, OnDecrGlobal(s, r), r, GlobalDepth);
    GetsOn(c, s, DecrGlobal(r), GlobalDepth, n);
  }

  /** For every `n` some run with at most `n` executions in the gap takes the global depth to `1 - n`. */
  lemma {:induction false} GlobalUndershootIsMet(c: Config, n: nat)
    requires 1 <= n && 0 < c.maxGlobal && 0 < c.maxTenant
    ensures exists es :: AtMostDecrementing(c, es, GlobalDepth, n) && Depth(Exec(c, es).value, GlobalDepth) == 1 - n
  {
    var s := AcceptOne(c, GlobalDepth, n);
    var m := 0;
    while m < n
      invariant m <= n && Gets(c, s, GlobalDepth, n) && Poised(s, m, SawGlobal)
      invariant GlobalDepth in s.depths && s.depths[GlobalDepth] == Entry(1, None)
    {
      s := JoinGlobal(c, s, m, n);
      m := m + 1;
    }
    var i := 0;
    while i < n
      invariant i <= n && Gets(c, s, GlobalDepth, n) && GlobalDepth in s.depths &&
          s.depths[GlobalDepth] == Entry(1 - i, None)
      invariant forall r | i <= r < n :: r in s.runs && s.runs[r].phase.SawGlobal?
    {
      DropGlobal(c, s, i, n);
      s := OnDecrGlobal(s, i);
      i := i + 1;
    }
    var es :| AtMostDecrementing(c, es, GlobalDepth, n) && Exec(c, es) == Some(s);
  }

  // ---- The tenant's counter, whose key expires in the gap ----

  lemma {:induction false} LeaveGlobal(c: Config, s: State, m: nat, t: State, n: nat) returns (u: State)
    requires Gets(c, t, TenantDepth(0), n) && m !in s.runs && |Decrementing(s, TenantDepth(0))| < n
    requires t.runs == s.runs[m := Execution(s, SawGlobal)] && t.now == s.now
    ensures Gets(c, u, TenantDepth(0), n) && u.runs == s.runs[m := Execution(s, PastGlobal)]
    ensures u == t.(runs := u.runs, depths := u.depths, open := u.open)
    ensures TenantDepth(0) in t.depths ==>
        TenantDepth(0) in u.depths && u.depths[TenantDepth(0)] == t.depths[TenantDepth(0)]
  {
    RunGets(c, s, m, t, DecrGlobal(m), TenantDepth(0), n);
    u := OnDecrGlobal(t, m);
    assert u.runs == s.runs[m := Execution(s, PastGlobal)];
  }

  /** One more execution passes the global counter, decrementing it if it reads positive. */
  lemma {:induction false} PassGlobal(c: Config, s: State, m: nat, t: State, n: nat) returns (u: State)
    requires Gets(c, t, TenantDepth(0), n) && m !in s.runs && |Decrementing(s, TenantDepth(0))| < n
    requires t.runs == s.runs[m := Execution(s, Released)] && t.now == s.now
    ensures Gets(c, u, TenantDepth(0), n) && u.runs == s.runs[m := Execution(s, PastGlobal)]
    ensures u == t.(runs := u.runs, depths := u.depths, open := u.open)
    ensures TenantDepth(0) in t.depths ==>
        TenantDepth(0) in u.depths && u.depths[TenantDepth(0)] == t.depths[TenantDepth(0)]
  {
    RunGets(c, s, m, t, ReadGlobal(m), TenantDepth(0), n);
    u := OnReadGlobal(t, m);
    if u.runs[m].phase.SawGlobal? {
      assert u.runs == s.runs[m := Execution(s, SawGlobal)];
      u := LeaveGlobal(c, s, m, u, n);
    } else {
      assert u.runs == s.runs[m := Execution(s, PastGlobal)];
    }
  }

  /** ... and is about to decrement the tenant's. */
  lemma {:induction false} PoiseTenant(c: Config, s: State, m: nat, t: State, n: nat)
    requires Gets(c, t, TenantDepth(0), n) && m !in s.runs && |Decrementing(s, TenantDepth(0))| < n
    requires t.runs == s.runs[m := Execution(s, PastGlobal)] && t.now == s.now && Depth(t, TenantDepth(0)) == 1
    ensures Gets(c, OnReadTenant(t, m), TenantDepth(0), n)
    ensures OnReadTenant(t, m) == t.(runs := s.runs[m := Execution(s, SawTenant)])
  {
    RunGets(c, s, m, t, ReadTenant(m), TenantDepth(0), n);
    assert OnReadTenant(t, m).runs == s.runs[m := Execution(s, SawTenant)];
  }

  lemma {:induction false} JoinTenant(c: Config, s: State, m: nat, n: nat) returns (t: State)
    requires Gets(c, s, TenantDepth(0), n) && Poised(s, m, SawTenant) && m < n && Depth(s, TenantDepth(0)) == 1
    ensures Gets(c, t, TenantDepth(0), n) && Poised(t, m + 1, SawTenant) && t.now == s.now
    ensures TenantDepth(0) in t.depths && t.depths[TenantDepth(0)] == s.depths[TenantDepth(0)]
  {
    PoisedSize(s, m, SawTenant, TenantDepth(0));
    t := PassLock(c, s, m, TenantDepth(0), n);
    t := PassGlobal(c, s, m, t, n);
    PoiseTenant(c, s, m, t, n);
    t := t.(runs := s.runs[m := Execution(s, SawTenant)]);
    PoisedGrows(s, m, SawTenant, t);
  }

  lemma {:induction false} DropTenant(c: Config, s: State, r: RunId, n: nat)
    requires Gets(c, s, TenantDepth(0), n) && r in s.runs && s.runs[r].phase.SawTenant? && s.runs[r].tenant == 0
    ensures Gets(c, OnDecrTenant(s, r), TenantDepth(0), n)
  {
    var es :| AtMostDecrementing(c, es, TenantDepth(0), n) && Exec(c, es) == Some(s);
    DecrementingChange(s, OnDecrTenant(s, r), r, TenantDepth(0));
    GetsOn(c, s, DecrTenant(r), TenantDepth(0), n);
  }

  lemma {:induction false} TickGets(c: Config, s: State, d: real, n: nat)
    requires Gets(c, s, TenantDepth(0), n) && Enabled(c, s, Tick(d))
    ensures Gets(c, Apply(c, s, Tick(d)), TenantDepth(0), n)
  {
    var es :| AtMostDecrementing(c, es, TenantDepth(0), n) && Exec(c, es) == Some(s);
    assert Decrementing(Apply(c, s, Tick(d)), TenantDepth(0)) == Decrementing(s, TenantDepth(0));
    GetsOn(c, s, Tick(d), TenantDepth(0), n);
  }

  lemma {:induction false} TenantPoised(c: Config, n: nat) returns (s: State)
    requires 1 <= n && 0 < c.maxGlobal && 0 < c.maxTenant && 0.0 < c.hardLimit
    ensures Gets(c, s, TenantDepth(0), n) && Poised(s, n, SawTenant)
    ensures s.now < TENANT_DEPTH_TTL <= s.now + c.hardLimit
    ensures TenantDepth(0) in s.depths && s.depths[TenantDepth(0)] == Entry(1, Some(TENANT_DEPTH_TTL))
  {
    s := AcceptOne(c, TenantDepth(0), n);
    var wait := if c.hardLimit < TENANT_DEPTH_TTL then TENANT_DEPTH_TTL - c.hardLimit else 0.0;
    TickGets(c, s, wait, n);
    s := Apply(c, s, Tick(wait));
    var m := 0;
    while m < n
      invariant m <= n && Gets(c, s, TenantDepth(0), n) && Poised(s, m, SawTenant) && s.now == wait
      invariant TenantDepth(0) in s.depths && s.depths[TenantDepth(0)] == Entry(1, Some(TENANT_DEPTH_TTL))
    {
      s := JoinTenant(c, s, m, n);
      m := m + 1;
    }
  }

  /** With the tenant's key expiring in the gap, some run takes its depth to `-n`. */
  lemma {:induction false} TenantUndershootIsMet(c: Config, n: nat)
    requires 1 <= n && 0 < c.maxGlobal && 0 < c.maxTenant && 0.0 < c.hardLimit
    ensures exists es ::
        AtMostDecrementing(c, es, TenantDepth(0), n) && Depth(Exec(c, es).value, TenantDepth(0)) == 0 - n
  {
    var k := TenantDepth(0);
    var s := TenantPoised(c, n);
    var rest := TENANT_DEPTH_TTL - s.now;
    TickGets(c, s, rest, n);
    s := Apply(c, s, Tick(rest));
    var i := 0;
    while i < n
      invariant i <= n && Gets(c, s, k, n)
      invariant if i == 0 then !Live(s.depths, k, s.now) else k in s.depths && s.depths[k] == Entry(0 - i, None)
      invariant forall r | i <= r < n :: r in s.runs && s.runs[r].phase.SawTenant? && s.runs[r].tenant == 0
    {
      DropTenant(c, s, i, n);
      s := OnDecrTenant(s, i);
      i := i + 1;
    }
    var es :| AtMostDecrementing(c, es, k, n) && Exec(c, es) == Some(s);
  }
}
