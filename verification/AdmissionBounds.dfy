/** How far the read-then-write gaps of check_backpressure and decrement_queue let the depth counters
    stray from their limits. */
module AdmissionBounds {
  import opened RedisStore
  import opened QueueControl
  import opened Protocol

  /** A request that has read counter `k` below its limit and has not incremented it yet. */
  predicate Between(x: Request, k: DepthKey) {
    match k
    case GlobalDepth => x.phase.PassedGlobal? || x.phase.PassedTenant? || x.phase.Created?
    case TenantDepth(t) => x.tenant == t && (x.phase.PassedTenant? || x.phase.Created? || x.phase.CountedGlobal?)
  }

  ghost function Pending(s: State, k: DepthKey): set<ReqId> {
    set q | q in s.requests && Between(s.requests[q], k)
  }

  /** An execution that has read counter `k` above zero and has not decremented it yet. */
  predicate AboutToDecrement(x: Run, k: DepthKey) {
    match k
    case GlobalDepth => x.phase.SawGlobal?
    case TenantDepth(t) => x.tenant == t && x.phase.SawTenant?
  }

  ghost function Decrementing(s: State, k: DepthKey): set<RunId> {
    set r | r in s.runs && AboutToDecrement(s.runs[r], k)
  }

  function Limit(c: Config, k: DepthKey): int {
    if k.GlobalDepth? then c.maxGlobal else c.maxTenant
  }

  function Depth(s: State, k: DepthKey): int {
    Count(s.depths, k, s.now)
  }

  /** In every state along the run at most `n` requests are between reading and incrementing `k`. */
  ghost predicate AtMostPending(c: Config, es: seq<Event>, k: DepthKey, n: nat) {
    && Exec(c, es).Some? && |Pending(Exec(c, es).value, k)| <= n
    && (es != [] ==> AtMostPending(c, es[..|es| - 1], k, n))
  }

  ghost predicate AtMostDecrementing(c: Config, es: seq<Event>, k: DepthKey, n: nat) {
    && Exec(c, es).Some? && |Decrementing(Exec(c, es).value, k)| <= n
    && (es != [] ==> AtMostDecrementing(c, es[..|es| - 1], k, n))
  }

  lemma OneDiffers(a: set<nat>, b: set<nat>, x: nat)
    requires a - {x} == b - {x}
    ensures |b| == |a| - (if x in a then 1 else 0) + (if x in b then 1 else 0)
  {
    var rest := a - {x};
    assert a == if x in a then rest + {x} else rest;
    assert b == if x in b then rest + {x} else rest;
  }

  lemma PendingChange(s: State, s': State, q: ReqId, k: DepthKey)
    requires q in s'.requests && s'.requests == s.requests[q := s'.requests[q]]
    ensures |Pending(s', k)| == |Pending(s, k)|
                                - (if q in s.requests && Between(s.requests[q], k) then 1 else 0)
                                + (if Between(s'.requests[q], k) then 1 else 0)
  {
    assert Pending(s', k) - {q} == Pending(s, k) - {q};
    OneDiffers(Pending(s, k), Pending(s', k), q);
  }

  lemma DecrementingChange(s: State, s': State, r: RunId, k: DepthKey)
    requires r in s'.runs && s'.runs == s.runs[r := s'.runs[r]]
    ensures |Decrementing(s', k)| == |Decrementing(s, k)|
                                - (if r in s.runs && AboutToDecrement(s.runs[r], k) then 1 else 0)
                                + (if AboutToDecrement(s'.runs[r], k) then 1 else 0)
  {
    assert Decrementing(s', k) - {r} == Decrementing(s, k) - {r};
    OneDiffers(Decrementing(s, k), Decrementing(s', k), r);
  }

  /** The two commands that raise a counter. */
  predicate Raises(s: State, e: Event, k: DepthKey) {
    match e
    case IncrGlobal(_) => k.GlobalDepth?
    case IncrTenant(q) => q in s.requests && k == TenantDepth(s.requests[q].tenant)
    case _ => false
  }

  predicate Lowers(s: State, e: Event, k: DepthKey) {
    match e
    case DecrGlobal(_) => k.GlobalDepth?
    case DecrTenant(r) => r in s.runs && k == TenantDepth(s.runs[r].tenant)
    case _ => false
  }

  predicate Expires(s: State, e: Event, k: DepthKey) {
    e.Tick? && Live(s.depths, k, s.now) && !Live(s.depths, k, s.now + e.d)
  }

  lemma DepthChange(c: Config, s: State, e: Event, k: DepthKey)
    requires Enabled(c, s, e)
    ensures Depth(Apply(c, s, e), k) == if Raises(s, e, k) then Depth(s, k) + 1
                                        else if Lowers(s, e, k) then Depth(s, k) - 1
                                        else if Expires(s, e, k) then 0 else Depth(s, k)
  {
    match e
    case IncrGlobal(_) =>
    case IncrTenant(_) =>
    case ExpireTenant(_) =>
    case DecrGlobal(_) =>
    case DecrTenant(_) =>
    case Tick(_) =>
    case _ => DepthsKept(c, s, e);
  }

  lemma DepthsKept(c: Config, s: State, e: Event)
    requires Enabled(c, s, e)
    requires !e.IncrGlobal? && !e.IncrTenant? && !e.ExpireTenant? && !e.DecrGlobal? && !e.DecrTenant?
    ensures Apply(c, s, e).depths == s.depths && (e.Tick? || Apply(c, s, e).now == s.now)
  {
  }

  /** A request enters the gap only by reading a depth below the limit, and leaves it by
      incrementing, by being refused or by dying. */
  lemma PendingStep(c: Config, s: State, e: Event, k: DepthKey)
    requires Enabled(c, s, e)
    ensures |Pending(Apply(c, s, e), k)| == |Pending(s, k)| - 1
            || (|Pending(Apply(c, s, e), k)| == |Pending(s, k)| && !Raises(s, e, k))
            || (|Pending(Apply(c, s, e), k)| == |Pending(s, k)| + 1 && Depth(s, k) < Limit(c, k) && !Raises(s, e, k))
  {
    var s' := Apply(c, s, e);
    if e.Arrive? || e.CheckGlobal? || e.CheckTenant? || e.Create? || e.IncrGlobal? || e.IncrTenant? ||
        e.ExpireTenant? || e.Send? || e.Abort? {
      assert s'.requests == s.requests[e.q := s'.requests[e.q]];
      PendingChange(s, s', e.q, k);
    } else {
      assert s'.requests == s.requests;
    }
  }

  lemma OvershootStep(c: Config, s: State, e: Event, k: DepthKey, n: nat)
    requires Enabled(c, s, e) && 1 <= Limit(c, k)
    requires |Pending(s, k)| <= n && |Pending(Apply(c, s, e), k)| <= n
    requires Depth(s, k) + |Pending(s, k)| <= Limit(c, k) - 1 + n
    ensures Depth(Apply(c, s, e), k) + |Pending(Apply(c, s, e), k)| <= Limit(c, k) - 1 + n
  {
    DepthChange(c, s, e, k);
    PendingStep(c, s, e, k);
  }

  lemma {:induction false} OvershootInv(c: Config, es: seq<Event>, k: DepthKey, n: nat)
    requires 1 <= n && 1 <= Limit(c, k) && AtMostPending(c, es, k, n)
    ensures Depth(Exec(c, es).value, k) + |Pending(Exec(c, es).value, k)| <= Limit(c, k) - 1 + n
  {
    if es != [] {
      OvershootInv(c, es[..|es| - 1], k, n);
      OvershootStep(c, Exec(c, es[..|es| - 1]).value, es[|es| - 1], k, n);
    } else {
      assert Pending(Init(), k) == {};
    }
  }

  /** If at most `n` requests are ever between reading a depth and incrementing it, that depth never
      exceeds its limit by more than `n - 1`; serial requests meet the limit exactly. */
  lemma {:induction false} OvershootBound(c: Config, es: seq<Event>, k: DepthKey, n: nat)
    requires 1 <= n && 1 <= Limit(c, k) && AtMostPending(c, es, k, n)
    ensures Depth(Exec(c, es).value, k) <= Limit(c, k) + n - 1
  {
    OvershootInv(c, es, k, n);
  }

  /** An execution enters its gap only by reading a positive depth and leaves it by decrementing or
      by being killed. */
  lemma DecrementingStep(c: Config, s: State, e: Event, k: DepthKey)
    requires Enabled(c, s, e)
    ensures (|Decrementing(Apply(c, s, e), k)| == |Decrementing(s, k)| - 1 && !Raises(s, e, k))
            || (|Decrementing(Apply(c, s, e), k)| == |Decrementing(s, k)| && !Lowers(s, e, k))
            || (|Decrementing(Apply(c, s, e), k)| == |Decrementing(s, k)| + 1 && 0 < Depth(s, k) && !Lowers(s, e, k))
  {
    var s' := Apply(c, s, e);
    if e.Deliver? || e.Acquire? || e.Release? || e.ReadGlobal? || e.DecrGlobal? || e.ReadTenant? || e.DecrTenant? ||
        e.Kill? {
      assert s'.runs == s.runs[e.r := s'.runs[e.r]];
      DecrementingChange(s, s', e.r, k);
    } else {
      assert s'.runs == s.runs;
    }
  }

  /** `slack` is 1 while counter `k` has never expired, else 0: after an expiry an execution that saw
      the old value decrements a missing key. */
  lemma UndershootStep(c: Config, s: State, e: Event, k: DepthKey, n: nat, slack: int)
    requires Enabled(c, s, e)
    requires |Decrementing(s, k)| <= n && |Decrementing(Apply(c, s, e), k)| <= n
    requires slack == 0 || (slack == 1 && !Expires(s, e, k))
    requires Depth(s, k) - |Decrementing(s, k)| >= slack - n
    ensures Depth(Apply(c, s, e), k) - |Decrementing(Apply(c, s, e), k)| >= slack - n
  {
    DepthChange(c, s, e, k);
    DecrementingStep(c, s, e, k);
  }

  /** The global counter carries no expiry. */
  lemma {:induction false} GlobalNeverExpires(c: Config, es: seq<Event>)
    requires Exec(c, es).Some?
    ensures GlobalDepth in Exec(c, es).value.depths ==> Exec(c, es).value.depths[GlobalDepth].expiry.None?
  {
    if es == [] {
    } else {
      GlobalNeverExpires(c, es[..|es| - 1]);
      KeepsGlobal(c, Exec(c, es[..|es| - 1]).value, es[|es| - 1]);
    }
  }

  lemma KeepsGlobal(c: Config, s: State, e: Event)
    requires Enabled(c, s, e) && (GlobalDepth in s.depths ==> s.depths[GlobalDepth].expiry.None?)
    ensures var db := Apply(c, s, e).depths; GlobalDepth in db ==> db[GlobalDepth].expiry.None?
  {
    if e.IncrGlobal? || e.IncrTenant? || e.ExpireTenant? {
    } else if e.DecrGlobal? || e.DecrTenant? {
    } else {
      DepthsKept(c, s, e);
    }
  }

  lemma {:induction false} UndershootInv(c: Config, es: seq<Event>, k: DepthKey, n: nat)
    requires AtMostDecrementing(c, es, k, n)
    ensures Depth(Exec(c, es).value, k) - |Decrementing(Exec(c, es).value, k)| >= 0 - n
    ensures 1 <= n && (k.GlobalDepth? || k !in Exec(c, es).value.lapsed)
            ==> Depth(Exec(c, es).value, k) - |Decrementing(Exec(c, es).value, k)| >= 1 - n
  {
    if es != [] {
      var s, e := Exec(c, es[..|es| - 1]).value, es[|es| - 1];
      UndershootInv(c, es[..|es| - 1], k, n);
      UndershootStep(c, s, e, k, n, 0);
      if 1 <= n && (k.GlobalDepth? || k !in Exec(c, es).value.lapsed) {
        GlobalNeverExpires(c, es[..|es| - 1]);
        UndershootStep(c, s, e, k, n, 1);
      }
    } else {
      assert Decrementing(Init(), k) == {};
    }
  }

  /** With at most `n` executions between reading and decrementing, the global depth never drops below
      `1 - n`; a tenant depth whose key may expire in the gap can lose one more. */
  lemma {:induction false} UndershootBound(c: Config, es: seq<Event>, k: DepthKey, n: nat)
    requires 1 <= n && AtMostDecrementing(c, es, k, n)
    ensures Depth(Exec(c, es).value, k) >= 0 - n
    ensures k.GlobalDepth? || k !in Exec(c, es).value.lapsed ==> Depth(Exec(c, es).value, k) >= 1 - n
  {
    UndershootInv(c, es, k, n);
  }
}
