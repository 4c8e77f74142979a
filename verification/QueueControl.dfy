/** core/queue_control.py: the two depth counters behind backpressure, when calls do not overlap.
    `Protocol` interleaves the same commands. */
module QueueControl {
  import opened RedisStore

  const MAX_QUEUE_SIZE := 100
  const MAX_TENANT_QUEUE := 10
  const TENANT_DEPTH_TTL := 3600.0

  datatype DepthKey = GlobalDepth | TenantDepth(tenant: TenantId)

  type Depths = map<DepthKey, Entry<int>>

  datatype Verdict =
    | Allowed(globalDepth: int, tenantDepth: int)
    | SystemFull(depth: int, retryAfter: nat)
    | TenantFull(depth: int, retryAfter: nat)

  function Incremented(db: Depths, t: TenantId, now: real): Depths {
    Expire(Add(Add(db, GlobalDepth, 1, now), TenantDepth(t), 1, now), TenantDepth(t), now, TENANT_DEPTH_TTL)
  }

  function DecrIfPositive(db: Depths, k: DepthKey, now: real): Depths {
    if Count(db, k, now) > 0 then Add(db, k, -1, now) else db
  }

  function Decremented(db: Depths, t: TenantId, now: real): Depths {
    DecrIfPositive(DecrIfPositive(db, GlobalDepth, now), TenantDepth(t), now)
  }

  class Queue {
    var depths: Depths

    constructor ()
      ensures depths == map[]
    {
      depths := map[];
    }

    /** Reads the global depth first; only an admissible global depth lets the tenant's be read. */
    method CheckBackpressure(t: TenantId, now: real) returns (v: Verdict)
      ensures v.SystemFull? <==> Count(depths, GlobalDepth, now) >= 100
      ensures v.Allowed? <==> Count(depths, GlobalDepth, now) < 100 && Count(depths, TenantDepth(t), now) < 10
      ensures v.SystemFull? ==> v == SystemFull(Count(depths, GlobalDepth, now), 60)
      ensures v.TenantFull? ==> v == TenantFull(Count(depths, TenantDepth(t), now), 30)
      ensures v.Allowed? ==> v == Allowed(Count(depths, GlobalDepth, now), Count(depths, TenantDepth(t), now))
    {
      var global := Count(depths, GlobalDepth, now);
      if global >= MAX_QUEUE_SIZE {
        return SystemFull(global, 60);
      }
      var tenant := Count(depths, TenantDepth(t), now);
      if tenant >= MAX_TENANT_QUEUE {
        return TenantFull(tenant, 30);
      }
      return Allowed(global, tenant);
    }

    method IncrementQueue(t: TenantId, now: real)
      modifies this
      ensures depths == Incremented(old(depths), t, now)
      ensures Count(depths, GlobalDepth, now) == Count(old(depths), GlobalDepth, now) + 1
      ensures TenantDepth(t) in depths
      ensures depths[TenantDepth(t)] == Entry(Count(old(depths), TenantDepth(t), now) + 1, Some(now + 3600.0))
      ensures forall k | k != GlobalDepth && k != TenantDepth(t) :: Count(depths, k, now) == Count(old(depths), k, now)
    {
      depths := Add(depths, GlobalDepth, 1, now);
      depths := Add(depths, TenantDepth(t), 1, now);
      depths := Expire(depths, TenantDepth(t), now, TENANT_DEPTH_TTL);
    }

    method DecrementQueue(t: TenantId, now: real)
      modifies this
      ensures depths == Decremented(old(depths), t, now)
      ensures forall k :: Count(depths, k, now) == Count(old(depths), k, now)
                - (if (k == GlobalDepth || k == TenantDepth(t)) && Count(old(depths), k, now) > 0 then 1 else 0)
    {
      var global := Count(depths, GlobalDepth, now);
      if global > 0 {
        depths := Add(depths, GlobalDepth, -1, now);
      }
      var tenant := Count(depths, TenantDepth(t), now);
      if tenant > 0 {
        depths := Add(depths, TenantDepth(t), -1, now);
      }
    }
  }

  // ---- A history of calls ----

  datatype Call = Inc(tenant: TenantId, at: real) | Dec(tenant: TenantId, at: real)

  function Play(calls: seq<Call>): Depths {
    if calls == [] then map[]
    else
      var db, call := Play(calls[..|calls| - 1]), calls[|calls| - 1];
      if call.Inc? then Incremented(db, call.tenant, call.at) else Decremented(db, call.tenant, call.at)
  }

  /** Increments minus decrements */
  function Net(calls: seq<Call>): int {
    if calls == [] then 0 else Net(calls[..|calls| - 1]) + (if calls[|calls| - 1].Inc? then 1 else -1)
  }

  lemma {:induction false} GlobalHasNoExpiry(calls: seq<Call>)
    ensures GlobalDepth in Play(calls) ==> Play(calls)[GlobalDepth].expiry.None?
  {
    if calls == [] {
    } else {
      GlobalHasNoExpiry(calls[..|calls| - 1]);
    }
  }

  lemma {:induction false} NetOfSuffix(calls: seq<Call>, i: nat)
    requires i < |calls|
    ensures Net(calls[i..]) == Net(calls[..|calls| - 1][i..]) + (if calls[|calls| - 1].Inc? then 1 else -1)
  {
    assert calls[i..][..|calls| - 1 - i] == calls[..|calls| - 1][i..];
  }

  /** What the last call does to the global depth. */
  lemma {:induction false} GlobalStep(calls: seq<Call>, now: real)
    requires calls != []
    ensures var was, call := Count(Play(calls[..|calls| - 1]), GlobalDepth, calls[|calls| - 1].at), calls[|calls| - 1];
            Count(Play(calls), GlobalDepth, now) == if call.Inc? then was + 1 else if was > 0 then was - 1 else was
  {
    GlobalHasNoExpiry(calls);
    GlobalHasNoExpiry(calls[..|calls| - 1]);
  }

  ghost predicate Largest(calls: seq<Call>, depth: int) {
    && (forall i | 0 <= i <= |calls| :: Net(calls[i..]) <= depth)
    && (exists i | 0 <= i <= |calls| :: Net(calls[i..]) == depth)
  }

  lemma {:induction false} LargestStep(calls: seq<Call>, was: int, depth: int)
    requires calls != [] && Largest(calls[..|calls| - 1], was)
    requires depth == if calls[|calls| - 1].Inc? then was + 1 else if was > 0 then was - 1 else was
    ensures Largest(calls, depth)
  {
    var n, shorter := |calls| - 1, calls[..|calls| - 1];
    var d := if calls[n].Inc? then 1 else -1;
    assert shorter[n..] == [] && calls[n + 1..] == [] && Net(shorter[n..]) == 0 && Net(calls[n + 1..]) == 0;
    forall i | 0 <= i <= n ensures Net(calls[i..]) == Net(shorter[i..]) + d { NetOfSuffix(calls, i); }
    var j :| 0 <= j <= n && Net(shorter[j..]) == was;
    var at := if depth == was then n + 1 else j;
    assert Net(calls[at..]) == depth;
  }

  /** After any history the global depth, read at any later time, is the largest surplus of increments
      over decrements among all suffixes of the history: it forgets a deficit and nothing else. */
  lemma {:induction false} GlobalIsLargestSuffix(calls: seq<Call>, now: real)
    ensures Largest(calls, Count(Play(calls), GlobalDepth, now))
  {
    if calls == [] {
      assert Net(calls[0..]) == 0;
    } else {
      var n := |calls| - 1;
      GlobalIsLargestSuffix(calls[..n], calls[n].at);
      GlobalStep(calls, now);
      LargestStep(calls, Count(Play(calls[..n]), GlobalDepth, calls[n].at), Count(Play(calls), GlobalDepth, now));
    }
  }

  ghost predicate AllLive(db: Depths, now: real) {
    forall k | k in db :: Live(db, k, now)
  }

  /** No counter key expires between one call and the next, or between the last call and `now`. */
  ghost predicate NoneLapses(calls: seq<Call>, now: real) {
    && AllLive(Play(calls), now)
    && (calls != [] ==> NoneLapses(calls[..|calls| - 1], calls[|calls| - 1].at))
  }

  /** Every decrement of the history finds its tenant's counter positive. */
  ghost predicate NeverMeetsEmpty(calls: seq<Call>) {
    calls != [] ==>
      var before, call := calls[..|calls| - 1], calls[|calls| - 1];
      NeverMeetsEmpty(before) && (call.Dec? ==> Count(Play(before), TenantDepth(call.tenant), call.at) > 0)
  }

  /** The sum of the depths of the tenants below `n` */
  function TenantSum(db: Depths, n: nat, now: real): int {
    if n == 0 then 0 else TenantSum(db, n - 1, now) + Count(db, TenantDepth(n - 1), now)
  }

  lemma {:induction false} TenantSumChange(db: Depths, db': Depths, now: real, now': real, n: nat, t: TenantId, d: int)
    requires forall i | i != t :: Count(db', TenantDepth(i), now') == Count(db, TenantDepth(i), now)
    requires Count(db', TenantDepth(t), now') == Count(db, TenantDepth(t), now) + d
    ensures TenantSum(db', n, now') == TenantSum(db, n, now) + (if t < n then d else 0)
  {
    if n == 0 {
    } else {
      TenantSumChange(db, db', now, now', n - 1, t, d);
    }
  }

  lemma {:induction false} TenantSumAtLeast(db: Depths, n: nat, now: real, t: TenantId)
    requires t < n && forall i :: Count(db, TenantDepth(i), now) >= 0
    ensures TenantSum(db, n, now) >= Count(db, TenantDepth(t), now)
  {
    TenantSumNonNegative(db, n - 1, now);
    if t < n - 1 { TenantSumAtLeast(db, n - 1, now, t); }
  }

  lemma {:induction false} TenantSumNonNegative(db: Depths, n: nat, now: real)
    requires forall i :: Count(db, TenantDepth(i), now) >= 0
    ensures TenantSum(db, n, now) >= 0
  {
    if n == 0 {
    } else {
      TenantSumNonNegative(db, n - 1, now);
    }
  }

  /** What one call does to one counter, read at any instant at which nothing has expired. */
  lemma CallEffect(db: Depths, call: Call, now: real, k: DepthKey)
    requires AllLive(db, call.at)
    requires AllLive(if call.Inc? then Incremented(db, call.tenant, call.at)
        else Decremented(db, call.tenant, call.at), now)
    ensures
      Count(if call.Inc? then Incremented(db, call.tenant, call.at) else Decremented(db, call.tenant, call.at), k, now)
      == if k != GlobalDepth && k != TenantDepth(call.tenant) then Count(db, k, call.at)
         else if call.Inc? then Count(db, k, call.at) + 1
         else if Count(db, k, call.at) > 0 then Count(db, k, call.at) - 1 else Count(db, k, call.at)
  {
  }

  /** With calls one at a time and no expiry the global depth is at most the sum of the tenant depths,
      and equal to it as long as no decrement has met an empty tenant counter. */
  lemma {:induction false} GlobalAgainstTenants(calls: seq<Call>, n: nat, now: real)
    requires NoneLapses(calls, now) && forall i | 0 <= i < |calls| :: calls[i].tenant < n
    ensures forall k :: Count(Play(calls), k, now) >= 0
    ensures Count(Play(calls), GlobalDepth, now) <= TenantSum(Play(calls), n, now)
    ensures NeverMeetsEmpty(calls) ==> Count(Play(calls), GlobalDepth, now) == TenantSum(Play(calls), n, now)
  {
    if calls == [] {
      TenantSumNonNegative(map[], n, now);
      EmptySum(n, now);
    } else {
      var before, call := calls[..|calls| - 1], calls[|calls| - 1];
      GlobalAgainstTenants(before, n, call.at);
      var db, db' := Play(before), Play(calls);
      forall k ensures Count(db', k, now) >= 0 { CallEffect(db, call, now, k); }
      forall i | i != call.tenant ensures Count(db', TenantDepth(i), now) == Count(db, TenantDepth(i), call.at) {
        CallEffect(db, call, now, TenantDepth(i));
      }
      CallEffect(db, call, now, GlobalDepth);
      CallEffect(db, call, now, TenantDepth(call.tenant));
      TenantSumChange(db, db', call.at, now, n, call.tenant,
                      Count(db', TenantDepth(call.tenant), now) - Count(db, TenantDepth(call.tenant), call.at));
      TenantSumAtLeast(db, n, call.at, call.tenant);
    }
  }

  lemma {:induction false} EmptySum(n: nat, now: real)
    ensures TenantSum(map[], n, now) == 0
  {
    if n == 0 {
    } else {
      EmptySum(n - 1, now);
    }
  }
}
