/** How long a worker killed inside the body keeps its job from running again. */
module CrashRecovery {
  import opened RedisStore
  import opened Protocol
  import opened LockSafety

  /** Execution `r` of job `j` was killed in the body and its entry is still the one stored. */
  ghost predicate DeadHolder(c: Config, s: State, j: JobId, r: RunId) {
    SetBy(c, s, j, r) && s.runs[r].phase.Killed?
  }

  /** A dead entry is replaced only by another execution that takes the lock. */
  lemma {:induction false} DeadHolderStep(c: Config, s: State, e: Event, j: JobId, r: RunId)
    requires Inv(c, s) && Enabled(c, s, e) && r in s.runs && s.runs[r].phase.Killed?
    requires j in s.holder && s.holder[j] == r ==> DeadHolder(c, s, j, r)
    ensures r in Apply(c, s, e).runs && Apply(c, s, e).runs[r] == s.runs[r]
    ensures j in Apply(c, s, e).holder && Apply(c, s, e).holder[j] == r ==> DeadHolder(c, Apply(c, s, e), j, r)
  {
    match e
    case Acquire(_) =>
    case Release(d) => assert RunOk(c, s, d);
    case Deliver(_, _) =>
    case ReadGlobal(_) =>
    case DecrGlobal(_) =>
    case ReadTenant(_) =>
    case DecrTenant(_) =>
    case Kill(_) =>
    case _ =>
  }

  lemma {:induction false} DeadHolderStays(c: Config, es: seq<Event>, r: RunId, after: seq<Event>, j: JobId)
    requires 0.0 <= c.hardLimit < c.lockTtl && Exec(c, es + [Kill(r)] + after).Some?
    requires Exec(c, es).Some? && r in Exec(c, es).value.runs && Exec(c, es).value.runs[r].phase.InBody?
    requires Exec(c, es).value.runs[r].job == j
    ensures
      var s := Exec(c, es + [Kill(r)] + after).value;
      r in s.runs && s.runs[r] == Exec(c, es).value.runs[r].(phase := Killed) &&
          (j in s.holder && s.holder[j] == r ==> DeadHolder(c, s, j, r))
    decreases |after|
  {
    var whole := es + [Kill(r)] + after;
    InvHolds(c, es);
    if after == [] {
      assert whole[..|whole| - 1] == es && whole[|es|] == Kill(r);
      assert RunOk(c, Exec(c, es).value, r);
    } else {
      var before := after[..|after| - 1];
      assert whole[..|whole| - 1] == es + [Kill(r)] + before && whole[|whole| - 1] == after[|after| - 1];
      DeadHolderStays(c, es, r, before, j);
      InvHolds(c, whole[..|whole| - 1]);
      DeadHolderStep(c, Exec(c, es + [Kill(r)] + before).value, after[|after| - 1], j, r);
    }
  }

  /** After a kill in the body, and as long as no other execution has taken the job's lock, a delivery is
      refused exactly until `lockTtl` after the dead execution took it. */
  lemma {:induction false} DeliveryAfterCrash(c: Config, es: seq<Event>, r: RunId, after: seq<Event>, d: RunId)
    requires 0.0 <= c.hardLimit < c.lockTtl && Exec(c, es + [Kill(r)] + after).Some?
    requires Exec(c, es).Some? && r in Exec(c, es).value.runs && Exec(c, es).value.runs[r].phase.InBody?
    requires
      var s, j := Exec(c, es + [Kill(r)] + after).value, Exec(c, es).value.runs[r].job;
      && j in s.holder && s.holder[j] == r
      && d in s.runs && s.runs[d].job == j && s.runs[d].phase.Delivered?
    ensures
      var s := Exec(c, es + [Kill(r)] + after).value;
      OnAcquire(c, s, d).runs[d].phase.Skipped? <==> s.now < Exec(c, es).value.runs[r].acquired + c.lockTtl
  {
    DeadHolderStays(c, es, r, after, Exec(c, es).value.runs[r].job);
  }
}
