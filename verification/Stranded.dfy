/** Where `Lifecycle` leaves the documented machine: which runs reopen a finished job, which leave one
    behind that no step will ever move again, and exactly when. */
module Stranded {
  import opened RedisStore
  import Jobs
  import opened Lifecycle

  predicate NoKills(es: seq<Event>) {
    forall i | 0 <= i < |es| :: !es[i].Kill?
  }

  /** Reachable, if `calm` without kills and repeated messages. */
  ghost predicate Reaches(calm: bool, t: State) {
    exists es :: Exec(Init(), es) == Some(t) && (calm ==> NoRepeats(es) && NoKills(es))
  }

  lemma {:induction false} ReachesOn(calm: bool, t: State, e: Event)
    requires Reaches(calm, t) && Enabled(t, e) && (calm ==> !Repeats(e) && !e.Kill?)
    ensures Reaches(calm, Apply(t, e))
  {
    var es :| Exec(Init(), es) == Some(t) && (calm ==> NoRepeats(es) && NoKills(es));
    Append(Init(), es, t, e);
    if calm {
      forall i | 0 <= i < |es + [e]| ensures !Repeats((es + [e])[i]) && !(es + [e])[i].Kill? {
        assert (es + [e])[i] == if i < |es| then es[i] else e;
      }
    }
  }

  /** The state in which attempt `k`, delivered in `t`, is at work. */
  function AtWork(t: State, k: nat): State {
    t.(status := Jobs.Running, mail := t.mail - multiset{Analyse(k)}, run := Some(Run(k, Working)), locked := true,
        tries := t.tries + 1)
  }

  lemma {:induction false} AttemptReaches(calm: bool, t: State, k: nat, o: Outcome)
    requires Reaches(calm, t) && Analyse(k) in t.mail && t.run.None? && !t.locked
    ensures Reaches(calm, AtWork(t, k)) && Reaches(calm, OnFinish(AtWork(t, k), o, FollowUp(o, k)))
  {
    ReachesOn(calm, t, Deliver(k));
    ReachesOn(calm, Apply(t, Deliver(k)), Start);
    ReachesOn(calm, AtWork(t, k), Finish(o));
  }

  lemma StartReached(calm: bool)
    ensures Reaches(calm, Init())
  {
    assert Exec(Init(), []) == Some(Init());
  }

  /** The state after an undisturbed client retry */
  function Retried(t: State): State {
    t.(status := Jobs.Queued, mail := t.mail + multiset{Analyse(0)}, sent := t.sent + {Analyse(0)}, tries := 0)
  }

  lemma {:induction false} ClientRetryReaches(t: State)
    requires Reaches(true, t) && t.status.Error? && t.checked == 0 && t.marked == 0
    ensures Reaches(true, Retried(t))
  {
    ReachesOn(true, t, ClientCheck);
    ReachesOn(true, t.(checked := 1), ClientMark);
    ReachesOn(true, t.(status := Jobs.Queued, marked := 1), ClientSend);
  }

  lemma StillQueued(t: State)
    requires Analyse(1) in t.mail
    ensures Analyse(1) in OnFinish(AtWork(Retried(t), 0), Completed, None).mail
  {
    assert t.mail + multiset{Analyse(0)} - multiset{Analyse(0)} == t.mail;
  }

  lemma {:induction false} RetryOvertakes(t: State)
    requires Reaches(true, t) && t.status.Error? && t.run.None? && !t.locked && t.checked == 0 && t.marked == 0
    requires Analyse(1) in t.mail
    ensures exists u :: Reaches(true, u) && u.status.Done? && CanLeave(u, Jobs.Done)
  {
    ClientRetryReaches(t);
    AttemptReaches(true, Retried(t), 0, Completed);
    StillQueued(t);
    MailLeaves(OnFinish(AtWork(Retried(t), 0), Completed, None), 1, Jobs.Done);
  }

  /** A client retry between a failed attempt and its Celery retry: the job reaches "done" with the
      Celery retry still queued, and "done" is then not final. */
  lemma {:induction false} OverlappingRetryReopensDone()
    ensures exists t :: Reaches(true, t) && t.status.Done? && CanLeave(t, Jobs.Done)
  {
    StartReached(true);
    AttemptReaches(true, Init(), 0, Raised);
    var failed := OnFinish(AtWork(Init(), 0), Raised, FollowUp(Raised, 0));
    ReachesOn(true, failed, Release);
    RetryOvertakes(Apply(failed, Release));
  }

  /** A client retry in the moment between the last status write of an attempt and its release of the
      lock: the new message is skipped as a duplicate and the job stays "queued" for ever. */
  lemma {:induction false} HastyRetryStaysQueued()
    ensures exists t :: Reaches(true, t) && t.status.Queued? && !CanLeave(t, Jobs.Queued)
  {
    StartReached(true);
    AttemptReaches(true, Init(), 0, TimedOut);
    var failed := OnFinish(AtWork(Init(), 0), TimedOut, None);
    ClientRetryReaches(failed);
    var retried := Retried(failed);
    ReachesOn(true, retried, Deliver(0));
    assert retried.mail - multiset{Analyse(0)} == multiset{};
    FinalIffAtRest(Apply(retried, Deliver(0)));
  }

  /** An outcome report reads "done"; the pending Celery retry then runs, pauses and is rejected by a human;
      and the report writes "done" back over the rejection. */
  lemma {:induction false} StaleReportUndoesRejection()
    ensures exists t :: Reaches(true, t) && t.status.Rejected? && AtRest(t.(dones := 0)) && CanLeave(t, Jobs.Rejected)
  {
    StartReached(true);
    AttemptReaches(true, Init(), 0, Raised);
    var failed := OnFinish(AtWork(Init(), 0), Raised, FollowUp(Raised, 0));
    ReachesOn(true, failed, Release);
    ClientRetryReaches(Apply(failed, Release));
    var retried := Retried(Apply(failed, Release));
    AttemptReaches(true, retried, 0, Completed);
    StillQueued(Apply(failed, Release));
    assert retried.mail - multiset{Analyse(0)} == multiset{Analyse(1)};
    ReportReaches(OnFinish(AtWork(retried, 0), Completed, None));
  }

  lemma {:induction false} ReportReaches(done: State)
    requires Reaches(true, done) && done.status.Done? && done.mail == multiset{Analyse(1)}
    requires done.run == Some(Run(0, Reported)) && done.checked == 0 && done.marked == 0 && done.rejects == 0
    ensures exists t :: Reaches(true, t) && t.status.Rejected? && AtRest(t.(dones := 0)) && CanLeave(t, Jobs.Rejected)
  {
    ReachesOn(true, done, OutcomeRead);
    ReachesOn(true, Apply(done, OutcomeRead), Release);
    RejectionReaches(done.(dones := done.dones + 1, run := None, locked := false));
  }

  lemma {:induction false} RejectionReaches(free: State)
    requires Reaches(true, free) && free.mail == multiset{Analyse(1)} && free.run.None? && !free.locked
    requires free.dones > 0 && free.checked == 0 && free.marked == 0 && free.rejects == 0
    ensures exists t :: Reaches(true, t) && t.status.Rejected? && AtRest(t.(dones := 0)) && CanLeave(t, Jobs.Rejected)
  {
    AttemptReaches(true, free, 1, Paused);
    assert AtWork(free, 1).mail == multiset{} && multiset{} + multiset{Resume} == multiset{Resume};
    assert AtWork(free, 1).mail + multiset{Resume} == multiset{Resume};
    var paused := AtWork(free, 1).(status := Jobs.PendingHuman, run := Some(Run(1, Reported)),
        mail := multiset{Resume}, sent := free.sent + {Resume});
    assert OnFinish(AtWork(free, 1), Paused, Some(Resume)) == paused;
    ReachesOn(true, paused, Settle(false));
    var rejected := paused.(status := Jobs.Rejected, mail := multiset{});
    assert multiset{Resume} - multiset{Resume} == multiset{};
    LeavesVia(rejected, OutcomeWrite(true), Jobs.Rejected);
  }

  // ---- Killed workers ----

  /** An attempt at work in an orderly job */
  ghost predicate OrderlyAtWork(s: State) {
    Inv(s) && s.run.Some? && s.run.value.phase.Working?
  }

  /** Past the hard limit the message is acknowledged: whenever an orderly attempt at work is killed so,
      the job stays "running" for ever. */
  lemma {:induction false} HardKillStaysRunning(s: State)
    requires OrderlyAtWork(s)
    ensures Apply(s, Kill(false)).status.Running? && !CanLeave(Apply(s, Kill(false)), Jobs.Running)
  {
    FinalIffAtRest(Apply(s, Kill(false)));
  }

  /** A lost worker's message comes back.  Delivered while the dead lock lives it is skipped, and the job
      stays "running" for ever; delivered after the lock has expired it starts a new attempt. */
  lemma {:induction false} LostWorkerRecoversIffLockExpired(s: State, expired: bool)
    requires OrderlyAtWork(s)
    ensures
      var k, lost := s.run.value.attempt, Apply(s, Kill(true));
      var found := if expired then Apply(lost, ExpireLock) else lost;
      && Enabled(found, Deliver(k))
      && (CanLeave(Apply(found, Deliver(k)), Jobs.Running) <==> expired)
      && (expired ==> Apply(found, Deliver(k)).run == Some(Run(k, Acquired)))
  {
    var k, lost := s.run.value.attempt, Apply(s, Kill(true));
    assert lost.mail == multiset{Analyse(k)} && lost.mail - multiset{Analyse(k)} == multiset{};
    var found := if expired then Apply(lost, ExpireLock) else lost;
    FinalIffAtRest(Apply(found, Deliver(k)));
  }

  /** Some run reaches such a job. */
  lemma {:induction false} CrashStaysRunning()
    ensures exists t :: Reaches(false, t) && t.status.Running? && !CanLeave(t, Jobs.Running)
  {
    StartReached(false);
    AttemptReaches(false, Init(), 0, Completed);
    var working := AtWork(Init(), 0);
    ReachesOn(false, working, Kill(true));
    var lost := Apply(working, Kill(true));
    ReachesOn(false, lost, Deliver(0));
    assert lost.mail - multiset{Analyse(0)} == multiset{};
    FinalIffAtRest(Apply(lost, Deliver(0)));
  }

  // ---- Which jobs are left behind ----

  predicate Unreported(run: Option<Run>) {
    run.Some? && !run.value.phase.Reported?
  }

  /** Whether "queued" is left behind after event `e`, if it was before it.  Two things leave it behind: a
      delivery that finds the lock taken by an attempt past its report or by a dead worker, and the kill of
      an attempt that has not reported.  Any later delivery or settling status decides anew. */
  predicate LeavesQueued(s: State, e: Event, was: bool) {
    match e
    case Deliver(_) => s.status.Queued? && s.locked && !Unreported(s.run)
    case Kill(_) => was || (s.status.Queued? && Unreported(s.run))
    case Settle(_) | OutcomeWrite(_) => false
    case _ => was
  }

  /** Whether "running" is: by the kill of the attempt at work, until the next status write. */
  predicate LeavesRunning(s: State, e: Event, was: bool) {
    match e
    case Kill(_) => was || (s.status.Running? && s.run.Some? && s.run.value.phase.Working?)
    case Start | Finish(_) | Settle(_) | ClientMark | OutcomeWrite(_) => false
    case _ => was
  }

  predicate LeftQueued(s: State, es: seq<Event>, was: bool)
    requires Exec(s, es).Some?
    decreases |es|
  {
    if es == [] then was else LeftQueued(Apply(s, es[0]), es[1..], LeavesQueued(s, es[0], was))
  }

  predicate LeftRunning(s: State, es: seq<Event>, was: bool)
    requires Exec(s, es).Some?
    decreases |es|
  {
    if es == [] then was else LeftRunning(Apply(s, es[0]), es[1..], LeavesRunning(s, es[0], was))
  }

  /** A "queued" job that is not left behind still has work under way. */
  ghost predicate QueuedOk(s: State, was: bool) {
    && (was ==> s.status.Queued? && !Unreported(s.run))
    && (s.status.Queued? && !was ==> s.mail != multiset{} || s.marked > 0 || Unreported(s.run))
  }

  lemma QueuedStep(s: State, e: Event, was: bool)
    requires QueuedOk(s, was) && Enabled(s, e)
    ensures QueuedOk(Apply(s, e), LeavesQueued(s, e, was))
  {
  }

  ghost predicate RunningOk(s: State, was: bool) {
    && (s.run.Some? ==> s.locked) && (was ==> s.status.Running?)
    && (s.status.Running? && !was ==> s.run.Some? && s.run.value.phase.Working?)
  }

  lemma {:induction false} QueuedHolds(s: State, es: seq<Event>, was: bool)
    requires QueuedOk(s, was) && Exec(s, es).Some?
    ensures QueuedOk(Exec(s, es).value, LeftQueued(s, es, was))
    decreases |es|
  {
    if es == [] {
    } else {
      QueuedStep(s, es[0], was);
      QueuedHolds(Apply(s, es[0]), es[1..], LeavesQueued(s, es[0], was));
    }
  }

  lemma {:induction false} RunningHolds(s: State, es: seq<Event>, was: bool)
    requires RunningOk(s, was) && Exec(s, es).Some?
    ensures RunningOk(Exec(s, es).value, LeftRunning(s, es, was))
    decreases |es|
  {
    if es == [] {
    } else {
      RunningHolds(Apply(s, es[0]), es[1..], LeavesRunning(s, es[0], was));
    }
  }

  lemma {:induction false} PendingHolds(s: State, es: seq<Event>)
    requires s.status.PendingHuman? ==> Resume in s.mail
    requires Exec(s, es).Some?
    ensures Exec(s, es).value.status.PendingHuman? ==> Resume in Exec(s, es).value.mail
    decreases |es|
  {
    if es == [] {
    } else {
      PendingHolds(Apply(s, es[0]), es[1..]);
    }
  }

  /** In every run, with any kills, repeated messages and clients: a job at rest is "queued" exactly when
      its last delivery or a kill left it so, "running" exactly when its attempt was killed at work, and
      settled otherwise. */
  lemma {:induction false} UnsettledAtRestExactly(es: seq<Event>)
    requires Exec(Init(), es).Some? && AtRest(Exec(Init(), es).value)
    ensures Exec(Init(), es).value.status.Queued? <==> LeftQueued(Init(), es, false)
    ensures Exec(Init(), es).value.status.Running? <==> LeftRunning(Init(), es, false)
    ensures Settled(Exec(Init(), es).value.status) <==>
        !LeftQueued(Init(), es, false) && !LeftRunning(Init(), es, false)
  {
    assert Init().mail[Analyse(0)] == 1;
    QueuedHolds(Init(), es, false);
    RunningHolds(Init(), es, false);
    PendingHolds(Init(), es);
  }

  /** Whether the last delivery found "queued" and the lock held by an attempt that has reported and not
      yet released, and no settling status has been written since. */
  predicate Swallowed(s: State, es: seq<Event>, was: bool)
    requires Exec(s, es).Some?
    decreases |es|
  {
    if es == [] then was else Swallowed(Apply(s, es[0]), es[1..], Swallows(s, es[0], was))
  }

  predicate Swallows(s: State, e: Event, was: bool) {
    match e
    case Deliver(_) => s.status.Queued? && s.run.Some? && s.run.value.phase.Reported?
    case Settle(_) | OutcomeWrite(_) => false
    case _ => was
  }

  lemma {:induction false} WithoutKillsSwallowed(s: State, es: seq<Event>, was: bool)
    requires NoKills(es) && Exec(s, es).Some? && s.locked == s.run.Some?
    ensures LeftQueued(s, es, was) == Swallowed(s, es, was)
    ensures RunningOk(s, false) ==> RunningOk(Exec(s, es).value, false)
    decreases |es|
  {
    if es == [] {
    } else {
      assert !es[0].Kill?;
      forall i | 0 <= i < |es[1..]| ensures !es[1..][i].Kill? { assert es[1..][i] == es[i + 1]; }
      WithoutKillsSwallowed(Apply(s, es[0]), es[1..], LeavesQueued(s, es[0], was));
    }
  }

  /** Without kills, and whatever the clients and the broker do, a job at rest is settled, or "queued"
      exactly when its last delivery came between an attempt's report and its release. */
  lemma {:induction false} SwallowedRetryExactly(es: seq<Event>)
    requires NoKills(es) && Exec(Init(), es).Some? && AtRest(Exec(Init(), es).value)
    ensures Exec(Init(), es).value.status.Queued? <==> Swallowed(Init(), es, false)
    ensures Settled(Exec(Init(), es).value.status) <==> !Swallowed(Init(), es, false)
  {
    UnsettledAtRestExactly(es);
    WithoutKillsSwallowed(Init(), es, false);
  }

  /** The same from any state in which "running" belongs to an attempt at work and "pending_human" to a
      resume to come: only "queued" can be left behind. */
  lemma {:induction false} OnlyQueuedIsLeftBehind(s: State, es: seq<Event>)
    requires s.status.Running? ==> s.run.Some? && s.run.value.phase.Working?
    requires s.status.PendingHuman? ==> Resume in s.mail
    requires s.run.Some? ==> s.locked
    requires NoKills(es) && Exec(s, es).Some?
    ensures AtRest(Exec(s, es).value) ==> Settled(Exec(s, es).value.status) || Exec(s, es).value.status.Queued?
    decreases |es|
  {
    if es == [] {
    } else {
      assert !es[0].Kill?;
      forall i | 0 <= i < |es[1..]| ensures !es[1..][i].Kill? { assert es[1..][i] == es[i + 1]; }
      OnlyQueuedIsLeftBehind(Apply(s, es[0]), es[1..]);
    }
  }
}
