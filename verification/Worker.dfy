/** worker.py: the two Celery tasks, executed without interference, and how that execution relates to
    the interleaved machines. */
module Worker {
  import opened RedisStore
  import opened QueueControl
  import opened Lifecycle
  import Jobs
  import Hitl
  import Admission
  import P = Protocol

  const DLQ_LIMIT := 500
  const RETRY_DELAY := 30.0
  const TIMEOUT_TEXT := "Job timeout after 5 minutes"

  /** An entry of the dead-letter list */
  datatype Letter = Letter(job: JobId, tenant: TenantId, error: string, at: real)

  /** A message handed to the broker, to be delivered after `delay`. */
  datatype Posted = Posted(job: JobId, message: Message, delay: real)

  /** When an execution takes the lock, writes "running", writes its outcome and cleans up. */
  datatype Instants = Instants(start: real, begun: real, ended: real, over: real)

  /** LPUSH then LTRIM */
  function Pushed(dlq: seq<Letter>, l: Letter): seq<Letter> {
    if |dlq| < DLQ_LIMIT then [l] + dlq else [l] + dlq[..DLQ_LIMIT - 1]
  }

  /** What an attempt that ended in `o` leaves in the record: done, waiting, or open to a retry. */
  predicate Records(status: Jobs.JobStatus, o: Outcome) {
    && (status.Done? <==> o.Completed?)
    && (status.PendingHuman? <==> o.Paused?)
    && (status.Error? <==> o.Degraded? || o.TimedOut? || o.Raised?)
  }

  /** What it archives: the text of the soft limit, or that of the exception. */
  function Archived(dlq: seq<Letter>, job: JobId, tenant: TenantId, o: Outcome, exc: string, at: real): seq<Letter> {
    match o
    case TimedOut => Pushed(dlq, Letter(job, tenant, "Job timeout after 5 minutes", at))
    case Raised => Pushed(dlq, Letter(job, tenant, exc, at))
    case _ => dlq
  }

  class Worker {
    const queue: Queue
    const store: Jobs.JobStore
    const desk: Hitl.Desk
    var locks: map<JobId, Entry<()>>
    var dlq: seq<Letter>
    var outbox: seq<Posted>

    constructor (queue: Queue, store: Jobs.JobStore, desk: Hitl.Desk)
      ensures this.queue == queue && this.store == store && this.desk == desk
      ensures locks == map[] && dlq == [] && outbox == []
    {
      this.queue, this.store, this.desk := queue, store, desk;
      locks, dlq, outbox := map[], [], [];
    }

    method AcquireJobLock(job: JobId, now: real) returns (taken: bool)
      modifies this`locks
      ensures taken == !Live(old(locks), job, now)
      ensures locks == if taken then SetEx(old(locks), job, (), now, 400.0) else old(locks)
      ensures locks == AfterLockCall(old(locks), Acquire(job, now))
    {
      taken := !Live(locks, job, now);
      if taken {
        locks := SetEx(locks, job, (), now, P.DEFAULTS.lockTtl);
      }
    }

    method ReleaseJobLock(job: JobId)
      modifies this`locks
      ensures locks == old(locks) - {job} == AfterLockCall(old(locks), Free(job))
    {
      locks := locks - {job};
    }

    method PushToDlq(job: JobId, tenant: TenantId, error: string, now: real)
      modifies this`dlq
      ensures dlq == Pushed(old(dlq), Letter(job, tenant, error, now))
    {
      dlq := [Letter(job, tenant, error, now)] + dlq;
      if |dlq| > DLQ_LIMIT {
        dlq := dlq[..DLQ_LIMIT];
      }
    }

    /** One execution whose call of run_analysis ends in `outcome`.  Finding the lock taken it changes
        nothing; otherwise it writes "running" and the status of its outcome, posts at most one
        follow-up, archives exactly the failures that were raised, and on every exit releases the lock
        and decrements the depths once. */
    method ProcessAnalysisJob(job: JobId, tenant: TenantId, attempt: nat, outcome: Outcome, exc: string,
        rid: Hitl.ReqId, at: Instants)
      returns (ran: bool)
      modifies this, queue, store, desk`links
      ensures ran == !Live(old(locks), job, at.start)
      ensures !ran ==> locks == old(locks) && dlq == old(dlq) && outbox == old(outbox)
                       && queue.depths == old(queue.depths) && store.records == old(store.records) &&
                           desk.links == old(desk.links)
      ensures store.index == old(store.index)
      ensures ran ==> locks == old(locks) - {job}
      ensures ran ==> queue.depths == Decremented(old(queue.depths), tenant, at.over)
      ensures ran ==>
          store.records == Jobs.Updated(Jobs.Updated(old(store.records), job, Jobs.Running, at.begun),
                                        job, StatusAfter(outcome), at.ended)
      ensures ran && Live(old(store.records), job, at.begun) && at.begun <= at.ended < at.begun + Jobs.JOB_TTL ==>
          Live(store.records, job, at.ended) && Records(store.records[job].value.status, outcome)
      ensures ran ==> outbox == old(outbox) + PostedFor(job, FollowUp(outcome, attempt), desk.timeout)
      ensures ran ==>
          outbox == old(outbox)
                    + if outcome.Paused? then [Posted(job, Resume, desk.timeout)]
                      else if outcome.Raised? && attempt < 2 then [Posted(job, Analyse(attempt + 1), 30.0)] else []
      ensures ran ==> dlq == Archived(old(dlq), job, tenant, outcome, exc, at.ended)
      ensures ran ==>
          desk.links == if outcome.Paused? then SetEx(old(desk.links), job, rid, at.ended, desk.timeout)
          else old(desk.links)
    {
      ran := AcquireJobLock(job, at.start);
      if ran {
        RunAndReport(job, tenant, attempt, outcome, exc, rid, at);
        ReleaseJobLock(job);
        queue.DecrementQueue(tenant, at.over);
      }
    }

    /** The part under `try` and its two handlers. */
    method RunAndReport(job: JobId, tenant: TenantId, attempt: nat, outcome: Outcome, exc: string, rid: Hitl.ReqId,
        at: Instants)
      modifies this`dlq, this`outbox, store`records, desk`links
      ensures store.records == Jobs.Updated(Jobs.Updated(old(store.records), job, Jobs.Running, at.begun), job,
          StatusAfter(outcome), at.ended)
      ensures Live(old(store.records), job, at.begun) && at.begun <= at.ended < at.begun + Jobs.JOB_TTL ==>
          Live(store.records, job, at.ended) && Records(store.records[job].value.status, outcome)
      ensures outbox == old(outbox) + PostedFor(job, FollowUp(outcome, attempt), desk.timeout)
      ensures outbox == old(outbox)
                        + if outcome.Paused? then [Posted(job, Resume, desk.timeout)]
                          else if outcome.Raised? && attempt < 2 then [Posted(job, Analyse(attempt + 1), 30.0)] else []
      ensures dlq == Archived(old(dlq), job, tenant, outcome, exc, at.ended)
      ensures desk.links == if outcome.Paused? then SetEx(old(desk.links), job, rid, at.ended, desk.timeout)
          else old(desk.links)
    {
      store.UpdateJob(job, Jobs.Running, at.begun);
      match outcome {
        case Paused =>
          store.UpdateJob(job, Jobs.PendingHuman, at.ended);
          store.UpdateJob(job, Jobs.PendingHuman, at.ended);
          outbox := outbox + [Posted(job, Resume, desk.timeout)];
          desk.links := SetEx(desk.links, job, rid, at.ended, desk.timeout);
        case Completed =>
          store.UpdateJob(job, Jobs.Done, at.ended);
        case Degraded =>
          store.UpdateJob(job, Jobs.Error, at.ended);
        case TimedOut =>
          store.UpdateJob(job, Jobs.Error, at.ended);
          PushToDlq(job, tenant, TIMEOUT_TEXT, at.ended);
        case Raised =>
          store.UpdateJob(job, Jobs.Error, at.ended);
          PushToDlq(job, tenant, exc, at.ended);
          if attempt < MAX_RETRIES {
            outbox := outbox + [Posted(job, Analyse(attempt + 1), RETRY_DELAY)];
          }
      }
    }

    /** The timed resume reads the verdict once and settles the job. */
    method ResumeHitlJob(job: JobId, rid: Hitl.ReqId, decision: string, now: real) returns (r: Hitl.Resolution)
      modifies store
      ensures r == Hitl.Resolve(desk.approvals, rid, now, desk.fallbackApprove, decision)
      ensures store.records == Jobs.Updated(old(store.records), job, if r.approved then Jobs.Done
          else Jobs.Rejected, now)
      ensures store.index == old(store.index)
      ensures Live(old(store.records), job, now) ==>
          Live(store.records, job, now) && (store.records[job].value.status.Done? <==> r.approved) &&
          (store.records[job].value.status.Rejected? <==> !r.approved)
    {
      r := desk.ResolveHitl(rid, decision, now);
      store.UpdateJob(job, if r.approved then Jobs.Done else Jobs.Rejected, now);
    }
  }

  /** The resume waits for the configured human timeout, a retry for the default delay. */
  function PostedFor(job: JobId, m: Option<Message>, timeout: real): seq<Posted> {
    if m.None? then [] else [Posted(job, m.value, if m.value.Resume? then timeout else RETRY_DELAY)]
  }

  // ---- From a verdict to the status ----

  /** The status in which resume_hitl_job leaves a live job */
  function StatusAfterResume(records: Jobs.Records, job: JobId, r: Hitl.Resolution, now: real): Jobs.JobStatus
    requires Live(records, job, now)
  {
    Jobs.Updated(records, job, if r.approved then Jobs.Done else Jobs.Rejected, now)[job].value.status
  }

  /** `r` honours a verdict: the job is done exactly when it approves, under the reviewer's name, with the
      decision it approves or the reason it gives. */
  predicate Honours(r: Hitl.Resolution, approve: bool, reviewer: string, comment: string, decision: string) {
    && r.approved == approve && r.reviewer == reviewer && r.comment == comment
    && r.finalDecision == if approve then decision else "[REJECTED by " + reviewer + "] " + comment
  }

  /** An accepted approve or reject call, and any answer from the dashboard, read by the resume within the
      verdict's hour, settles the job as the human said. */
  lemma {:induction false} VerdictSettlesJob(
    db: Hitl.Approvals, rid: Hitl.ReqId, approve: bool, reviewer: string, comment: string, given: real,
    later: real, fallback: bool, decision: string, records: Jobs.Records, job: JobId)
    requires comment != "" && given <= later < given + 3600.0 && Live(records, job, later)
    ensures
      var r := Hitl.Resolve(Hitl.Decided(db, rid, Hitl.VerdictOf(approve, reviewer, Some(comment)), given), rid,
                            later, fallback, decision);
      Honours(r, approve, reviewer, comment, decision) && (StatusAfterResume(records, job, r, later).Done? <==> approve)
    ensures
      var r := Hitl.Resolve(Hitl.Decided(db, rid, Hitl.DashboardVerdict(approve, Some(comment)), given), rid,
                            later, fallback, decision);
      Honours(r, approve, "dashboard", comment, decision) &&
          (StatusAfterResume(records, job, r, later).Done? <==> approve)
  {
  }

  // ---- From an outcome to a retry ----

  /** A client that retries a job right after an execution of it is served exactly when that execution was
      degraded, timed out or raised; a job that is done or waits for a human is not run again. */
  lemma RetryAfterExecution(
    records: Jobs.Records, job: JobId, tenant: TenantId, o: Outcome, begun: real, ended: real, at: real)
    requires Live(records, job, begun) && begun <= ended <= at < ended + Jobs.JOB_TTL && ended < begun + Jobs.JOB_TTL
    requires records[job].value.tenant == tenant
    ensures
      var after := Jobs.Updated(Jobs.Updated(records, job, Jobs.Running, begun), job, StatusAfter(o), ended);
      Admission.RetryAnswer(after, job, tenant, at)
      == if o.Degraded? || o.TimedOut? || o.Raised? then Admission.Requeued else Admission.WrongStatus
  {
  }

  /** The events of `Lifecycle` that the other tasks and endpoints stand for: the resume leaves done or
      rejected, and a client retry, when the status allows it, leaves "queued" and one new message. */
  lemma {:induction false} OthersMatch(s: Lifecycle.State, approved: bool)
    ensures Resume in s.mail ==>
        Lifecycle.Apply(s, Settle(approved)).status == if approved then Jobs.Done else Jobs.Rejected
    ensures Lifecycle.Enabled(s, ClientCheck) <==> s.status.Error?
    ensures s.status.Error? ==>
        Lifecycle.Exec(s, [ClientCheck, ClientMark, ClientSend])
        == Some(s.(status := Jobs.Queued, mail := s.mail + multiset{Analyse(0)}, sent := s.sent + {Analyse(0)},
            tries := 0))
  {
    if s.status.Error? {
      var s1 := Lifecycle.Apply(s, ClientCheck);
      var s2 := Lifecycle.Apply(s1, ClientMark);
      assert Lifecycle.Exec(s2, [ClientSend]) == Some(Lifecycle.Apply(s2, ClientSend));
      assert Lifecycle.Exec(s1, [ClientMark, ClientSend]) == Lifecycle.Exec(s2, [ClientSend]);
      assert [ClientCheck, ClientMark, ClientSend][1..] == [ClientMark, ClientSend];
    }
  }

  // ---- Calls on the lock ----

  datatype LockCall = Acquire(job: JobId, at: real) | Free(job: JobId)

  function AfterLockCall(locks: map<JobId, Entry<()>>, call: LockCall): map<JobId, Entry<()>> {
    match call
    case Acquire(job, now) => if Live(locks, job, now) then locks else SetEx(locks, job, (), now, P.DEFAULTS.lockTtl)
    case Free(job) => locks - {job}
  }

  function AfterLockCalls(locks: map<JobId, Entry<()>>, calls: seq<LockCall>): map<JobId, Entry<()>>
    decreases |calls|
  {
    if calls == [] then locks else AfterLockCalls(AfterLockCall(locks, calls[0]), calls[1..])
  }

  /** No call frees the job's lock, and none asks for it after `until`. */
  ghost predicate Undisturbed(calls: seq<LockCall>, job: JobId, until: real) {
    forall i | 0 <= i < |calls| && calls[i].job == job :: calls[i].Acquire? && calls[i].at < until
  }

  lemma {:induction false} EntryStays(locks: map<JobId, Entry<()>>, job: JobId, until: real, calls: seq<LockCall>)
    requires job in locks && locks[job].expiry == Some(until) && Undisturbed(calls, job, until)
    ensures job in AfterLockCalls(locks, calls) && AfterLockCalls(locks, calls)[job] == locks[job]
    decreases |calls|
  {
    if calls == [] {
    } else {
      assert calls[0].job == job ==> calls[0].Acquire? && calls[0].at < until;
      assert Undisturbed(calls[1..], job, until) by {
        forall i | 0 <= i < |calls[1..]| && calls[1..][i].job == job
          ensures calls[1..][i].Acquire? && calls[1..][i].at < until
        {
          assert calls[1..][i] == calls[i + 1];
        }
      }
      EntryStays(AfterLockCall(locks, calls[0]), job, until, calls[1..]);
    }
  }

  /** A lock taken at `t` is refused to every later call exactly until second `t + 400`, whatever other
      jobs do in between, unless it is freed; so an execution, which the hard limit ends by `t + 360`, is
      never joined by another. */
  lemma {:induction false} LockHeldExactly(
    locks: map<JobId, Entry<()>>, job: JobId, t: real, calls: seq<LockCall>, at: real)
    requires !Live(locks, job, t) && Undisturbed(calls, job, t + 400.0)
    ensures Live(AfterLockCalls(AfterLockCall(locks, Acquire(job, t)), calls), job, at) <==> at < t + 400.0
    ensures at <= t + P.DEFAULTS.hardLimit ==>
        Live(AfterLockCalls(AfterLockCall(locks, Acquire(job, t)), calls), job, at)
  {
    EntryStays(AfterLockCall(locks, Acquire(job, t)), job, t + 400.0, calls);
  }

  // ---- The dead-letter list ----

  function PushAll(letters: seq<Letter>): seq<Letter> {
    if letters == [] then [] else Pushed(PushAll(letters[..|letters| - 1]), letters[|letters| - 1])
  }

  /** After any pushes the list is the newest 500 letters, newest first. */
  lemma {:induction false} DlqHoldsNewest(letters: seq<Letter>)
    ensures |PushAll(letters)| == if |letters| < 500 then |letters| else 500
    ensures forall i | 0 <= i < |PushAll(letters)| :: PushAll(letters)[i] == letters[|letters| - 1 - i]
  {
    if letters == [] {
    } else {
      DlqHoldsNewest(letters[..|letters| - 1]);
    }
  }

  // ---- Undisturbed executions of the interleaved machines ----

  /** One undisturbed attempt of `Lifecycle` does to the status and the messages of a live job what the
      contract of ProcessAnalysisJob says the task does to its record and its outbox. */
  lemma {:induction false} AttemptMatches(
    s: Lifecycle.State, k: nat, o: Outcome, records: Jobs.Records, job: JobId, begun: real, ended: real, timeout: real)
    requires s.run.None? && !s.locked && Analyse(k) in s.mail
    requires Live(records, job, begun) && begun <= ended < begun + Jobs.JOB_TTL && records[job].value.status == s.status
    ensures Lifecycle.Exec(s, [Deliver(k), Start, Finish(o), Release]).Some?
    ensures
      var t := Lifecycle.Exec(s, [Deliver(k), Start, Finish(o), Release]).value;
      var records' := Jobs.Updated(Jobs.Updated(records, job, Jobs.Running, begun), job, StatusAfter(o), ended);
      && Live(records', job, ended) && records'[job].value.status == t.status
      && t.mail == s.mail - multiset{Analyse(k)} + Messages(PostedFor(job, FollowUp(o, k), timeout))
      && t.run.None? && !t.locked
  {
    AttemptRuns(s, k, o);
    RecordFollows(records, job, StatusAfter(o), begun, ended);
    var next := FollowUp(o, k);
    assert Messages(PostedFor(job, next, timeout)) == if next.Some? then multiset{next.value} else multiset{};
  }

  lemma {:induction false} AttemptRuns(s: Lifecycle.State, k: nat, o: Outcome)
    requires s.run.None? && !s.locked && Analyse(k) in s.mail
    ensures Lifecycle.Exec(s, [Deliver(k), Start, Finish(o), Release]).Some?
    ensures
      var t := Lifecycle.Exec(s, [Deliver(k), Start, Finish(o), Release]).value;
      && t.status == StatusAfter(o) && t.run.None? && !t.locked
      && t.mail == s.mail - multiset{Analyse(k)} + (if FollowUp(o, k).Some? then multiset{FollowUp(o, k).value}
          else multiset{})
  {
    var s1 := Lifecycle.Apply(s, Deliver(k));
    var s2 := Lifecycle.Apply(s1, Start);
    var s3 := Lifecycle.Apply(s2, Finish(o));
    assert Lifecycle.Exec(s3, [Release]) == Some(Lifecycle.Apply(s3, Release));
    assert Lifecycle.Exec(s2, [Finish(o), Release]) == Lifecycle.Exec(s3, [Release]);
    assert Lifecycle.Exec(s1, [Start, Finish(o), Release]) == Lifecycle.Exec(s2, [Finish(o), Release]);
    assert [Deliver(k), Start, Finish(o), Release][1..] == [Start, Finish(o), Release];
  }

  lemma RecordFollows(records: Jobs.Records, job: JobId, status: Jobs.JobStatus, begun: real, ended: real)
    requires Live(records, job, begun) && begun <= ended < begun + Jobs.JOB_TTL
    ensures
      var records' := Jobs.Updated(Jobs.Updated(records, job, Jobs.Running, begun), job, status, ended);
      Live(records', job, ended) && records'[job].value.status == status
  {
  }

  function Messages(posted: seq<Posted>): multiset<Message> {
    if posted == [] then multiset{} else multiset{posted[0].message} + Messages(posted[1..])
  }

  /** The commands of the `finally` block with nothing in between. */
  function FinallyCommands(s: P.State, r: P.RunId): P.State
    requires r in s.runs
  {
    TenantCommands(GlobalCommands(P.OnRelease(s, r), r), r)
  }

  function GlobalCommands(s: P.State, r: P.RunId): P.State
    requires r in s.runs
    ensures r in GlobalCommands(s, r).runs
  {
    var saw := P.OnReadGlobal(s, r);
    if saw.runs[r].phase.SawGlobal? then P.OnDecrGlobal(saw, r) else saw
  }

  function TenantCommands(s: P.State, r: P.RunId): P.State
    requires r in s.runs
  {
    var saw := P.OnReadTenant(s, r);
    if saw.runs[r].phase.SawTenant? then P.OnDecrTenant(saw, r) else saw
  }

  lemma GlobalMatches(s: P.State, r: P.RunId)
    requires r in s.runs
    ensures GlobalCommands(s, r).depths == DecrIfPositive(s.depths, GlobalDepth, s.now)
    ensures GlobalCommands(s, r).locks == s.locks && GlobalCommands(s, r).now == s.now
    ensures GlobalCommands(s, r).runs == s.runs[r := s.runs[r].(phase := P.PastGlobal)]
  {
  }

  lemma TenantMatches(s: P.State, r: P.RunId)
    requires r in s.runs
    ensures TenantCommands(s, r).depths == DecrIfPositive(s.depths, TenantDepth(s.runs[r].tenant), s.now)
    ensures TenantCommands(s, r).locks == s.locks
    ensures TenantCommands(s, r).runs == s.runs[r := s.runs[r].(phase := P.Finished)]
  {
  }

  /** Undisturbed, the five commands of `Protocol` are the Celery task's cleanup. */
  lemma FinallyMatches(s: P.State, r: P.RunId)
    requires r in s.runs
    ensures FinallyCommands(s, r).depths == Decremented(s.depths, s.runs[r].tenant, s.now)
    ensures FinallyCommands(s, r).locks == s.locks - {s.runs[r].job}
    ensures FinallyCommands(s, r).runs == s.runs[r := s.runs[r].(phase := P.Finished)]
  {
    var released := P.OnRelease(s, r);
    GlobalMatches(released, r);
    TenantMatches(GlobalCommands(released, r), r);
  }

  /** Undisturbed, the three commands between creating and sending a job are increment_queue. */
  lemma CountingMatches(s: P.State, q: P.ReqId, j: JobId)
    requires q in s.requests && s.requests[q].phase == P.Created(j)
    ensures P.OnExpireTenant(P.OnIncrTenant(P.OnIncrGlobal(s, q), q), q).depths ==
        Incremented(s.depths, s.requests[q].tenant, s.now)
  {
  }

  /** Undisturbed, the two reads of `Protocol` under the settings the platform starts with pass exactly when
      check_backpressure allows the request. */
  lemma ChecksMatch(s: P.State, q: P.ReqId)
    requires q in s.requests && s.requests[q].phase.New?
    ensures
      var first := P.Apply(P.DEFAULTS, s, P.CheckGlobal(q));
      var global, tenant := Count(s.depths, GlobalDepth, s.now),
          Count(s.depths, TenantDepth(s.requests[q].tenant), s.now);
      && (first.requests[q].phase.Refused? <==> global >= 100)
      && (first.requests[q].phase.PassedGlobal? ==>
            var second := P.Apply(P.DEFAULTS, first, P.CheckTenant(q));
            && (second.requests[q].phase.Refused? <==> tenant >= 10)
            && (second.requests[q].phase.PassedTenant? <==> tenant < 10))
  {
  }

  /** Undisturbed, the SET of `Protocol` is acquire_job_lock_sync. */
  lemma LockMatches(s: P.State, r: P.RunId)
    requires r in s.runs
    ensures P.OnAcquire(P.DEFAULTS, s, r).locks == AfterLockCall(s.locks, Acquire(s.runs[r].job, s.now))
    ensures P.OnAcquire(P.DEFAULTS, s, r).runs[r].phase.InBody? <==> !Live(s.locks, s.runs[r].job, s.now)
  {
  }
}
