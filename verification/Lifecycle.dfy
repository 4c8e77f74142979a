/** worker.py with the retry and outcome endpoints of api/main.py: the life of one job as messages,
    attempts and status writes.  One optional `run` is enough because the lock admits one execution at a
    time; `Refinement` shows that the acts of every run of `Protocol` on a job are those of a run here. */
module Lifecycle {
  import opened RedisStore
  import opened Jobs

  const MAX_RETRIES := 2

  /** What the broker holds for the job. */
  datatype Message = Analyse(attempt: nat) | Resume

  /** How run_analysis ends: with status "done", with another status, waiting for a human, or by one of
      the two kinds of exception. */
  datatype Outcome = Completed | Degraded | Paused | TimedOut | Raised

  datatype Phase = Acquired | Working | Reported

  datatype Run = Run(attempt: nat, phase: Phase)

  function StatusAfter(o: Outcome): JobStatus {
    match o
    case Completed => Done
    case Paused => PendingHuman
    case Degraded | TimedOut | Raised => Error
  }

  /** The message an attempt leaves behind. */
  function FollowUp(o: Outcome, attempt: nat): Option<Message> {
    if o.Paused? then Some(Resume)
    else if o.Raised? && attempt < MAX_RETRIES then Some(Analyse(attempt + 1))
    else None
  }

  /** `checked` and `marked` count the client retries that have read "error" and those that have also
      written "queued".  `dones` and `rejects` count the outcome reports that have read the job in
      that status and will write their copy back.  `sent` (every message ever sent) and `tries` (attempts since the last
      submission) are history. */
  datatype StateOf<M, S> = State(
    status: JobStatus, mail: M, run: Option<Run>, locked: bool,
    checked: nat, marked: nat, dones: nat, rejects: nat, sent: S, tries: nat)

  type State = StateOf<multiset<Message>, set<Message>>

  /** Right after `/analyze` has answered. */
  function Init(): State {
    StateOf.State(Queued, multiset{Analyse(0)}, None, false, 0, 0, 0, 0, {Analyse(0)}, 0)
  }

  datatype Event =
    | Deliver(attempt: nat) | Start | Finish(outcome: Outcome) | Release
    | Settle(approved: bool)
    | ClientCheck | ClientMark | ClientSend
    | OutcomeRead | OutcomeWrite(approved: bool)
    | Kill(redelivered: bool) | ExpireLock | Redeliver(message: Message)

  predicate Enabled(s: State, e: Event) {
    match e
    case Deliver(k) => Analyse(k) in s.mail
    case Start => s.run.Some? && s.run.value.phase.Acquired?
    case Finish(_) => s.run.Some? && s.run.value.phase.Working?
    case Release => s.run.Some? && s.run.value.phase.Reported?
    case Settle(_) => Resume in s.mail
    case ClientCheck => s.status.Error?
    case ClientMark => s.checked > 0
    case ClientSend => s.marked > 0
    case OutcomeRead => s.status.Done? || s.status.Rejected?
    case OutcomeWrite(approved) => if approved then s.dones > 0 else s.rejects > 0
    case Kill(_) => s.run.Some?
    case ExpireLock => s.locked && s.run.None?
    case Redeliver(m) => m in s.sent
  }

  function Apply(s: State, e: Event): State
    requires Enabled(s, e)
  {
    match e
    case Deliver(k) =>
      s.(mail := s.mail - multiset{Analyse(k)},
         run := if s.locked then s.run else Some(Run(k, Acquired)),
         locked := true,
         tries := if s.locked then s.tries else s.tries + 1)
    case Start => s.(status := Running, run := Some(Run(s.run.value.attempt, Working)))
    case Finish(o) => OnFinish(s, o, FollowUp(o, s.run.value.attempt))
    case Release => s.(run := None, locked := false)
    case Settle(approved) => s.(status := if approved then Done else Rejected, mail := s.mail - multiset{Resume})
    case ClientCheck => s.(checked := s.checked + 1)
    case ClientMark => s.(status := Queued, checked := s.checked - 1, marked := s.marked + 1)
    case ClientSend =>
      s.(mail := s.mail + multiset{Analyse(0)}, marked := s.marked - 1, sent := s.sent + {Analyse(0)}, tries := 0)
    // the report stores the whole job as it read it
    case OutcomeRead =>
      s.(dones := s.dones + (if s.status.Done? then 1 else 0), rejects := s.rejects + (if s.status.Done? then 0 else 1))
    case OutcomeWrite(approved) =>
      s.(status := if approved then Done else Rejected,
         dones := s.dones - (if approved then 1 else 0), rejects := s.rejects - (if approved then 0 else 1))
    // a lost worker's message goes back to the queue; one past the hard limit was acknowledged
    case Kill(redelivered) =>
      s.(run := None, mail := if redelivered then s.mail + multiset{Analyse(s.run.value.attempt)} else s.mail)
    case ExpireLock => s.(locked := false)
    case Redeliver(m) => s.(mail := s.mail + multiset{m})
  }

  function OnFinish(s: State, o: Outcome, next: Option<Message>): State
    requires s.run.Some?
  {
    s.(status := StatusAfter(o),
       run := Some(Run(s.run.value.attempt, Reported)),
       mail := if next.Some? then s.mail + multiset{next.value} else s.mail,
       sent := if next.Some? then s.sent + {next.value} else s.sent)
  }

  /** The state after a sequence of events, if each was enabled in turn. */
  function Exec(s: State, es: seq<Event>): Option<State>
    decreases |es|
  {
    if es == [] then Some(s)
    else if Enabled(s, es[0]) then Exec(Apply(s, es[0]), es[1..])
    else None
  }

  // ---- When a status is final ----

  /** Nothing is under way that could still write another status. */
  predicate AtRest(s: State) {
    && s.mail == multiset{} && s.checked == 0 && s.marked == 0
    && (s.run.Some? ==> s.run.value.phase.Reported?)
    && (s.dones > 0 ==> s.status.Done?) && (s.rejects > 0 ==> s.status.Rejected?)
  }

  /** The broker repeats no message. */
  predicate NoRepeats(es: seq<Event>) {
    forall i | 0 <= i < |es| :: !Repeats(es[i])
  }

  predicate Repeats(e: Event) {
    e.Redeliver? || (e.Kill? && e.redelivered)
  }

  ghost predicate CanLeave(s: State, status: JobStatus) {
    exists es :: NoRepeats(es) && Exec(s, es).Some? && Exec(s, es).value.status != status
  }

  lemma {:induction false} RestIsFinal(s: State, es: seq<Event>)
    requires AtRest(s) && !s.status.Error? && NoRepeats(es) && Exec(s, es).Some?
    ensures Exec(s, es).value.status == s.status
    decreases |es|
  {
    if es == [] {
    } else {
      assert !Repeats(es[0]);
      forall i | 0 <= i < |es[1..]| ensures !Repeats(es[1..][i]) { assert es[1..][i] == es[i + 1]; }
      RestIsFinal(Apply(s, es[0]), es[1..]);
    }
  }

  lemma {:induction false} LeavesVia(s: State, e: Event, status: JobStatus)
    requires Enabled(s, e) && !Repeats(e)
    requires Apply(s, e).status != status || CanLeave(Apply(s, e), status)
    ensures CanLeave(s, status)
  {
    var rest: seq<Event> := [];
    if Apply(s, e).status == status {
      rest :| NoRepeats(rest) && Exec(Apply(s, e), rest).Some? && Exec(Apply(s, e), rest).value.status != status;
    }
    var es := [e] + rest;
    assert es[1..] == rest && Exec(s, es) == Exec(Apply(s, e), rest);
    forall i | 0 <= i < |es| ensures !Repeats(es[i]) { assert i > 0 ==> es[i] == rest[i - 1]; }
  }

  /** An attempt that has not reported yet can end in more than one way. */
  lemma RunLeaves(s: State, status: JobStatus)
    requires s.run.Some? && !s.run.value.phase.Reported?
    ensures CanLeave(s, status)
  {
    var working := if s.run.value.phase.Acquired? then Apply(s, Start) else s;
    LeavesVia(working, Finish(if status.Done? then TimedOut else Completed), status);
    if s.run.value.phase.Acquired? { LeavesVia(s, Start, status); }
  }

  lemma MailLeaves(s: State, k: nat, status: JobStatus)
    requires Analyse(k) in s.mail
    ensures CanLeave(s, status)
  {
    var noRun := if s.run.Some? then Apply(s, Kill(false)) else s;
    var free := if noRun.locked then Apply(noRun, ExpireLock) else noRun;
    RunLeaves(Apply(free, Deliver(k)), status);
    LeavesVia(free, Deliver(k), status);
    if noRun.locked { LeavesVia(noRun, ExpireLock, status); }
    if s.run.Some? { LeavesVia(s, Kill(false), status); }
  }

  lemma ClientLeaves(s: State, status: JobStatus)
    requires s.checked > 0 || s.marked > 0
    ensures CanLeave(s, status)
  {
    var marked := if s.marked > 0 then s else Apply(s, ClientMark);
    MailLeaves(Apply(marked, ClientSend), 0, status);
    LeavesVia(marked, ClientSend, status);
    if s.marked == 0 { LeavesVia(s, ClientMark, status); }
  }

  /** Without repeated messages a status is final exactly when it is not "error" and nothing is under
      way: no message, attempt or client retry, and no outcome report holding another status.  "done" is no
      exception: with work under way it is left again. */
  lemma {:induction false} FinalIffAtRest(s: State)
    ensures CanLeave(s, s.status) <==> s.status.Error? || !AtRest(s)
  {
    if s.status.Error? {
      LeavesVia(Apply(s, ClientCheck), ClientMark, Error);
      LeavesVia(s, ClientCheck, Error);
    } else if AtRest(s) {
      forall es | NoRepeats(es) && Exec(s, es).Some? ensures Exec(s, es).value.status == s.status {
        RestIsFinal(s, es);
      }
    } else if s.dones > 0 && !s.status.Done? {
      LeavesVia(s, OutcomeWrite(true), s.status);
    } else if s.rejects > 0 && !s.status.Rejected? {
      LeavesVia(s, OutcomeWrite(false), s.status);
    } else if s.checked > 0 || s.marked > 0 {
      ClientLeaves(s, s.status);
    } else if s.mail != multiset{} {
      var m :| m in s.mail;
      match m
      case Analyse(k) => MailLeaves(s, k, s.status);
      case Resume => LeavesVia(s, Settle(!s.status.Done?), s.status);
    } else {
      RunLeaves(s, s.status);
    }
  }

  // ---- Orderly runs ----

  /** The broker repeats nothing, no worker is killed, and a client retries only when nothing of the job
      is under way. */
  predicate Orderly(s: State, e: Event) {
    !e.Redeliver? && !e.Kill? && (e.ClientCheck? ==> AtRest(s) && s.run.None?)
  }

  predicate OrderlyRun(s: State, es: seq<Event>)
    decreases |es|
  {
    es == [] || (Enabled(s, es[0]) && Orderly(s, es[0]) && OrderlyRun(Apply(s, es[0]), es[1..]))
  }

  predicate Settled(status: JobStatus) {
    status.Done? || status.Rejected? || status.Error?
  }

  /** What may be outstanding, and in which status. */
  ghost predicate Inv(s: State) {
    && s.locked == s.run.Some?
    && s.tries <= MAX_RETRIES + 1
    && s.checked + s.marked <= 1
    && (s.dones > 0 ==> s.status.Done?) && (s.rejects > 0 ==> s.status.Rejected?)
    && (s.run.Some? ==> s.tries == s.run.value.attempt + 1)
    && (if s.checked + s.marked > 0 then s.run.None? && s.mail == multiset{} &&
        s.status == (if s.marked > 0 then Queued else Error)
        else if s.run.Some? && s.run.value.phase.Acquired? then s.mail == multiset{} &&
            s.status == (if s.tries == 1 then Queued else Error)
        else if s.run.Some? && s.run.value.phase.Working? then s.mail == multiset{} && s.status.Running?
        else
          || (s.mail == multiset{} && Settled(s.status))
          || (s.mail == multiset{Resume} && s.status.PendingHuman?)
          || (s.mail == multiset{Analyse(s.tries)} && s.tries <= MAX_RETRIES &&
              s.status == (if s.tries == 0 then Queued else Error)))
  }

  lemma InvDeliver(s: State, k: nat)
    requires Inv(s) && Enabled(s, Deliver(k))
    ensures Inv(Apply(s, Deliver(k)))
  {
    assert k == s.tries && s.mail - multiset{Analyse(k)} == multiset{};
  }

  lemma InvClient(s: State, e: Event)
    requires Inv(s) && Enabled(s, e) && Orderly(s, e) && (e.ClientCheck? || e.ClientMark? || e.ClientSend?)
    ensures Inv(Apply(s, e))
  {
  }

  lemma InvRun(s: State, e: Event)
    requires Inv(s) && Enabled(s, e) && (e.Start? || e.Finish? || e.Release?)
    ensures Inv(Apply(s, e))
  {
  }

  lemma InvStep(s: State, e: Event)
    requires Inv(s) && Enabled(s, e) && Orderly(s, e)
    ensures Inv(Apply(s, e))
  {
    match e
    case Deliver(k) => InvDeliver(s, k);
    case Start | Finish(_) | Release => InvRun(s, e);
    case ClientCheck | ClientMark | ClientSend => InvClient(s, e);
    case OutcomeRead | OutcomeWrite(_) =>
    case Settle(_) => assert s.mail - multiset{Resume} == multiset{};
    case ExpireLock | Kill(_) | Redeliver(_) =>
  }

  predicate Edge(a: JobStatus, b: JobStatus) {
    match a
    case Queued => b.Running?
    case Running => b.Done? || b.Error? || b.PendingHuman?
    case PendingHuman => b.Done? || b.Rejected?
    case Error => b.Running? || b.Queued?
    case Done | Rejected => false
  }

  /** A bound on the steps left before the job settles */
  function StepsLeft(s: State): nat {
    ClientSteps(s) + MailSteps(s.mail) + RunSteps(s.run) + s.dones + s.rejects
  }

  function ClientSteps(s: State): nat {
    if s.checked > 0 then 15 else if s.marked > 0 then 14 else 0
  }

  function MailSteps(mail: multiset<Message>): nat {
    (if Analyse(0) in mail then 13 else if Analyse(1) in mail then 9 else if Analyse(2) in mail then 5 else 0)
    + (if Resume in mail then 1 else 0)
  }

  function RunSteps(run: Option<Run>): nat {
    match run
    case None => 0
    case Some(run) =>
      if run.phase.Reported? || run.attempt > MAX_RETRIES then 1
      else 4 * (MAX_RETRIES + 1 - run.attempt) - (if run.phase.Working? then 1 else 0)
  }

  lemma {:induction false} OrderlyHolds(s: State, es: seq<Event>)
    requires Inv(s) && OrderlyRun(s, es)
    ensures Exec(s, es).Some? && Inv(Exec(s, es).value)
    decreases |es|
  {
    if es == [] {
    } else {
      InvStep(s, es[0]);
      OrderlyHolds(Apply(s, es[0]), es[1..]);
    }
  }

  /** The status after the first `i` events */
  function StatusAt(s: State, es: seq<Event>, i: nat): JobStatus
    requires OrderlyRun(s, es) && i <= |es|
    decreases i
  {
    if i == 0 then s.status else StatusAt(Apply(s, es[0]), es[1..], i - 1)
  }

  lemma EdgeStep(s: State, e: Event)
    requires Inv(s) && Enabled(s, e) && Orderly(s, e)
    ensures Apply(s, e).status == s.status || Edge(s.status, Apply(s, e).status)
  {
    match e
    case Start =>
    case Finish(_) =>
    case Settle(_) =>
    case ClientMark =>
    case OutcomeWrite(_) =>
    case _ =>
  }

  /** In an orderly run the status moves along the edges of the documented machine only. */
  lemma {:induction false} StatusMovesAlongEdges(s: State, es: seq<Event>, i: nat)
    requires Inv(s) && OrderlyRun(s, es) && i < |es|
    ensures StatusAt(s, es, i + 1) == StatusAt(s, es, i) || Edge(StatusAt(s, es, i), StatusAt(s, es, i + 1))
    decreases i
  {
    if i == 0 {
      EdgeStep(s, es[0]);
    } else {
      InvStep(s, es[0]);
      StatusMovesAlongEdges(Apply(s, es[0]), es[1..], i - 1);
    }
  }

  /** "done" and "rejected" are never left in an orderly run. */
  lemma {:induction false} DoneAndRejectedAbsorb(s: State, es: seq<Event>, i: nat, k: nat)
    requires Inv(s) && OrderlyRun(s, es) && i <= k <= |es|
    requires StatusAt(s, es, i).Done? || StatusAt(s, es, i).Rejected?
    ensures StatusAt(s, es, k) == StatusAt(s, es, i)
    decreases i
  {
    if i == 0 {
      AbsorbsFrom(s, es, k);
    } else {
      InvStep(s, es[0]);
      DoneAndRejectedAbsorb(Apply(s, es[0]), es[1..], i - 1, k - 1);
    }
  }

  lemma {:induction false} AbsorbsFrom(s: State, es: seq<Event>, k: nat)
    requires Inv(s) && OrderlyRun(s, es) && k <= |es| && (s.status.Done? || s.status.Rejected?)
    ensures StatusAt(s, es, k) == s.status
    decreases k
  {
    if k == 0 {
    } else {
      InvStep(s, es[0]);
      EdgeStep(s, es[0]);
      AbsorbsFrom(Apply(s, es[0]), es[1..], k - 1);
    }
  }

  function Starts(es: seq<Event>): nat {
    if es == [] then 0 else (if es[0].Start? then 1 else 0) + Starts(es[1..])
  }

  function Checks(es: seq<Event>): nat {
    if es == [] then 0 else (if es[0].ClientCheck? then 1 else 0) + Checks(es[1..])
  }

  function Reads(es: seq<Event>): nat {
    if es == [] then 0 else (if es[0].OutcomeRead? then 1 else 0) + Reads(es[1..])
  }

  /** In any stretch of an orderly run without a new submission at most three attempts start. */
  lemma {:induction false} AtMostThreeAttempts(s: State, es: seq<Event>)
    requires Inv(s) && OrderlyRun(s, es) && forall i | 0 <= i < |es| :: !es[i].ClientSend?
    ensures Starts(es) <= MAX_RETRIES + 1 - s.tries + (if s.run.Some? && s.run.value.phase.Acquired? then 1 else 0)
    ensures Starts(es) <= MAX_RETRIES + 1
    decreases |es|
  {
    if es == [] {
    } else {
      InvStep(s, es[0]);
      forall i | 0 <= i < |es[1..]| ensures !es[1..][i].ClientSend? { assert es[1..][i] == es[i + 1]; }
      AtMostThreeAttempts(Apply(s, es[0]), es[1..]);
    }
  }

  lemma DeliveryUsesStep(s: State, k: nat)
    requires Inv(s) && Enabled(s, Deliver(k))
    ensures StepsLeft(Apply(s, Deliver(k))) < StepsLeft(s)
  {
    assert k == s.tries && s.mail - multiset{Analyse(k)} == multiset{};
  }

  lemma RunUsesStep(s: State, e: Event)
    requires Inv(s) && Enabled(s, e) && (e.Start? || e.Finish? || e.Release?)
    ensures StepsLeft(Apply(s, e)) < StepsLeft(s)
  {
  }

  lemma SettlingUsesStep(s: State, approved: bool)
    requires Inv(s) && Enabled(s, Settle(approved))
    ensures StepsLeft(Apply(s, Settle(approved))) < StepsLeft(s)
  {
    assert s.mail - multiset{Resume} == multiset{};
  }

  /** Every step uses up the bound; a client's check puts back what a whole submission may take. */
  lemma StepsLeftDrops(s: State, e: Event)
    requires Inv(s) && Enabled(s, e) && Orderly(s, e)
    ensures StepsLeft(Apply(s, e)) < StepsLeft(s) + (if e.ClientCheck? then 16 else if e.OutcomeRead? then 2 else 0)
  {
    match e
    case Deliver(k) => DeliveryUsesStep(s, k);
    case Start | Finish(_) | Release => RunUsesStep(s, e);
    case Settle(approved) => SettlingUsesStep(s, approved);
    case ClientCheck | ClientMark | ClientSend =>
    case OutcomeRead | OutcomeWrite(_) =>
    case ExpireLock | Kill(_) | Redeliver(_) =>
  }

  lemma {:induction false} OrderlyRunsAreShort(s: State, es: seq<Event>)
    requires Inv(s) && OrderlyRun(s, es)
    ensures |es| <= StepsLeft(s) + 16 * Checks(es) + 2 * Reads(es)
    decreases |es|
  {
    if es == [] {
    } else {
      StepsLeftDrops(s, es[0]);
      InvStep(s, es[0]);
      OrderlyRunsAreShort(Apply(s, es[0]), es[1..]);
    }
  }

  /** No step is left but a client's decision to retry or to report an outcome. */
  ghost predicate Halted(s: State) {
    forall e | Enabled(s, e) && Orderly(s, e) :: e.ClientCheck? || e.OutcomeRead?
  }

  lemma HaltedIsSettled(s: State)
    requires Inv(s) && Halted(s)
    ensures Settled(s.status)
  {
    assert !Enabled(s, Start) && !Enabled(s, Release) && !Enabled(s, Finish(Completed));
    assert !Enabled(s, Settle(true)) && !Enabled(s, ClientMark) && !Enabled(s, ClientSend);
    assert !Enabled(s, Deliver(s.tries));
  }

  /** An accepted job takes at most 13 steps, 16 more for each client retry and 2 for each outcome report,
      and when no step is left it is in one of the three settled statuses. */
  lemma {:induction false} EveryJobSettles(es: seq<Event>)
    requires OrderlyRun(Init(), es)
    ensures |es| <= 13 + 16 * Checks(es) + 2 * Reads(es)
    ensures Exec(Init(), es).Some?
    ensures Halted(Exec(Init(), es).value) ==> Settled(Exec(Init(), es).value.status)
  {
    OrderlyRunsAreShort(Init(), es);
    OrderlyHolds(Init(), es);
    if Halted(Exec(Init(), es).value) { HaltedIsSettled(Exec(Init(), es).value); }
  }

  // ---- The bound is met ----

  lemma {:induction false} Append(s: State, es: seq<Event>, t: State, e: Event)
    requires Exec(s, es) == Some(t) && Enabled(t, e)
    ensures Exec(s, es + [e]) == Some(Apply(t, e))
    ensures OrderlyRun(s, es) && Orderly(t, e) ==> OrderlyRun(s, es + [e])
    ensures Checks(es + [e]) == Checks(es) + (if e.ClientCheck? then 1 else 0)
    ensures Reads(es + [e]) == Reads(es) + (if e.OutcomeRead? then 1 else 0)
    decreases |es|
  {
    if es == [] {
    } else {
      assert (es + [e])[1..] == es[1..] + [e];
      Append(Apply(s, es[0]), es[1..], t, e);
    }
  }

  /** An orderly run of `n` steps without a client leads to `t`. */
  ghost predicate Leads(n: nat, t: State) {
    exists es :: OrderlyRun(Init(), es) && Checks(es) == Reads(es) == 0 && |es| == n && Exec(Init(), es) == Some(t)
  }

  lemma LeadsOn(n: nat, t: State, e: Event)
    requires Leads(n, t) && Enabled(t, e) && Orderly(t, e) && !e.ClientCheck? && !e.OutcomeRead?
    ensures Leads(n + 1, Apply(t, e))
  {
    var es :| OrderlyRun(Init(), es) && Checks(es) == Reads(es) == 0 && |es| == n && Exec(Init(), es) == Some(t);
    Append(Init(), es, t, e);
    assert OrderlyRun(Init(), es + [e]);
  }

  /** A job whose only outstanding thing is one message */
  function Waiting(status: JobStatus, m: Message, sent: set<Message>, tries: nat): State {
    StateOf.State(status, multiset{m}, None, false, 0, 0, 0, 0, sent, tries)
  }

  lemma AttemptLeads(n: nat, status: JobStatus, k: nat, o: Outcome, sent: set<Message>)
    requires Leads(n, Waiting(status, Analyse(k), sent, k)) && FollowUp(o, k).Some?
    ensures Leads(n + 4, Waiting(StatusAfter(o), FollowUp(o, k).value, sent + {FollowUp(o, k).value}, k + 1))
  {
    var s0, next := Waiting(status, Analyse(k), sent, k), FollowUp(o, k).value;
    assert s0.mail - multiset{Analyse(k)} == multiset{} && multiset{} + multiset{next} == multiset{next};
    var s1 := StateOf.State(status, multiset{}, Some(Run(k, Acquired)), true, 0, 0, 0, 0, sent, k + 1);
    var s2 := s1.(status := Running, run := Some(Run(k, Working)));
    var s3 := s1.(status := StatusAfter(o), run := Some(Run(k, Reported)), mail := multiset{next},
        sent := sent + {next});
    LeadsOn(n, s0, Deliver(k));
    LeadsOn(n + 1, s1, Start);
    LeadsOn(n + 2, s2, Finish(o));
    LeadsOn(n + 3, s3, Release);
  }

  /** The bound of 13 is met: two failures, a pause and a verdict. */
  lemma LongestLife()
    ensures exists es :: OrderlyRun(Init(), es) && Checks(es) == Reads(es) == 0 && |es| == 13
  {
    var sent0 := {Analyse(0)};
    var sent1 := sent0 + {Analyse(1)};
    var sent2 := sent1 + {Analyse(2)};
    assert OrderlyRun(Init(), []) && Leads(0, Init());
    AttemptLeads(0, Queued, 0, Raised, sent0);
    AttemptLeads(4, Error, 1, Raised, sent1);
    AttemptLeads(8, Error, 2, Paused, sent2);
    var paused := Waiting(PendingHuman, Resume, sent2 + {Resume}, 3);
    LeadsOn(12, paused, Settle(true));
    assert Leads(13, Apply(paused, Settle(true)));
  }
}
