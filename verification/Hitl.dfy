/** core/hitl.py and api/hitl_routes.py: the approval key of a paused decision, its writers, and the
    single timed read that settles the job. */
module Hitl {
  import opened RedisStore

  const HITL_TIMEOUT := 3600.0
  /** The life the endpoints give a verdict; it is not configurable. */
  const VERDICT_TTL := 3600.0

  type ReqId = nat

  datatype Approval = Pending | Verdict(approved: bool, reviewer: string, comment: string)

  type Approvals = map<ReqId, Entry<Approval>>
  type Links = map<JobId, Entry<ReqId>>

  datatype Reply = Accepted | NotFound | AlreadyProcessed

  /** What resume_hitl_job finalises the job with; the job ends DONE exactly when it is approved. */
  datatype Resolution = Resolution(approved: bool, reviewer: string, comment: string, finalDecision: string)

  function OrDefault(text: Option<string>, default: string): string {
    if text.None? || text.value == "" then default else text.value
  }

  /** The reviewer's comment, or a word for it */
  function Text(approve: bool, comment: Option<string>): (text: string)
    ensures comment.Some? && comment.value != "" ==> text == comment.value
    ensures comment.None? || comment.value == "" ==> text == if approve then "Approved" else "Rejected"
  {
    OrDefault(comment, if approve then "Approved" else "Rejected")
  }

  function VerdictOf(approve: bool, reviewer: string, comment: Option<string>): Approval {
    Verdict(approve, reviewer, Text(approve, comment))
  }

  function DashboardVerdict(approve: bool, reason: Option<string>): Approval {
    Verdict(approve, "dashboard", OrDefault(reason, if approve then "Approved via dashboard"
        else "Rejected via dashboard"))
  }

  function Asked(db: Approvals, rid: ReqId, now: real, timeout: real): Approvals {
    SetEx(db, rid, Pending, now, timeout)
  }

  /** What approve and reject see of the key. */
  function Check(db: Approvals, rid: ReqId, now: real): Reply {
    var found: Option<Approval> := Get(db, rid, now);
    if found.None? then NotFound else if found.value.Pending? then Accepted else AlreadyProcessed
  }

  function Decided(db: Approvals, rid: ReqId, v: Approval, now: real): Approvals {
    SetEx(db, rid, v, now, VERDICT_TTL)
  }

  function Finish(approved: bool, reviewer: string, comment: string, decision: string): Resolution {
    Resolution(approved, reviewer, comment,
               if approved then decision else "[REJECTED by " + reviewer + "] " + comment)
  }

  /** The configured fallback */
  function Fallback(approve: bool, decision: string): Resolution {
    Finish(approve, "auto-timeout",
           if approve then "Auto-approved after timeout" else "Rejected: no response within timeout", decision)
  }

  function Resolve(db: Approvals, rid: ReqId, now: real, fallback: bool, decision: string): Resolution {
    var found: Option<Approval> := Get(db, rid, now);
    if found.Some? && found.value.Verdict?
    then Finish(found.value.approved, found.value.reviewer, found.value.comment, decision)
    else Fallback(fallback, decision)
  }

  class Desk {
    const fallbackApprove: bool
    const timeout: real
    var approvals: Approvals
    var links: Links

    constructor (fallbackApprove: bool, timeout: real)
      ensures this.fallbackApprove == fallbackApprove && this.timeout == timeout
      ensures approvals == map[] && links == map[]
    {
      this.fallbackApprove, this.timeout := fallbackApprove, timeout;
      approvals, links := map[], map[];
    }

    method RequestHumanValidation(rid: ReqId, now: real)
      modifies this`approvals
      ensures approvals == Asked(old(approvals), rid, now, timeout)
    {
      approvals := SetEx(approvals, rid, Pending, now, timeout);
    }

    /** approve_decision and reject_decision differ in the verdict only. */
    method Decide(rid: ReqId, approve: bool, reviewer: string, comment: Option<string>, now: real) returns (r: Reply)
      modifies this`approvals
      ensures r == Check(old(approvals), rid, now)
      ensures approvals == if r.Accepted? then Decided(old(approvals), rid, VerdictOf(approve, reviewer, comment), now)
                           else old(approvals)
      ensures r.Accepted? ==>
          approvals == old(approvals)[rid := Entry(Verdict(approve, reviewer, Text(approve, comment)),
              Some(now + 3600.0))]
    {
      if !Live(approvals, rid, now) {
        return NotFound;
      }
      if approvals[rid].value != Pending {
        return AlreadyProcessed;
      }
      var text := if approve then "Approved" else "Rejected";
      if comment.Some? && comment.value != "" {
        text := comment.value;
      }
      approvals := SetEx(approvals, rid, Verdict(approve, reviewer, text), now, VERDICT_TTL);
      return Accepted;
    }

    /** The dashboard writes without looking at the key, and under the job's own id when the link from
        the job to its request is gone. */
    method RespondByJob(job: JobId, approve: bool, reason: Option<string>, now: real) returns (rid: ReqId)
      modifies this`approvals
      ensures rid == if Live(links, job, now) then links[job].value else job
      ensures approvals == Decided(old(approvals), rid, DashboardVerdict(approve, reason), now)
      ensures rid in approvals && approvals[rid].expiry == Some(now + 3600.0) && approvals[rid].value.Verdict?
      ensures approvals[rid].value.approved == approve && approvals[rid].value.reviewer == "dashboard"
      ensures reason.Some? && reason.value != "" ==> approvals[rid].value.comment == reason.value
    {
      var found := Get(links, job, now);
      rid := if found.Some? then found.value else job;
      var comment := if approve then "Approved via dashboard" else "Rejected via dashboard";
      if reason.Some? && reason.value != "" {
        comment := reason.value;
      }
      approvals := SetEx(approvals, rid, Verdict(approve, "dashboard", comment), now, VERDICT_TTL);
    }

    method ResolveHitl(rid: ReqId, decision: string, now: real) returns (r: Resolution)
      ensures r == Resolve(approvals, rid, now, fallbackApprove, decision)
      ensures Live(approvals, rid, now) && approvals[rid].value.Verdict? ==>
          var v := approvals[rid].value;
          r.approved == v.approved && r.reviewer == v.reviewer && r.comment == v.comment
      ensures !(Live(approvals, rid, now) && approvals[rid].value.Verdict?) ==>
          r.approved == fallbackApprove && r.reviewer == "auto-timeout" &&
          r.comment == if fallbackApprove then "Auto-approved after timeout" else "Rejected: no response within timeout"
      ensures r.finalDecision == if r.approved then decision else "[REJECTED by " + r.reviewer + "] " + r.comment
    {
      var approved, reviewer, comment := fallbackApprove, "auto-timeout", "Rejected: no response within timeout";
      var result := Get(approvals, rid, now);
      if result.Some? && result.value != Pending {
        approved, reviewer, comment := result.value.approved, result.value.reviewer, result.value.comment;
      } else if fallbackApprove {
        comment := "Auto-approved after timeout";
      }
      var final := decision;
      if !approved {
        final := "[REJECTED by " + reviewer + "] " + comment;
      }
      return Resolution(approved, reviewer, comment, final);
    }
  }

  // ---- Every interleaving of the GET and SETEX halves ----

  type CallId = nat

  /** A handler between its GET and its SETEX. */
  datatype Handler = Handler(rid: ReqId, verdict: Approval, writes: bool)

  datatype Written = Written(verdict: Approval, at: real)

  /** `last` is history: the latest verdict written to each request's key. */
  datatype StateOf<A, L, H, W> = State(now: real, approvals: A, links: L, handlers: H, last: W)

  type State = StateOf<Approvals, Links, map<CallId, Handler>, map<ReqId, Written>>

  datatype Event =
    | Ask(rid: ReqId, timeout: real)
    | Link(job: JobId, rid: ReqId, timeout: real)
    | DecideGet(id: CallId, rid: ReqId, approve: bool, reviewer: string, comment: Option<string>)
    | RespondGet(id: CallId, job: JobId, approve: bool, reason: Option<string>)
    | Write(id: CallId)
    | Drop(id: CallId)
    | Tick(d: real)

  function Init(): State { State(0.0, map[], map[], map[], map[]) }

  predicate Enabled(s: State, e: Event) {
    match e
    // a request id is new when it is asked for
    case Ask(rid, _) => rid !in s.approvals && rid !in s.last
    case Link(_, _, _) => true
    case DecideGet(id, _, _, _, _) => id !in s.handlers
    case RespondGet(id, _, _, _) => id !in s.handlers
    case Write(id) => id in s.handlers
    case Drop(id) => id in s.handlers
    case Tick(d) => d >= 0.0
  }

  function Apply(s: State, e: Event): State
    requires Enabled(s, e)
  {
    match e
    case Ask(rid, timeout) => s.(approvals := Asked(s.approvals, rid, s.now, timeout))
    case Link(job, rid, timeout) => s.(links := SetEx(s.links, job, rid, s.now, timeout))
    case DecideGet(id, rid, approve, reviewer, comment) =>
      s.(handlers := s.handlers[id := Handler(rid, VerdictOf(approve, reviewer, comment),
          Check(s.approvals, rid, s.now).Accepted?)])
    case RespondGet(id, job, approve, reason) =>
      var rid := if Live(s.links, job, s.now) then s.links[job].value else job;
      s.(handlers := s.handlers[id := Handler(rid, DashboardVerdict(approve, reason), true)])
    case Write(id) => WriteHalf(s, id)
    case Drop(id) => s.(handlers := s.handlers - {id})
    case Tick(d) => s.(now := s.now + d)
  }

  function WriteHalf(s: State, id: CallId): State
    requires id in s.handlers
  {
    var h := s.handlers[id];
    s.(approvals := if h.writes then Decided(s.approvals, h.rid, h.verdict, s.now) else s.approvals,
       last := if h.writes then s.last[h.rid := Written(h.verdict, s.now)] else s.last,
       handlers := s.handlers - {id})
  }

  function Exec(es: seq<Event>): Option<State> {
    if es == [] then Some(Init())
    else
      var before := Exec(es[..|es| - 1]);
      if before.Some? && Enabled(before.value, es[|es| - 1]) then Some(Apply(before.value, es[|es| - 1])) else None
  }

  ghost predicate KeyOk(s: State, rid: ReqId) {
    if rid in s.last
    then rid in s.approvals && s.approvals[rid] == Entry(s.last[rid].verdict, Some(s.last[rid].at + VERDICT_TTL)) &&
        s.last[rid].verdict.Verdict?
    else rid in s.approvals ==> s.approvals[rid].value == Pending
  }

  ghost predicate Inv(s: State) {
    && (forall rid {:trigger KeyOk(s, rid)} :: KeyOk(s, rid))
    && (forall id | id in s.handlers :: s.handlers[id].verdict.Verdict?)
  }

  lemma {:induction false} InvHolds(es: seq<Event>)
    requires Exec(es).Some?
    ensures Inv(Exec(es).value)
  {
    if es == [] {
    } else {
      InvHolds(es[..|es| - 1]);
      var s, e := Exec(es[..|es| - 1]).value, es[|es| - 1];
      forall rid ensures KeyOk(Exec(es).value, rid) { assert KeyOk(s, rid); }
    }
  }

  /** What a resume reading at `now` makes of a verdict written at `w.at`. */
  function Outcome(w: Option<Written>, now: real, fallback: bool, decision: string): Resolution {
    if w.Some? && w.value.verdict.Verdict? && now < w.value.at + VERDICT_TTL
    then Finish(w.value.verdict.approved, w.value.verdict.reviewer, w.value.verdict.comment, decision)
    else Fallback(fallback, decision)
  }

  /** However the handlers interleave, the job is settled by the last verdict written to the request's
      key if that was less than VERDICT_TTL ago, and by the configured fallback otherwise. */
  lemma {:induction false} LastFreshVerdictDecides(es: seq<Event>, rid: ReqId, fallback: bool, decision: string)
    requires Exec(es).Some?
    ensures Resolve(Exec(es).value.approvals, rid, Exec(es).value.now, fallback, decision)
            == Outcome(if rid in Exec(es).value.last then Some(Exec(es).value.last[rid])
                else None, Exec(es).value.now, fallback, decision)
  {
    InvHolds(es);
    assert KeyOk(Exec(es).value, rid);
  }

  // ---- How many approve and reject calls are accepted ----

  /** Under every interleaving an approve or reject call is accepted exactly when it reads the live key
      before any handler has written it: all that do are, and none after the first write. */
  lemma {:induction false} AcceptedExactly(es: seq<Event>, rid: ReqId)
    requires Exec(es).Some?
    ensures Check(Exec(es).value.approvals, rid, Exec(es).value.now).Accepted?
            <==> rid !in Exec(es).value.last && Live(Exec(es).value.approvals, rid, Exec(es).value.now)
  {
    InvHolds(es);
    assert KeyOk(Exec(es).value, rid);
  }

  lemma {:induction false} NoneAcceptedAfterWrite(es: seq<Event>, more: seq<Event>, rid: ReqId)
    requires Exec(es).Some? && Exec(es + more).Some? && rid in Exec(es).value.last
    ensures rid in Exec(es + more).value.last
    ensures !Check(Exec(es + more).value.approvals, rid, Exec(es + more).value.now).Accepted?
    decreases |more|
  {
    var whole := es + more;
    if more == [] {
      assert whole == es;
    } else {
      var before := more[..|more| - 1];
      assert whole[..|whole| - 1] == es + before;
      NoneAcceptedAfterWrite(es, before, rid);
    }
    AcceptedExactly(whole, rid);
  }

  /** `n` handlers of one request have read "pending" and will all answer 200. */
  ghost predicate AllAccepted(s: State, rid: ReqId, n: nat) {
    && Check(s.approvals, rid, s.now).Accepted?
    && (forall id :: id in s.handlers <==> 0 <= id < n)
    && (forall id | 0 <= id < n :: s.handlers[id].rid == rid && s.handlers[id].writes)
  }

  /** Any number of calls can be accepted for one request. */
  lemma {:induction false} AnyNumberAccepted(rid: ReqId, n: nat)
    ensures exists es :: Exec(es).Some? && AllAccepted(Exec(es).value, rid, n)
  {
    var es := [Ask(rid, HITL_TIMEOUT)];
    assert es[..0] == [] && Exec([]) == Some(Init());
    var s := Apply(Init(), es[0]);
    assert Exec(es) == Some(s);
    var m := 0;
    while m < n
      invariant m <= n && Exec(es) == Some(s) && AllAccepted(s, rid, m)
    {
      var e := DecideGet(m, rid, true, "", None);
      assert (es + [e])[..|es|] == es;
      es, s := es + [e], Apply(s, e);
      m := m + 1;
    }
  }

  // ---- Approve and reject calls one at a time ----

  datatype Call = Call(verdict: Approval, at: real)

  function Replies(db: Approvals, rid: ReqId, calls: seq<Call>): seq<Reply>
    decreases |calls|
  {
    if calls == [] then [] else [Check(db, rid, calls[0].at)] + Replies(AfterCall(db, rid, calls[0]), rid, calls[1..])
  }

  function AfterCall(db: Approvals, rid: ReqId, call: Call): Approvals {
    if Check(db, rid, call.at).Accepted? then Decided(db, rid, call.verdict, call.at) else db
  }

  function AfterCalls(db: Approvals, rid: ReqId, calls: seq<Call>): Approvals
    decreases |calls|
  {
    if calls == [] then db else AfterCalls(AfterCall(db, rid, calls[0]), rid, calls[1..])
  }

  ghost predicate InOrder(calls: seq<Call>, from: real) {
    && (forall i | 0 <= i < |calls| :: from <= calls[i].at && calls[i].verdict.Verdict?)
    && (forall i, k | 0 <= i < k < |calls| :: calls[i].at <= calls[k].at)
  }

  lemma {:induction false} NoneAcceptedOnce(db: Approvals, rid: ReqId, calls: seq<Call>, until: real)
    requires rid in db && db[rid].expiry == Some(until)
    requires db[rid].value.Verdict? || forall i | 0 <= i < |calls| :: until <= calls[i].at
    ensures AfterCalls(db, rid, calls) == db && |Replies(db, rid, calls)| == |calls|
    ensures forall i | 0 <= i < |calls| ::
        Replies(db, rid, calls)[i] == if calls[i].at < until then AlreadyProcessed else NotFound
    decreases |calls|
  {
    if calls == [] {
    } else {
      NoneAcceptedOnce(db, rid, calls[1..], until);
      forall i | 0 <= i < |calls|
        ensures Replies(db, rid, calls)[i] == if calls[i].at < until then AlreadyProcessed else NotFound
      {
        if i > 0 { assert calls[1..][i - 1] == calls[i]; }
      }
    }
  }

  /** Of any approve and reject calls on a request asked at `t0`, taken one at a time, only the first
      can be accepted, and is exactly when it comes before the key expires; later ones are refused as
      processed while the verdict lives and as unknown afterwards; and that verdict, if the resume reads
      it in time, settles the job. */
  lemma {:induction false} FirstVerdictWins(db: Approvals, rid: ReqId, t0: real, timeout: real, calls: seq<Call>,
      resume: real, fallback: bool, decision: string)
    requires calls != [] && InOrder(calls, t0) && resume >= t0 + timeout
    ensures |Replies(Asked(db, rid, t0, timeout), rid, calls)| == |calls|
    ensures forall i | 0 <= i < |calls| :: Replies(Asked(db, rid, t0, timeout), rid, calls)[i] ==
              if calls[0].at >= t0 + timeout then NotFound
              else if i == 0 then Accepted
              else if calls[i].at < calls[0].at + VERDICT_TTL then AlreadyProcessed else NotFound
    ensures Resolve(AfterCalls(Asked(db, rid, t0, timeout), rid, calls), rid, resume, fallback, decision)
            == Outcome(if calls[0].at < t0 + timeout then Some(Written(calls[0].verdict, calls[0].at))
                else None, resume, fallback, decision)
  {
    var asked := Asked(db, rid, t0, timeout);
    if calls[0].at >= t0 + timeout {
      forall i | 0 <= i < |calls| ensures t0 + timeout <= calls[i].at { assert i > 0 ==> calls[0].at <= calls[i].at; }
      NoneAcceptedOnce(asked, rid, calls, t0 + timeout);
    } else {
      var decided := AfterCall(asked, rid, calls[0]);
      NoneAcceptedOnce(decided, rid, calls[1..], calls[0].at + VERDICT_TTL);
      forall i | 0 < i < |calls|
        ensures Replies(asked, rid, calls)[i] == if calls[i].at < calls[0].at + VERDICT_TTL then AlreadyProcessed
            else NotFound
      {
        assert calls[1..][i - 1] == calls[i];
      }
    }
  }

  /** The verdict of one call made `delay` after the request, read `late` after the timeout */
  function Settled(db: Approvals, rid: ReqId, t0: real, timeout: real, delay: real, late: real, v: Approval,
      fallback: bool, decision: string): Resolution
  {
    Resolve(AfterCalls(Asked(db, rid, t0, timeout), rid, [Call(v, t0 + delay)]), rid, t0 + timeout + late, fallback,
        decision)
  }

  /** The timeout is configurable and the verdict's hour is not: an accepted verdict is honoured exactly
      when the resume is less late than the delay and what the hour exceeds the timeout by.  With the
      default timeout a prompt answer does not survive a late resume. */
  lemma {:induction false} PromptVerdictNeedsPunctualResume(db: Approvals, rid: ReqId, t0: real, timeout: real,
      delay: real, late: real, v: Approval, fallback: bool, decision: string)
    requires 0.0 <= delay < timeout && 0.0 <= late && v.Verdict?
    ensures Settled(db, rid, t0, timeout, delay, late, v, fallback, decision)
            == if late < delay + (VERDICT_TTL - timeout) then Finish(v.approved, v.reviewer, v.comment, decision)
               else Fallback(fallback, decision)
  {
    FirstVerdictWins(db, rid, t0, timeout, [Call(v, t0 + delay)], t0 + timeout + late, fallback, decision);
  }

  /** A rejection given in the first second, followed by a resume two seconds late, ends as approved. */
  lemma {:induction false} RejectionBecomesApproval(db: Approvals, rid: ReqId, t0: real, decision: string)
    ensures HITL_TIMEOUT == 3600.0
    ensures Settled(db, rid, t0, HITL_TIMEOUT, 1.0, 2.0, VerdictOf(false, "ann", None), true, decision).approved
  {
    PromptVerdictNeedsPunctualResume(db, rid, t0, HITL_TIMEOUT, 1.0, 2.0, VerdictOf(false, "ann", None), true,
        decision);
  }
}
