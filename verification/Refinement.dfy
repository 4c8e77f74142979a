/** `Protocol` seen from one job is `Lifecycle`: whatever happens to the job's lock and to the execution
    it protects in a run of the interleaved machine with its clock, happens in the same order in a run of
    the untimed one. */
module Refinement {
  import opened RedisStore
  import P = Protocol
  import K = LockSafety
  import L = Lifecycle

  /** What can be seen of one job: a delivery that takes the lock or finds it taken, the release, the kill
      of the execution inside, and the expiry of the lock. */
  datatype Act = Took | Refused | Released | Killed | Expired

  ghost predicate Inside(s: P.State, j: JobId, r: P.RunId) {
    r in s.runs && s.runs[r].job == j && s.runs[r].phase.InBody?
  }

  ghost predicate Occupied(s: P.State, j: JobId) {
    exists r :: Inside(s, j, r)
  }

  ghost function ActOf(s: P.State, e: P.Event, j: JobId): seq<Act> {
    match e
    case Acquire(r) =>
      if r in s.runs && s.runs[r].job == j then [if Live(s.locks, j, s.now) then Refused else Took] else []
    case Release(r) => if r in s.runs && s.runs[r].job == j then [Released] else []
    case Kill(r) => if Inside(s, j, r) then [Killed] else []
    case Tick(d) => if Live(s.locks, j, s.now) && !Live(s.locks, j, s.now + d) then [Expired] else []
    case _ => []
  }

  /** The acts on job `j` along a run of the timed machine */
  ghost function Acts(c: P.Config, es: seq<P.Event>, j: JobId): seq<Act>
    requires P.Exec(c, es).Some?
  {
    if es == [] then []
    else
      var before, e := es[..|es| - 1], es[|es| - 1];
      Acts(c, before, j) + ActOf(P.Exec(c, before).value, e, j)
  }

  function UntimedActOf(t: L.State, e: L.Event): seq<Act> {
    match e
    case Deliver(_) => [if t.locked then Refused else Took]
    case Release => [Released]
    case Kill(_) => [Killed]
    case ExpireLock => [Expired]
    case _ => []
  }

  /** The acts along a run of the untimed machine */
  function UntimedActs(t: L.State, fs: seq<L.Event>): seq<Act>
    requires L.Exec(t, fs).Some?
    decreases |fs|
  {
    if fs == [] then [] else UntimedActOf(t, fs[0]) + UntimedActs(L.Apply(t, fs[0]), fs[1..])
  }

  /** `t` shows job `j` of `s`: the lock is alive in both or in neither, an execution is inside in both or in
      neither, and it is the only one. */
  ghost predicate Shows(s: P.State, j: JobId, t: L.State) {
    && (t.locked <==> Live(s.locks, j, s.now))
    && (t.run.Some? <==> Occupied(s, j))
    && (t.run.Some? ==> t.run.value.phase.Acquired?)
    && (forall r1, r2 | Inside(s, j, r1) && Inside(s, j, r2) :: r1 == r2)
    && L.Analyse(0) in t.sent
  }

  /** The run `fs` of the untimed machine ends in `t` with the acts `acts`. */
  ghost predicate Does(fs: seq<L.Event>, t: L.State, acts: seq<Act>) {
    L.Exec(L.Init(), fs) == Some(t) && UntimedActs(L.Init(), fs) == acts
  }

  ghost predicate Matched(s: P.State, j: JobId, acts: seq<Act>) {
    exists fs, t :: Does(fs, t, acts) && Shows(s, j, t)
  }

  lemma {:induction false} ActsAppend(s: L.State, fs: seq<L.Event>, t: L.State, e: L.Event)
    requires L.Exec(s, fs) == Some(t) && L.Enabled(t, e)
    ensures L.Exec(s, fs + [e]) == Some(L.Apply(t, e))
    ensures UntimedActs(s, fs + [e]) == UntimedActs(s, fs) + UntimedActOf(t, e)
    decreases |fs|
  {
    L.Append(s, fs, t, e);
    if fs == [] {
      assert [e][1..] == [];
    } else {
      assert (fs + [e])[1..] == fs[1..] + [e] && (fs + [e])[0] == fs[0];
      ActsAppend(L.Apply(s, fs[0]), fs[1..], t, e);
    }
  }

  lemma {:induction false} Advance(fs: seq<L.Event>, t: L.State, acts: seq<Act>, e: L.Event) returns (gs: seq<L.Event>)
    requires Does(fs, t, acts) && L.Enabled(t, e)
    ensures Does(gs, L.Apply(t, e), acts + UntimedActOf(t, e))
  {
    ActsAppend(L.Init(), fs, t, e);
    gs := fs + [e];
  }

  /** A delivery, refused or not, in the untimed machine */
  lemma {:induction false} DeliverMatches(fs: seq<L.Event>, t: L.State, acts: seq<Act>)
    returns (gs: seq<L.Event>, u: L.State)
    requires Does(fs, t, acts) && L.Analyse(0) in t.sent
    ensures Does(gs, u, acts + [if t.locked then Refused else Took]) && L.Analyse(0) in u.sent && u.locked
    ensures u.run == if t.locked then t.run else Some(L.Run(0, L.Acquired))
  {
    var repeated := L.Apply(t, L.Redeliver(L.Analyse(0)));
    gs := Advance(fs, t, acts, L.Redeliver(L.Analyse(0)));
    assert acts + [] == acts;
    gs := Advance(gs, repeated, acts, L.Deliver(0));
    u := L.Apply(repeated, L.Deliver(0));
  }

  lemma {:induction false} ReleaseMatches(fs: seq<L.Event>, t: L.State, acts: seq<Act>)
    returns (gs: seq<L.Event>, u: L.State)
    requires Does(fs, t, acts) && L.Analyse(0) in t.sent && t.run.Some? && t.run.value.phase.Acquired?
    ensures Does(gs, u, acts + [Released]) && L.Analyse(0) in u.sent && !u.locked && u.run.None?
  {
    assert acts + [] == acts;
    var working := L.Apply(t, L.Start);
    gs := Advance(fs, t, acts, L.Start);
    var reported := L.Apply(working, L.Finish(L.Completed));
    gs := Advance(gs, working, acts, L.Finish(L.Completed));
    gs := Advance(gs, reported, acts, L.Release);
    u := L.Apply(reported, L.Release);
  }

  lemma KeepsShown(s: P.State, s': P.State, j: JobId, t: L.State)
    requires Shows(s, j, t)
    requires Live(s'.locks, j, s'.now) <==> Live(s.locks, j, s.now)
    requires forall r :: Inside(s', j, r) <==> Inside(s, j, r)
    ensures Shows(s', j, t)
  {
    assert Occupied(s', j) <==> Occupied(s, j);
  }

  lemma {:induction false} AcquireMatches(
    c: P.Config, s: P.State, r: P.RunId, j: JobId, fs: seq<L.Event>, t: L.State, acts: seq<Act>)
    requires 0.0 <= c.hardLimit < c.lockTtl && K.Inv(c, s) && P.Enabled(c, s, P.Acquire(r)) && s.runs[r].job == j
    requires Does(fs, t, acts) && Shows(s, j, t)
    ensures Matched(P.OnAcquire(c, s, r), j, acts + [if Live(s.locks, j, s.now) then Refused else Took])
  {
    var s' := P.OnAcquire(c, s, r);
    var gs, u := DeliverMatches(fs, t, acts);
    if t.locked {
      assert forall x :: Inside(s', j, x) <==> Inside(s, j, x);
      assert Occupied(s', j) <==> Occupied(s, j);
    } else {
      if x :| Inside(s, j, x) { K.HolderIsLive(c, s, x); }
      assert forall x :: Inside(s', j, x) ==> x == r || Inside(s, j, x);
      assert Inside(s', j, r);
    }
    assert Shows(s', j, u);
  }

  lemma {:induction false} Alone(s: P.State, r: P.RunId, j: JobId, s': P.State, t: L.State)
    requires Shows(s, j, t) && Inside(s, j, r)
    requires s'.runs.Keys == s.runs.Keys && forall x | x in s.runs && x != r :: s'.runs[x] == s.runs[x]
    requires !s'.runs[r].phase.InBody?
    ensures !Occupied(s', j)
  {
    forall x ensures !Inside(s', j, x) {
      assert x == r || (Inside(s', j, x) ==> Inside(s, j, x));
    }
  }

  lemma {:induction false} ReleasesMatch(s: P.State, r: P.RunId, j: JobId, fs: seq<L.Event>, t: L.State, acts: seq<Act>)
    requires Inside(s, j, r) && Does(fs, t, acts) && Shows(s, j, t)
    ensures Matched(P.OnRelease(s, r), j, acts + [Released])
  {
    var gs, u := ReleaseMatches(fs, t, acts);
    Alone(s, r, j, P.OnRelease(s, r), t);
    assert Shows(P.OnRelease(s, r), j, u);
  }

  lemma {:induction false} KillMatches(s: P.State, r: P.RunId, j: JobId, fs: seq<L.Event>, t: L.State, acts: seq<Act>)
    requires Inside(s, j, r) && Does(fs, t, acts) && Shows(s, j, t)
    ensures Matched(P.Move(s, r, P.Killed), j, acts + [Killed])
  {
    var gs := Advance(fs, t, acts, L.Kill(false));
    Alone(s, r, j, P.Move(s, r, P.Killed), t);
    assert Shows(P.Move(s, r, P.Killed), j, L.Apply(t, L.Kill(false)));
  }

  /** Time passes unseen, or the lock expires; it does not while an execution is inside. */
  lemma {:induction false} TickMatches(
    c: P.Config, s: P.State, d: real, j: JobId, fs: seq<L.Event>, t: L.State, acts: seq<Act>)
    requires 0.0 <= c.hardLimit < c.lockTtl && K.Inv(c, s) && P.Enabled(c, s, P.Tick(d))
    requires Does(fs, t, acts) && Shows(s, j, t)
    ensures Matched(P.Apply(c, s, P.Tick(d)), j, acts + ActOf(s, P.Tick(d), j))
  {
    var s' := P.Apply(c, s, P.Tick(d));
    assert forall x :: Inside(s', j, x) <==> Inside(s, j, x);
    if Live(s.locks, j, s.now) && !Live(s'.locks, j, s'.now) {
      K.InvTick(c, s, d);
      if x :| Inside(s', j, x) { K.HolderIsLive(c, s', x); }
      assert !Occupied(s, j) && !Occupied(s', j);
      var gs := Advance(fs, t, acts, L.ExpireLock);
      assert Shows(s', j, L.Apply(t, L.ExpireLock));
    } else {
      KeepsShown(s, s', j, t);
      assert acts + [] == acts;
    }
  }

  /** Whether event `e` is, or may be, an act on job `j` */
  ghost predicate Concerns(s: P.State, e: P.Event, j: JobId) {
    match e
    case Acquire(r) => r in s.runs && s.runs[r].job == j
    case Release(r) => r in s.runs && s.runs[r].job == j
    case Kill(r) => Inside(s, j, r)
    case Tick(_) => true
    case _ => false
  }

  lemma OthersUnseen(c: P.Config, s: P.State, e: P.Event, j: JobId)
    requires P.Enabled(c, s, e) && !Concerns(s, e, j)
    ensures Live(P.Apply(c, s, e).locks, j, P.Apply(c, s, e).now) <==> Live(s.locks, j, s.now)
    ensures forall r :: Inside(P.Apply(c, s, e), j, r) <==> Inside(s, j, r)
  {
  }

  lemma {:induction false} StepMatches(c: P.Config, s: P.State, e: P.Event, j: JobId, acts: seq<Act>)
    requires 0.0 <= c.hardLimit < c.lockTtl && K.Inv(c, s) && P.Enabled(c, s, e) && Matched(s, j, acts)
    ensures Matched(P.Apply(c, s, e), j, acts + ActOf(s, e, j))
  {
    var fs, t :| Does(fs, t, acts) && Shows(s, j, t);
    if !Concerns(s, e, j) {
      OthersUnseen(c, s, e, j);
      KeepsShown(s, P.Apply(c, s, e), j, t);
      assert ActOf(s, e, j) == [] && acts + [] == acts;
    } else {
      match e
      case Acquire(r) => AcquireMatches(c, s, r, j, fs, t, acts);
      case Release(r) => ReleasesMatch(s, r, j, fs, t, acts);
      case Kill(r) => KillMatches(s, r, j, fs, t, acts);
      case Tick(d) => TickMatches(c, s, d, j, fs, t, acts);
    }
  }

  /** Trace inclusion: for every run of the timed machine and every job some run of the untimed one goes
      through the same acts on it in the same order, and ends with the same lock and the same occupancy by
      at most one execution. */
  lemma {:induction false} ProtocolRefinesLifecycle(c: P.Config, es: seq<P.Event>, j: JobId)
    requires 0.0 <= c.hardLimit < c.lockTtl && P.Exec(c, es).Some?
    ensures Matched(P.Exec(c, es).value, j, Acts(c, es, j))
  {
    if es == [] {
      assert Does([], L.Init(), []) && Shows(P.Init(), j, L.Init());
    } else {
      var before, e := es[..|es| - 1], es[|es| - 1];
      ProtocolRefinesLifecycle(c, before, j);
      K.InvHolds(c, before);
      StepMatches(c, P.Exec(c, before).value, e, j, Acts(c, before, j));
    }
  }
}
