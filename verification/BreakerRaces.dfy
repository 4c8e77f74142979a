/** core/circuit_breaker.py under concurrency: every operation is a GET and, later, a SETEX computed
    from what the GET returned, so updates can be lost. */
module BreakerRaces {
  import opened RedisStore
  import opened CircuitBreaker

  type CallerId = nat

  datatype Operation = RecordSuccess | RecordFailure | IsAvailable

  /** A caller between its GET and its SETEX. */
  datatype Local = Read(op: Operation, rec: Record)

  /** `raised` is history: some is_available call subtracted from a missing `opened_at`. */
  datatype StateOf<Callers> = State(now: real, cell: Cell, callers: Callers, raised: bool)

  type State = StateOf<map<CallerId, Local>>

  datatype Event =
    | Get(id: CallerId, op: Operation)
    | Set(id: CallerId)
    | Drop(id: CallerId)
    | Tick(d: real)

  function Init(): State {
    State(0.0, None, map[], false)
  }

  predicate Enabled(s: State, e: Event) {
    match e
    case Get(id, _) => id !in s.callers
    case Set(id) => id in s.callers
    case Drop(id) => id in s.callers
    case Tick(d) => d >= 0.0
  }

  /** What a caller writes, if anything, given what it read and the clock at the write. */
  function Written(c: Config, l: Local, cell: Cell, now: real): Cell {
    match l.op
    case RecordSuccess => SaveState(Succeeded(l.rec), now)
    case RecordFailure => SaveState(Failed(c, l.rec, now), now)
    case IsAvailable => if Decide(c, l.rec, now).Probe? then SaveState(l.rec.(state := HalfOpen), now) else cell
  }

  function Apply(c: Config, s: State, e: Event): State
    requires Enabled(s, e)
  {
    match e
    case Get(id, op) => s.(callers := s.callers[id := Read(op, GetState(s.cell, s.now))])
    case Set(id) =>
      s.(cell := Written(c, s.callers[id], s.cell, s.now), callers := s.callers - {id},
         raised := s.raised || (s.callers[id].op.IsAvailable? && Decide(c, s.callers[id].rec, s.now).Raises?))
    case Drop(id) => s.(callers := s.callers - {id})
    case Tick(d) => s.(now := s.now + d)
  }

  function Exec(c: Config, es: seq<Event>): Option<State> {
    if es == [] then Some(Init())
    else
      var before := Exec(c, es[..|es| - 1]);
      if before.Some? && Enabled(before.value, es[|es| - 1])
      then Some(Apply(c, before.value, es[|es| - 1]))
      else None
  }

  ghost predicate Inv(c: Config, s: State) {
    && CellOk(c, s.cell) && !s.raised
    && (forall id | id in s.callers :: WellFormed(c, s.callers[id].rec))
  }

  /** Under every interleaving of the GET and SETEX halves of all callers, with crashes and expiry,
      every stored record stays well formed although updates are lost: closed exactly while its count
      is below the threshold, and with `opened_at` set otherwise, so the recovery subtraction never
      raises. */
  lemma {:induction false} RecordsStayWellFormed(c: Config, es: seq<Event>)
    requires c.Valid() && Exec(c, es).Some?
    ensures Inv(c, Exec(c, es).value)
  {
    if es == [] {
    } else {
      RecordsStayWellFormed(c, es[..|es| - 1]);
      match es[|es| - 1]
      case Get(_, _) =>
      case Set(_) =>
      case Drop(_) =>
      case Tick(_) =>
    }
  }

  /** With a threshold of zero the first recorded success stores a closed record that is not below the
      threshold, so the condition on the threshold is needed. */
  lemma ThresholdMustBePositive(c: Config)
    requires 0.0 < c.recovery
    ensures (forall es | Exec(c, es).Some? :: Inv(c, Exec(c, es).value)) <==> 1 <= c.threshold
  {
    if 1 <= c.threshold {
      forall es | Exec(c, es).Some? ensures Inv(c, Exec(c, es).value) { RecordsStayWellFormed(c, es); }
    } else {
      var first, es := [Get(0, RecordSuccess)], [Get(0, RecordSuccess), Set(0)];
      assert first[..0] == [] && Exec(c, []) == Some(Init());
      var s := Apply(c, Init(), first[0]);
      assert Exec(c, first) == Some(s);
      assert es[..1] == first && Exec(c, es) == Some(Apply(c, s, es[1]));
      assert !Inv(c, Exec(c, es).value);
    }
  }

  // ---- The half-open period ----

  predicate HalfOpenStored(s: State) {
    s.cell.Some? && s.cell.value.value.state.HalfOpen?
  }

  /** The write of a record_success or record_failure */
  predicate Reports(s: State, e: Event) {
    e.Set? && e.id in s.callers && !s.callers[e.id].op.IsAvailable?
  }

  /** A stored half-open record is ended by the first report, whatever that caller had read, and by
      nothing else. */
  lemma {:induction false} HalfOpenEndsByReport(c: Config, es: seq<Event>, e: Event)
    requires c.Valid() && Exec(c, es).Some? && Enabled(Exec(c, es).value, e) && HalfOpenStored(Exec(c, es).value)
    ensures HalfOpenStored(Apply(c, Exec(c, es).value, e)) <==> !Reports(Exec(c, es).value, e)
  {
    RecordsStayWellFormed(c, es);
    assert e.Set? ==> WellFormed(c, Exec(c, es).value.callers[e.id].rec);
  }

  /** None of the last events of a run, after `from`, is a report. */
  ghost predicate NoReportSince(c: Config, es: seq<Event>, from: nat)
    requires from <= |es|
  {
    from < |es| ==>
      var before := es[..|es| - 1];
      Exec(c, before).Some? && !Reports(Exec(c, before).value, es[|es| - 1]) && NoReportSince(c, before, from)
  }

  /** The half-open state is documented to let one request through.  From the store of a probe until some
      caller reports, and while the key lives, every is_available passes, under any interleaving. */
  lemma {:induction false} HalfOpenAdmitsEveryone(c: Config, es: seq<Event>, from: nat, id: CallerId, at: real)
    requires c.Valid() && from <= |es| && Exec(c, es).Some? && NoReportSince(c, es, from)
    requires Exec(c, es[..from]).Some? && HalfOpenStored(Exec(c, es[..from]).value)
    ensures HalfOpenStored(Exec(c, es).value)
    ensures
      var s := Exec(c, es).value;
      id !in s.callers && Alive(s.cell.value, s.now) ==>
        Decide(c, Apply(c, s, Get(id, IsAvailable)).callers[id].rec, at).Pass?
  {
    if from < |es| {
      var before := es[..|es| - 1];
      assert before[..from] == es[..from];
      HalfOpenAdmitsEveryone(c, before, from, id, at);
      HalfOpenEndsByReport(c, before, es[|es| - 1]);
    } else {
      assert es[..from] == es;
    }
  }

  // ---- How many requests an outage lets through ----

  /** A record of the outage that began at `t`; half-open only once the recovery time is over. */
  predicate OpenSince(c: Config, rec: Record, t: real, now: real) {
    !rec.state.Closed? && rec.openedAt == Some(t) && (rec.state.HalfOpen? ==> now > t + c.recovery)
  }

  /** The stored record and every pending is_available read are of that outage. */
  ghost predicate Outage(c: Config, s: State, t: real) {
    && s.cell.Some? && OpenSince(c, s.cell.value.value, t, s.now)
    && (forall id | id in s.callers && s.callers[id].op.IsAvailable? :: OpenSince(c, s.callers[id].rec, t, s.now))
  }

  /** After the first `from` events no caller reports, and whoever reads finds the key alive. */
  ghost predicate Unreported(c: Config, es: seq<Event>, from: nat)
    requires from <= |es|
  {
    from < |es| ==>
      var before, e := es[..|es| - 1], es[|es| - 1];
      && Exec(c, before).Some? && Unreported(c, before, from) && !Reports(Exec(c, before).value, e)
      && (e.Get? ==>
          Exec(c, before).value.cell.Some? && Alive(Exec(c, before).value.cell.value, Exec(c, before).value.now))
  }

  /** The moment in which an is_available call decides */
  predicate Decides(s: State, e: Event) {
    e.Set? && e.id in s.callers && s.callers[e.id].op.IsAvailable?
  }

  /** ... and lets its request through. */
  predicate LetsThrough(c: Config, s: State, e: Event) {
    Decides(s, e) && (Decide(c, s.callers[e.id].rec, s.now).Pass? || Decide(c, s.callers[e.id].rec, s.now).Probe?)
  }

  /** The requests let through after the first `from` events */
  ghost function Through(c: Config, es: seq<Event>, from: nat): nat
    requires from <= |es| && Exec(c, es).Some?
  {
    if from == |es| then 0
    else
      var before, e := es[..|es| - 1], es[|es| - 1];
      Through(c, before, from) + (if LetsThrough(c, Exec(c, before).value, e) then 1 else 0)
  }

  /** The is_available calls that decide after them, and later than `t` */
  ghost function DecideAfter(c: Config, es: seq<Event>, from: nat, t: real): nat
    requires from <= |es| && Exec(c, es).Some?
  {
    if from == |es| then 0
    else
      var before, e := es[..|es| - 1], es[|es| - 1];
      DecideAfter(c, before, from, t) + (if Decides(Exec(c, before).value, e) &&
          Exec(c, before).value.now > t then 1 else 0)
  }

  lemma OutageStep(c: Config, s: State, e: Event, t: real)
    requires Outage(c, s, t) && Enabled(s, e) && !Reports(s, e) && (e.Get? ==> Alive(s.cell.value, s.now))
    ensures Outage(c, Apply(c, s, e), t)
    ensures LetsThrough(c, s, e) <==> Decides(s, e) && s.now > t + c.recovery
  {
  }

  /** Until the first report of an outage, and while the key lives, the requests let through are exactly
      those whose is_available decides when the recovery time is over, whether it had read the record open
      or half-open; so exactly one passes if and only if exactly one caller decides then. */
  lemma {:induction false} OutageLetsThroughExactly(c: Config, es: seq<Event>, from: nat, t: real)
    requires from <= |es| && Exec(c, es).Some? && Unreported(c, es, from)
    requires Exec(c, es[..from]).Some? && Outage(c, Exec(c, es[..from]).value, t)
    ensures Outage(c, Exec(c, es).value, t)
    ensures Through(c, es, from) == DecideAfter(c, es, from, t + c.recovery)
    ensures Through(c, es, from) == 1 <==> DecideAfter(c, es, from, t + c.recovery) == 1
  {
    if from == |es| {
      assert es[..from] == es;
    } else {
      var before := es[..|es| - 1];
      assert before[..from] == es[..from];
      OutageLetsThroughExactly(c, before, from, t);
      OutageStep(c, Exec(c, before).value, es[|es| - 1], t);
    }
  }

  lemma {:induction false} Extend(c: Config, es: seq<Event>, s: State, e: Event)
    requires Exec(c, es) == Some(s) && Enabled(s, e)
    ensures Exec(c, es + [e]) == Some(Apply(c, s, e)) && (es + [e])[..|es|] == es
  {
  }

  /** A run at whose end the circuit has just opened, nobody else being under way */
  lemma {:induction false} OpenCircuit(c: Config) returns (es: seq<Event>, s: State)
    requires c.Valid()
    ensures Exec(c, es) == Some(s) && s.now == 0.0 && s.callers == map[]
    ensures s.cell.Some? && s.cell.value.expiry == Some(RECORD_TTL)
    ensures s.cell.value.value.state.Opened? && s.cell.value.value.openedAt == Some(0.0)
  {
    es, s := [], Init();
    var failed := 0;
    while failed < c.threshold
      invariant failed <= c.threshold && Exec(c, es) == Some(s) && s.now == 0.0 && s.callers == map[]
      invariant GetState(s.cell, 0.0).failures == failed &&
          (failed > 0 ==> s.cell.Some? && s.cell.value.expiry == Some(RECORD_TTL))
      invariant failed == c.threshold ==>
          GetState(s.cell, 0.0).state.Opened? && GetState(s.cell, 0.0).openedAt == Some(0.0)
    {
      Extend(c, es, s, Get(0, RecordFailure));
      es, s := es + [Get(0, RecordFailure)], Apply(c, s, Get(0, RecordFailure));
      Extend(c, es, s, Set(0));
      es, s := es + [Set(0)], Apply(c, s, Set(0));
      failed := failed + 1;
    }
  }

  /** Any number of callers that all read the record open before anyone stores it half-open pass. */
  lemma {:induction false} ManyProbe(c: Config, n: nat)
    requires c.Valid()
    ensures exists es, from: nat ::
      && from <= |es| && Exec(c, es).Some? && Unreported(c, es, from)
      && Exec(c, es[..from]).Some? && Outage(c, Exec(c, es[..from]).value, 0.0) && Through(c, es, from) == n
  {
    var start, s := OpenCircuit(c);
    var es, from := start, |start|;
    assert es[..from] == start;
    var m := 0;
    while m < n
      invariant m <= n && from <= |es| && Exec(c, es) == Some(s) && es[..from] == start && Unreported(c, es, from)
      invariant Through(c, es, from) == 0 && s.now == 0.0 && s.cell == Exec(c, start).value.cell
      invariant forall id :: id in s.callers <==> 0 <= id < m
      invariant forall id | 0 <= id < m :: s.callers[id] == Read(IsAvailable, s.cell.value.value)
    {
      var e := Get(m, IsAvailable);
      Extend(c, es, s, e);
      assert (es + [e])[..from] == start;
      es, s := es + [e], Apply(c, s, e);
      m := m + 1;
    }
    var wait := Tick(c.recovery + 1.0);
    Extend(c, es, s, wait);
    assert (es + [wait])[..from] == start;
    es, s := es + [wait], Apply(c, s, wait);
    m := 0;
    while m < n
      invariant m <= n && from <= |es| && Exec(c, es) == Some(s) && es[..from] == start && Unreported(c, es, from)
      invariant Through(c, es, from) == m && s.now == c.recovery + 1.0
      invariant forall id | m <= id < n ::
          id in s.callers && s.callers[id] == Read(IsAvailable, Exec(c, start).value.cell.value.value)
    {
      var e := Set(m);
      Extend(c, es, s, e);
      assert (es + [e])[..from] == start;
      es, s := es + [e], Apply(c, s, e);
      m := m + 1;
    }
  }
}
