/** core/circuit_breaker.py: the stored record, the four operations on it, and what they promise to
    callers that do not overlap. */
module CircuitBreaker {
  import opened RedisStore

  const RECORD_TTL := 86400.0

  datatype Config = Config(threshold: int, recovery: real) {
    predicate Valid() { 1 <= threshold && 0.0 < recovery }
  }

  const DEFAULTS := Config(3, 120.0)

  datatype CircuitState = Closed | Opened | HalfOpen

  datatype Record = Record(state: CircuitState, failures: int, lastFailure: Option<real>, openedAt: Option<real>)

  /** The key `circuit:{service}` */
  type Cell = Option<Entry<Record>>

  const FRESH := Record(Closed, 0, None, None)

  function GetState(cell: Cell, now: real): Record {
    if cell.Some? && Alive(cell.value, now) then cell.value.value else FRESH
  }

  function SaveState(rec: Record, now: real): Cell {
    Some(Entry(rec, Some(now + RECORD_TTL)))
  }

  function Succeeded(rec: Record): Record {
    rec.(state := Closed, failures := 0)
  }

  function Failed(c: Config, rec: Record, now: real): Record {
    var counted := rec.(failures := rec.failures + 1, lastFailure := Some(now));
    if counted.failures >= c.threshold then counted.(state := Opened, openedAt := Some(now)) else counted
  }

  /** The answer of is_available: `Probe` also stores the half-open record, `Raises` is the
      subtraction from a missing `opened_at`. */
  datatype Answer = Pass | Probe | Refuse | Raises

  function Decide(c: Config, rec: Record, now: real): Answer {
    match rec.state
    case Closed => Pass
    case HalfOpen => Pass
    case Opened =>
      if rec.openedAt.None? then Raises
      else if now - rec.openedAt.value > c.recovery then Probe
      else Refuse
  }

  predicate WellFormed(c: Config, rec: Record) {
    && 0 <= rec.failures
    && (rec.state.Closed? <==> rec.failures < c.threshold)
    && (!rec.state.Closed? ==> rec.openedAt.Some?)
  }

  ghost predicate CellOk(c: Config, cell: Cell) {
    cell.Some? ==> WellFormed(c, cell.value.value)
  }

  /** One protected call: admitted or refused at `at`; an admitted one ends at `done`. */
  datatype Call = Call(at: real, done: real, ok: bool)

  predicate Admitted(c: Config, cell: Cell, at: real) {
    var a := Decide(c, GetState(cell, at), at); a.Pass? || a.Probe?
  }

  function AfterCheck(c: Config, cell: Cell, at: real): Cell {
    if Decide(c, GetState(cell, at), at).Probe? then SaveState(GetState(cell, at).(state := HalfOpen), at) else cell
  }

  function AfterCall(c: Config, cell: Cell, call: Call): Cell {
    if !Admitted(c, cell, call.at) then cell
    else
      var checked := AfterCheck(c, cell, call.at);
      var rec := GetState(checked, call.done);
      SaveState(if call.ok then Succeeded(rec) else Failed(c, rec, call.done), call.done)
  }

  class Breaker {
    const config: Config
    var cell: Cell

    constructor (config: Config)
      ensures this.config == config && cell == None
    {
      this.config := config;
      cell := None;
    }

    method RecordSuccess(now: real)
      modifies this
      ensures cell == SaveState(Succeeded(GetState(old(cell), now)), now)
      ensures cell.Some? && cell.value.expiry == Some(now + 86400.0)
      ensures cell.value.value == GetState(old(cell), now).(state := Closed, failures := 0)
    {
      var data := GetState(cell, now);
      data := data.(state := Closed);
      data := data.(failures := 0);
      cell := SaveState(data, now);
    }

    method RecordFailure(now: real)
      modifies this
      ensures cell == SaveState(Failed(config, GetState(old(cell), now), now), now)
      ensures cell.Some? && cell.value.expiry == Some(now + 86400.0)
      ensures cell.value.value.failures == GetState(old(cell), now).failures + 1 &&
          cell.value.value.lastFailure == Some(now)
      ensures cell.value.value.failures >= config.threshold ==>
          cell.value.value.state == Opened && cell.value.value.openedAt == Some(now)
      ensures cell.value.value.failures < config.threshold ==>
          cell.value.value.state == GetState(old(cell), now).state &&
          cell.value.value.openedAt == GetState(old(cell), now).openedAt
    {
      var data := GetState(cell, now);
      data := data.(failures := data.failures + 1);
      data := data.(lastFailure := Some(now));
      if data.failures >= config.threshold {
        data := data.(state := Opened);
        data := data.(openedAt := Some(now));
      }
      cell := SaveState(data, now);
    }

    /** None is the exception that subtracting a missing `opened_at` raises. */
    method IsAvailable(now: real) returns (available: Option<bool>)
      modifies this
      ensures available.None? <==> Decide(config, GetState(old(cell), now), now).Raises?
      ensures available.Some? ==> available.value == Admitted(config, old(cell), now)
      ensures cell == AfterCheck(config, old(cell), now)
      ensures !GetState(old(cell), now).state.Opened? ==> available == Some(true) && cell == old(cell)
      ensures GetState(old(cell), now).state.Opened? && GetState(old(cell), now).openedAt.Some? ==>
          available == Some(now - GetState(old(cell), now).openedAt.value > config.recovery)
    {
      var data := GetState(cell, now);
      if data.state == Closed {
        return Some(true);
      }
      if data.state == Opened {
        if data.openedAt.None? {
          return None;
        }
        var openedAt := data.openedAt.value;
        if now - openedAt > config.recovery {
          data := data.(state := HalfOpen);
          cell := SaveState(data, now);
          return Some(true);
        }
        return Some(false);
      }
      return Some(true);
    }

    /** The context manager around a body that ends at `done`, successfully or not.  From a well-formed
        record the check never raises and the record stays well formed. */
    method Protect(call: Call) returns (admitted: Option<bool>)
      modifies this
      ensures admitted.None? <==> Decide(config, GetState(old(cell), call.at), call.at).Raises?
      ensures admitted.Some? ==> admitted.value == Admitted(config, old(cell), call.at)
      ensures cell == AfterCall(config, old(cell), call)
      ensures config.Valid() && CellOk(config, old(cell)) && call.at <= call.done ==>
          CellOk(config, cell) && admitted.Some?
    {
      admitted := IsAvailable(call.at);
      if admitted == Some(true) {
        if call.ok {
          RecordSuccess(call.done);
        } else {
          RecordFailure(call.done);
        }
      }
    }
  }

  // ---- Histories of calls that do not overlap ----

  ghost predicate Serial(calls: seq<Call>, from: real) {
    calls != [] ==> from <= calls[0].at <= calls[0].done && Serial(calls[1..], calls[0].done)
  }

  lemma SecondStartsLater(calls: seq<Call>, from: real)
    requires Serial(calls, from) && |calls| > 1
    ensures calls[0].done <= calls[1].at
  {
    assert calls[1..][0] == calls[1];
  }

  function Play(c: Config, calls: seq<Call>): Cell {
    if calls == [] then None else AfterCall(c, Play(c, calls[..|calls| - 1]), calls[|calls| - 1])
  }

  /** The outcomes of the admitted calls since the record last expired, in order. */
  function Outcomes(c: Config, calls: seq<Call>): seq<bool> {
    if calls == [] then []
    else
      var before, call := calls[..|calls| - 1], calls[|calls| - 1];
      if !Admitted(c, Play(c, before), call.at) then Outcomes(c, before)
      else
        var checked := AfterCheck(c, Play(c, before), call.at);
        (if checked.Some? && Alive(checked.value, call.done) then Outcomes(c, before) else []) + [call.ok]
  }

  /** The length of the run of failures at the end of a history. */
  function TrailingFailures(outcomes: seq<bool>): nat {
    if outcomes == [] || outcomes[|outcomes| - 1] then 0 else 1 + TrailingFailures(outcomes[..|outcomes| - 1])
  }

  lemma TrailingSnoc(outcomes: seq<bool>, ok: bool)
    ensures TrailingFailures(outcomes + [ok]) == if ok then 0 else 1 + TrailingFailures(outcomes)
  {
    assert (outcomes + [ok])[..|outcomes|] == outcomes;
  }

  /** The check before a call changes at most the state, never the count. */
  lemma CheckKeepsCount(c: Config, cell: Cell, at: real)
    requires CellOk(c, cell)
    ensures CellOk(c, AfterCheck(c, cell, at)) && (AfterCheck(c, cell, at).Some? <==> cell.Some?)
    ensures cell.Some? ==> AfterCheck(c, cell, at).value.value.failures == cell.value.value.failures
  {
  }

  /** What the record says about the outcomes since it last expired. */
  ghost predicate Means(c: Config, rec: Record, outcomes: seq<bool>) {
    && rec.failures == TrailingFailures(outcomes)
    && (rec.state.Closed? <==> TrailingFailures(outcomes) < c.threshold)
    && (rec.state.Opened? <==> TrailingFailures(outcomes) >= c.threshold)
  }

  /** While the record lives it counts exactly the trailing run of failures since it last expired, and
      the circuit is closed exactly while that run is shorter than the threshold. */
  lemma {:induction false} RecordCountsTrailingFailures(c: Config, calls: seq<Call>)
    requires c.Valid()
    ensures CellOk(c, Play(c, calls))
    ensures Play(c, calls).Some? ==> Means(c, Play(c, calls).value.value, Outcomes(c, calls))
    ensures Play(c, calls).None? ==> Outcomes(c, calls) == []
  {
    if calls == [] {
    } else {
      var before, call := calls[..|calls| - 1], calls[|calls| - 1];
      RecordCountsTrailingFailures(c, before);
      if Admitted(c, Play(c, before), call.at) {
        CheckKeepsCount(c, Play(c, before), call.at);
        var checked := AfterCheck(c, Play(c, before), call.at);
        var kept := if checked.Some? && Alive(checked.value, call.done) then Outcomes(c, before) else [];
        CallIsRecorded(c, checked, call, kept);
      }
    }
  }

  lemma CallIsRecorded(c: Config, checked: Cell, call: Call, kept: seq<bool>)
    requires c.Valid() && CellOk(c, checked)
    requires GetState(checked, call.done).failures == TrailingFailures(kept)
    ensures WellFormed(c, if call.ok then Succeeded(GetState(checked, call.done))
        else Failed(c, GetState(checked, call.done), call.done))
    ensures Means(c, if call.ok then Succeeded(GetState(checked, call.done))
        else Failed(c, GetState(checked, call.done), call.done),
                  kept + [call.ok])
  {
    TrailingSnoc(kept, call.ok);
  }

  // ---- The bound on calls to a dead service ----

  function RealCalls(c: Config, cell: Cell, calls: seq<Call>): nat
    decreases |calls|
  {
    if calls == [] then 0
    else (if Admitted(c, cell, calls[0].at) then 1 else 0) + RealCalls(c, AfterCall(c, cell, calls[0]), calls[1..])
  }

  /** The recovery periods that are over before the end of a stretch of time: `floor(span / recovery)`, and
      one less when the last of them ends with the stretch */
  function Periods(c: Config, span: real): int
    requires c.Valid()
  {
    if span <= 0.0 then 0
    else
      var whole := (span / c.recovery).Floor;
      if span / c.recovery == whole as real then whole - 1 else whole
  }

  lemma PeriodsMonotone(c: Config, a: real, b: real)
    requires c.Valid() && a <= b
    ensures 0 <= Periods(c, a) <= Periods(c, b)
    ensures a + c.recovery < b && 0.0 <= a ==> Periods(c, a) + 1 <= Periods(c, b)
    ensures c.recovery < b ==> 1 <= Periods(c, b)
  {
    Quotient(a, b, c.recovery);
    Quotient(0.0, b, c.recovery);
    Quotient(0.0, a, c.recovery);
  }

  lemma Quotient(a: real, b: real, r: real)
    requires 0.0 < r
    ensures a <= b ==> a / r <= b / r
    ensures a + r <= b ==> a / r + 1.0 <= b / r
    ensures a < b ==> a / r < b / r
    ensures a + r < b ==> a / r + 1.0 < b / r
  {
    var x, y := a / r, b / r;
    assert x * r == a && y * r == b;
    SignOfProduct(y - x, r);
    SignOfProduct(x - y, r);
    SignOfProduct(y - x - 1.0, r);
    SignOfProduct(x + 1.0 - y, r);
    assert (y - x) * r == b - a;
    assert (y - x - 1.0) * r == b - a - r;
    assert (x - y) * r == a - b && (x + 1.0 - y) * r == a + r - b;
  }

  lemma SignOfProduct(x: real, r: real)
    requires 0.0 < r
    ensures 0.0 <= x * r ==> 0.0 <= x
    ensures 0.0 < x * r ==> 0.0 < x
  {
  }

  /** The calls a record written at or before `now` can still let through up to `end`. */
  function Budget(c: Config, rec: Record, now: real, end: real): int
    requires c.Valid() && WellFormed(c, rec) && !rec.state.HalfOpen?
  {
    if rec.state.Closed? then c.threshold - rec.failures + Periods(c, end - now)
    else Periods(c, end - rec.openedAt.value)
  }

  lemma {:induction false} BudgetHolds(c: Config, cell: Cell, calls: seq<Call>, now: real, end: real)
    requires c.Valid() && Serial(calls, now) && end < now + RECORD_TTL
    requires forall i | 0 <= i < |calls| :: !calls[i].ok && calls[i].at <= end
    requires cell.Some? && cell.value.expiry.Some? && end < cell.value.expiry.value
    requires WellFormed(c, cell.value.value) && !cell.value.value.state.HalfOpen?
    requires cell.value.value.state.Opened? ==> cell.value.value.openedAt.value <= now
    ensures RealCalls(c, cell, calls) <= Budget(c, cell.value.value, now, end)
    decreases |calls|
  {
    var rec := cell.value.value;
    if calls == [] {
      PeriodsMonotone(c, end - now, end - now);
      if rec.state.Opened? { PeriodsMonotone(c, end - rec.openedAt.value, end - rec.openedAt.value); }
    } else {
      var call, rest := calls[0], calls[1..];
      if |calls| > 1 { SecondStartsLater(calls, now); }
      var cell' := AfterCall(c, cell, call);
      assert GetState(cell, call.at) == rec;
      if !Admitted(c, cell, call.at) {
        BudgetHolds(c, cell, rest, call.done, end);
      } else if call.done > end {
        LastCallFits(c, rec, call, now, end);
      } else {
        BudgetHolds(c, cell', rest, call.done, end);
        BudgetDrops(c, rec, call, now, end);
        FailureIsStored(c, cell, call, end);
      }
    }
  }

  lemma FailureIsStored(c: Config, cell: Cell, call: Call, end: real)
    requires c.Valid() && cell.Some? && cell.value.expiry.Some? && end < cell.value.expiry.value
    requires call.at <= call.done <= end < call.at + RECORD_TTL && !call.ok
    requires WellFormed(c, cell.value.value) && Admitted(c, cell, call.at)
    ensures AfterCall(c, cell, call).Some? && AfterCall(c, cell, call).value.expiry == Some(call.done + RECORD_TTL)
    ensures AfterCall(c, cell, call).value.value
            == Failed(c, if cell.value.value.state.Opened? then cell.value.value.(state := HalfOpen)
                else cell.value.value, call.done)
  {
  }

  lemma LastCallFits(c: Config, rec: Record, call: Call, now: real, end: real)
    requires c.Valid() && WellFormed(c, rec) && !rec.state.HalfOpen?
    requires now <= call.at <= end && Decide(c, rec, call.at) != Refuse
    ensures 1 <= Budget(c, rec, now, end)
  {
    PeriodsMonotone(c, 0.0, end - now);
    if rec.state.Opened? { PeriodsMonotone(c, 0.0, end - rec.openedAt.value); }
  }

  /** An admitted call that fails within the window uses up one unit of the budget. */
  lemma BudgetDrops(c: Config, rec: Record, call: Call, now: real, end: real)
    requires c.Valid() && WellFormed(c, rec) && !rec.state.HalfOpen?
    requires now <= call.at <= call.done <= end && Decide(c, rec, call.at) != Refuse
    ensures var rec' := Failed(c, if rec.state.Opened? then rec.(state := HalfOpen) else rec, call.done);
      WellFormed(c, rec') && !rec'.state.HalfOpen? && Budget(c, rec', call.done, end) + 1 <= Budget(c, rec, now, end)
  {
    PeriodsMonotone(c, end - call.done, end - now);
    if rec.state.Opened? { PeriodsMonotone(c, end - call.done, end - rec.openedAt.value); }
  }

  /** Against a service that always fails, callers that do not overlap make at most
      `threshold + floor(span / recovery)` real calls in any stretch of `span` seconds shorter than the
      life of the key, whatever well-formed record the stretch starts with; and one less when the last
      recovery period ends with the stretch. */
  lemma {:induction false} DeadServiceCallBound(c: Config, cell: Cell, calls: seq<Call>, start: real, now: real,
      span: real)
    requires c.Valid() && CellOk(c, cell) && 0.0 <= span < RECORD_TTL
    requires start <= now && Serial(calls, now)
    requires forall i | 0 <= i < |calls| :: !calls[i].ok && calls[i].at <= start + span
    ensures RealCalls(c, cell, calls) <= c.threshold + Periods(c, span) <= c.threshold + (span / c.recovery).Floor
    decreases |calls|
  {
    var end := start + span;
    PeriodsMonotone(c, 0.0, span);
    if calls == [] {
    } else {
      var call, rest := calls[0], calls[1..];
      if |calls| > 1 { SecondStartsLater(calls, now); }
      if !Admitted(c, cell, call.at) {
        DeadServiceCallBound(c, cell, rest, start, call.done, span);
      } else if call.done > end {
        assert rest == [];
      } else {
        var cell' := AfterCall(c, cell, call);
        FirstFailure(c, cell, call);
        BudgetHolds(c, cell', rest, call.done, end);
        PeriodsMonotone(c, end - call.done, span);
      }
    }
  }

  /** With the settings it starts with: three calls, and one more for every two minutes that are over. */
  lemma {:induction false} DefaultCallBound(calls: seq<Call>, start: real, span: real)
    requires 0.0 <= span < RECORD_TTL && Serial(calls, start)
    requires forall i | 0 <= i < |calls| :: !calls[i].ok && calls[i].at <= start + span
    ensures RealCalls(DEFAULTS, None, calls) <= 3 + (span / 120.0).Floor
  {
    DeadServiceCallBound(DEFAULTS, None, calls, start, start, span);
  }

  lemma FirstFailure(c: Config, cell: Cell, call: Call)
    requires c.Valid() && CellOk(c, cell) && call.at <= call.done && !call.ok && Admitted(c, cell, call.at)
    ensures var cell' := AfterCall(c, cell, call);
      && cell'.Some? && cell'.value.expiry == Some(call.done + RECORD_TTL)
      && WellFormed(c, cell'.value.value) && 1 <= cell'.value.value.failures && !cell'.value.value.state.HalfOpen?
      && (cell'.value.value.state.Opened? ==> cell'.value.value.openedAt == Some(call.done))
  {
  }

  /** `p` steps from `t` on */
  function After(t: real, step: real, p: nat): real
    decreases p
  {
    if p == 0 then t else After(t + step, step, p - 1)
  }

  lemma {:induction false} AfterIs(t: real, step: real, p: nat)
    ensures After(t, step, p) == t + p as real * step
    decreases p
  {
    if p == 0 {
    } else {
      AfterIs(t + step, step, p - 1);
      assert p as real * step == step + (p - 1) as real * step;
    }
  }

  lemma {:induction false} AfterIsLater(t: real, step: real, p: nat)
    requires p > 0 ==> 0.0 < step
    ensures t <= After(t, step, p)
    decreases p
  {
    if p == 0 {
    } else {
      AfterIsLater(t + step, step, p - 1);
    }
  }

  /** Probes of an open circuit, each `step` after the last */
  lemma {:induction false} SteadyProbes(c: Config, cell: Cell, t: real, step: real, p: nat) returns (calls: seq<Call>)
    requires c.Valid() && CellOk(c, cell) && cell.Some? && cell.value.expiry == Some(t + RECORD_TTL)
    requires cell.value.value.state.Opened? && cell.value.value.openedAt == Some(t)
    requires p > 0 ==> c.recovery < step < RECORD_TTL
    ensures Serial(calls, t) && RealCalls(c, cell, calls) == p
    ensures forall i | 0 <= i < |calls| :: !calls[i].ok && calls[i].at <= After(t, step, p)
    decreases p
  {
    if p == 0 {
      calls := [];
    } else {
      var probe := Call(t + step, t + step, false);
      var cell' := ProbeFails(c, cell, t, step);
      var rest := SteadyProbes(c, cell', t + step, step, p - 1);
      AfterIsLater(t + step, step, p - 1);
      calls := [probe] + rest;
      assert calls[1..] == rest;
    }
  }

  lemma ProbeFails(c: Config, cell: Cell, t: real, step: real) returns (cell': Cell)
    requires c.Valid() && CellOk(c, cell) && cell.Some? && cell.value.expiry == Some(t + RECORD_TTL)
    requires cell.value.value.state.Opened? && cell.value.value.openedAt == Some(t) && c.recovery < step < RECORD_TTL
    ensures cell' == AfterCall(c, cell, Call(t + step, t + step, false)) && Admitted(c, cell, t + step)
    ensures CellOk(c, cell') && cell'.Some? && cell'.value.expiry == Some(t + step + RECORD_TTL)
    ensures cell'.value.value.state.Opened? && cell'.value.value.openedAt == Some(t + step)
  {
    cell' := AfterCall(c, cell, Call(t + step, t + step, false));
  }

  /** Failures that open the circuit at `t`, and the probes after it */
  lemma {:induction false} FailuresThenProbes(c: Config, cell: Cell, t: real, step: real, p: nat)
    returns (calls: seq<Call>)
    requires c.Valid() && CellOk(c, cell) && GetState(cell, t).state.Closed?
    requires p > 0 ==> c.recovery < step < RECORD_TTL
    ensures Serial(calls, t) && RealCalls(c, cell, calls) == c.threshold - GetState(cell, t).failures + p
    ensures forall i | 0 <= i < |calls| :: !calls[i].ok && calls[i].at <= After(t, step, p)
    decreases c.threshold - GetState(cell, t).failures
  {
    var failure := Call(t, t, false);
    var cell' := AfterCall(c, cell, failure);
    var rest: seq<Call>;
    if GetState(cell', t).state.Closed? {
      rest := FailuresThenProbes(c, cell', t, step, p);
    } else {
      rest := SteadyProbes(c, cell', t, step, p);
    }
    AfterIsLater(t, step, p);
    calls := [failure] + rest;
    assert calls[1..] == rest;
  }

  /** The length of the steps that fit the probes of a stretch into it */
  lemma {:induction false} StepFits(c: Config, span: real) returns (step: real)
    requires c.Valid() && 0.0 <= span < RECORD_TTL
    ensures Periods(c, span) >= 0 && (Periods(c, span) > 0 ==> c.recovery < step < RECORD_TTL)
    ensures Periods(c, span) as real * step <= span
  {
    PeriodsMonotone(c, span, span);
    var p := Periods(c, span);
    step := if p == 0 then 0.0 else span / p as real;
    if p > 0 {
      assert span / c.recovery * c.recovery == span && step * p as real == span;
      LongerThan(span / c.recovery, step, c.recovery, p as real);
      AtMostWhole(step, p as real);
    }
  }

  lemma LongerThan(x: real, y: real, r: real, p: real)
    requires 0.0 < r && 0.0 < p < x && x * r == y * p
    ensures r < y
  {
    assert (x - p) * r > 0.0;
    assert (y - r) * p == (x - p) * r;
    SignOfProduct(y - r, p);
  }

  lemma AtMostWhole(y: real, p: real)
    requires 0.0 < y && 1.0 <= p
    ensures y <= y * p
  {
    assert y * (p - 1.0) >= 0.0;
  }

  /** Serial failing calls within a stretch */
  ghost predicate FailWithin(calls: seq<Call>, start: real, end: real) {
    Serial(calls, start) && forall i | 0 <= i < |calls| :: !calls[i].ok && calls[i].at <= end
  }

  lemma {:induction false} Widen(calls: seq<Call>, start: real, end: real, later: real)
    requires FailWithin(calls, start, end) && end <= later
    ensures FailWithin(calls, start, later)
  {
  }

  lemma {:induction false} LastStepFits(start: real, step: real, p: nat, span: real)
    requires p as real * step <= span
    ensures After(start, step, p) <= start + span
  {
    AfterIs(start, step, p);
  }

  lemma {:induction false} FailuresFit(c: Config, start: real, step: real, p: nat) returns (calls: seq<Call>)
    requires c.Valid() && (p > 0 ==> c.recovery < step < RECORD_TTL)
    ensures FailWithin(calls, start, After(start, step, p)) && RealCalls(c, None, calls) == c.threshold + p
  {
    calls := FailuresThenProbes(c, None, start, step, p);
  }

  lemma {:induction false} MostCalls(c: Config, start: real, span: real, p: nat) returns (calls: seq<Call>)
    requires c.Valid() && 0.0 <= span < RECORD_TTL && p == Periods(c, span)
    ensures FailWithin(calls, start, start + span) && RealCalls(c, None, calls) == c.threshold + p
  {
    var step := StepFits(c, span);
    LastStepFits(start, step, p, span);
    calls := FailuresFit(c, start, step, p);
    Widen(calls, start, After(start, step, p), start + span);
  }

  /** The bound is met for every span: the failures that open the circuit at once, and a probe just after
      each recovery period. */
  lemma {:induction false} DeadServiceBoundIsMet(c: Config, start: real, span: real)
    requires c.Valid() && 0.0 <= span < RECORD_TTL
    ensures exists calls ::
        FailWithin(calls, start, start + span) && RealCalls(c, None, calls) == c.threshold + Periods(c, span)
  {
    PeriodsMonotone(c, span, span);
    var calls := MostCalls(c, start, span, Periods(c, span));
  }

  /** A service that always succeeds is called every time. */
  lemma {:induction false} HealthyServiceAlwaysCalled(c: Config, cell: Cell, calls: seq<Call>)
    requires c.Valid() && (cell.Some? ==> cell.value.value.state.Closed?)
    requires forall i | 0 <= i < |calls| :: calls[i].ok
    ensures RealCalls(c, cell, calls) == |calls|
    decreases |calls|
  {
    if calls == [] {
    } else {
      HealthyServiceAlwaysCalled(c, AfterCall(c, cell, calls[0]), calls[1..]);
    }
  }

  // ---- Exactly which calls are refused ----

  /** When the last admitted call ended */
  function LastEnd(c: Config, calls: seq<Call>): Option<real> {
    if calls == [] then None
    else
      var before, call := calls[..|calls| - 1], calls[|calls| - 1];
      if Admitted(c, Play(c, before), call.at) then Some(call.done) else LastEnd(c, before)
  }

  /** The outcomes the record speaks of at `at`: none once it has expired */
  function Remembered(c: Config, calls: seq<Call>, at: real): seq<bool> {
    if Play(c, calls).Some? && Alive(Play(c, calls).value, at) then Outcomes(c, calls) else []
  }

  lemma {:induction false} OpenedAtLastEnd(c: Config, calls: seq<Call>)
    requires c.Valid()
    ensures Play(c, calls).Some? && Play(c, calls).value.value.state.Opened? ==>
        Play(c, calls).value.value.openedAt == LastEnd(c, calls)
  {
    if calls == [] {
    } else {
      var before, call := calls[..|calls| - 1], calls[|calls| - 1];
      OpenedAtLastEnd(c, before);
      RecordCountsTrailingFailures(c, before);
      if Admitted(c, Play(c, before), call.at) { AdmittedOpensAtDone(c, Play(c, before), call); }
    }
  }

  lemma AdmittedOpensAtDone(c: Config, cell: Cell, call: Call)
    requires c.Valid() && CellOk(c, cell) && Admitted(c, cell, call.at)
    ensures AfterCall(c, cell, call).value.value.state.Opened? ==>
        AfterCall(c, cell, call).value.value.openedAt == Some(call.done)
  {
  }

  /** After any history of calls that do not overlap, a call is refused exactly when the trailing run of
      failures since the record expired has reached the threshold and at most the recovery time has passed
      since the last of them ended. */
  lemma {:induction false} RefusedExactly(c: Config, calls: seq<Call>, at: real)
    requires c.Valid()
    ensures !Admitted(c, Play(c, calls), at) <==>
        TrailingFailures(Remembered(c, calls, at)) >= c.threshold && LastEnd(c, calls).Some? &&
        at <= LastEnd(c, calls).value + c.recovery
  {
    RecordCountsTrailingFailures(c, calls);
    OpenedAtLastEnd(c, calls);
  }

  // ---- One probe per half-open period ----

  /** The call that finds the circuit open for longer than the recovery time and stores it half-open */
  predicate IsProbe(c: Config, calls: seq<Call>, i: nat)
    requires i < |calls|
  {
    Decide(c, GetState(Play(c, calls[..i]), calls[i].at), calls[i].at).Probe?
  }

  lemma {:induction false} SerialOrder(calls: seq<Call>, from: real, i: nat, k: nat)
    requires Serial(calls, from) && i < k < |calls|
    ensures calls[i].at <= calls[i].done <= calls[k].at <= calls[k].done
    decreases |calls|
  {
    if i == 0 {
      if k > 1 { SerialOrder(calls[1..], calls[0].done, 0, k - 1); }
    } else {
      SerialOrder(calls[1..], calls[0].done, i - 1, k - 1);
    }
  }

  ghost predicate OpenedSince(cell: Cell, t: real) {
    cell.Some? && cell.value.value.state.Opened? ==>
        cell.value.value.openedAt.Some? && cell.value.value.openedAt.value >= t
  }

  lemma CallOpensLater(c: Config, cell: Cell, call: Call, t: real)
    requires c.Valid() && CellOk(c, cell) && (OpenedSince(cell, t) || Admitted(c, cell, call.at)) && t <= call.done
    ensures OpenedSince(AfterCall(c, cell, call), t)
  {
  }

  lemma {:induction false} OpenedAfterProbe(c: Config, calls: seq<Call>, from: real, i: nat, k: nat)
    requires c.Valid() && Serial(calls, from) && i < k <= |calls| && IsProbe(c, calls, i)
    ensures OpenedSince(Play(c, calls[..k]), calls[i].done)
    decreases k
  {
    var n := k - 1;
    assert calls[..k][..n] == calls[..n] && calls[..k][n] == calls[n];
    RecordCountsTrailingFailures(c, calls[..n]);
    if i < n {
      OpenedAfterProbe(c, calls, from, i, n);
      SerialOrder(calls, from, i, n);
    }
    CallOpensLater(c, Play(c, calls[..n]), calls[n], calls[i].done);
  }

  /** Callers that do not overlap make one real call per half-open period: none of them ever finds the
      record half-open, and a second probe comes only a full recovery time after the first has ended. */
  lemma {:induction false} SerialCallersProbeOnce(c: Config, calls: seq<Call>, from: real, i: nat, k: nat)
    requires c.Valid() && Serial(calls, from) && i < k < |calls| && IsProbe(c, calls, i)
    ensures !GetState(Play(c, calls[..k]), calls[k].at).state.HalfOpen?
    ensures IsProbe(c, calls, k) ==> calls[k].at > calls[i].done + c.recovery
  {
    RecordCountsTrailingFailures(c, calls[..k]);
    OpenedAfterProbe(c, calls, from, i, k);
  }
}
