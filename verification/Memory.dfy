/** core/memory.py and core/memory_safety.py: the record of the last decision for a product, its
    outcome and accuracy, and the correction it yields for the next forecast. */
module Memory {
  import opened RedisStore
  import opened Rounding

  const ACCURACY_FLOOR := 0.40
  const ANOMALY_THRESHOLD := 3.0
  const ACCURATE := 0.90
  const MEMORY_TTL := 2592000.0

  datatype MemoryKey = MemoryKey(tenant: TenantId, sector: string, product: string)

  /** `predicted` is the recommendation's adjusted_30_days, which may be missing. */
  datatype Record = Record(predicted: Option<real>, confidence: real, actual: Option<real>, accuracy: Option<real>)

  type Memories = map<MemoryKey, Entry<Record>>

  datatype Saving =
    | NoPrediction
    | Anomaly
    | AutoReset
    | Saved(accuracy: Option<real>)

  function Abs(x: real): real { if x < 0.0 then -x else x }

  predicate HasForecast(r: Record) {
    r.predicted.Some? && r.predicted.value > 0.0
  }

  /** The accuracy of an outcome `a` against a positive forecast `p` */
  function Accuracy(a: real, p: real): real
    requires p > 0.0
  {
    1.0 - Abs(a - p) / p
  }

  predicate IsAnomaly(r: Record, a: real) {
    HasForecast(r) && (a / r.predicted.value > ANOMALY_THRESHOLD || a / r.predicted.value < 1.0 / ANOMALY_THRESHOLD)
  }

  function WithOutcome(r: Record, a: real): Record {
    var noted := r.(actual := Some(a));
    if HasForecast(r) then noted.(accuracy := Some(Round3(Accuracy(a, r.predicted.value)))) else noted
  }

  predicate BelowFloor(r: Record, a: real) {
    HasForecast(r) && Accuracy(a, r.predicted.value) < ACCURACY_FLOOR
  }

  function AfterSafeOutcome(db: Memories, k: MemoryKey, a: real, now: real): Memories {
    if !Live(db, k, now) || IsAnomaly(db[k].value, a) then db
    else if BelowFloor(db[k].value, a) then db - {k}
    else SetEx(db, k, WithOutcome(db[k].value, a), now, MEMORY_TTL)
  }

  function SafeOutcomeReply(db: Memories, k: MemoryKey, a: real, now: real): Saving {
    if !Live(db, k, now) then NoPrediction
    else if IsAnomaly(db[k].value, a) then Anomaly
    else if BelowFloor(db[k].value, a) then AutoReset
    else Saved(WithOutcome(db[k].value, a).accuracy)
  }

  /** The unguarded writer of core/memory.py, which nothing calls. */
  function AfterUnsafeOutcome(db: Memories, k: MemoryKey, a: real, now: real): Memories {
    if !Live(db, k, now) then db else SetEx(db, k, WithOutcome(db[k].value, a), now, MEMORY_TTL)
  }

  function Clamp(x: real): real {
    var capped := if x < 1.5 then x else 1.5;
    if capped < 0.5 then 0.5 else capped
  }

  /** Half-way from the forecast to the outcome, as a factor */
  function HalfWay(a: real, p: real): real
    requires p > 0.0
  {
    1.0 + (a / p - 1.0) * 0.5
  }

  function AdjustmentFactor(m: Option<Record>): real {
    if m.None? || m.value.actual.None? then 1.0
    else if m.value.accuracy.None? || m.value.accuracy.value >= ACCURATE then 1.0
    else if HasForecast(m.value) && m.value.actual.value > 0.0
    then Round3(Clamp(HalfWay(m.value.actual.value, m.value.predicted.value)))
    else 1.0
  }

  datatype Note = NoOutcome | Accurate | TooOptimistic | TooConservative | Plain

  function MemoryNote(accuracy: Option<real>, adjustment: real): Note {
    if accuracy.None? then NoOutcome
    else if accuracy.value >= ACCURATE then Accurate
    else if adjustment < 1.0 then TooOptimistic
    else if adjustment > 1.0 then TooConservative
    else Plain
  }

  function Logged(log: map<MemoryKey, seq<string>>, k: MemoryKey, reason: string): map<MemoryKey, seq<string>> {
    log[k := [reason] + (if k in log then log[k] else [])]
  }

  class MemoryStore {
    var memories: Memories
    /** Reset reasons per product, newest first */
    var resetLog: map<MemoryKey, seq<string>>

    constructor ()
      ensures memories == map[] && resetLog == map[]
    {
      memories, resetLog := map[], map[];
    }

    method SaveDecision(k: MemoryKey, predicted: Option<real>, confidence: real, now: real)
      modifies this`memories
      ensures memories == SetEx(old(memories), k, Record(predicted, confidence, None, None), now, MEMORY_TTL)
    {
      memories := SetEx(memories, k, Record(predicted, confidence, None, None), now, MEMORY_TTL);
    }

    method ResetMemory(k: MemoryKey, reason: string, now: real) returns (existed: bool)
      modifies this
      ensures existed == Live(old(memories), k, now)
      ensures memories == old(memories) - {k}
      ensures resetLog == Logged(old(resetLog), k, reason)
      ensures k in resetLog && resetLog[k] == [reason] + (if k in old(resetLog) then old(resetLog)[k] else [])
    {
      existed := Live(memories, k, now);
      memories := memories - {k};
      var log := if k in resetLog then resetLog[k] else [];
      resetLog := resetLog[k := [reason] + log];
    }

    method SaveActualOutcomeSafe(k: MemoryKey, a: real, now: real) returns (r: Saving)
      modifies this
      ensures memories == AfterSafeOutcome(old(memories), k, a, now)
      ensures r == SafeOutcomeReply(old(memories), k, a, now)
      ensures resetLog == if r.AutoReset? then Logged(old(resetLog), k, "auto_accuracy_floor") else old(resetLog)
    {
      if !Live(memories, k, now) {
        return NoPrediction;
      }
      var memory := memories[k].value;
      var predicted := memory.predicted;
      if predicted.Some? && predicted.value > 0.0 {
        var ratio := a / predicted.value;
        if ratio > ANOMALY_THRESHOLD || ratio < 1.0 / ANOMALY_THRESHOLD {
          return Anomaly;
        }
      }
      memory := memory.(actual := Some(a));
      if predicted.Some? && predicted.value > 0.0 {
        var accuracy := 1.0 - Abs(a - predicted.value) / predicted.value;
        memory := memory.(accuracy := Some(Round3(accuracy)));
        if accuracy < ACCURACY_FLOOR {
          var _ := ResetMemory(k, "auto_accuracy_floor", now);
          return AutoReset;
        }
      }
      memories := SetEx(memories, k, memory, now, MEMORY_TTL);
      return Saved(memory.accuracy);
    }

    method GetAdjustmentFactor(k: MemoryKey, now: real) returns (factor: real)
      ensures factor == AdjustmentFactor(Get(memories, k, now))
    {
      var memory := Get(memories, k, now);
      if memory.None? || memory.value.actual.None? {
        return 1.0;
      }
      if memory.value.accuracy.None? {
        return 1.0;
      }
      if memory.value.accuracy.value >= ACCURATE {
        return 1.0;
      }
      if HasForecast(memory.value) && memory.value.actual.value > 0.0 {
        var ratio := memory.value.actual.value / memory.value.predicted.value;
        var adjustment := 1.0 + (ratio - 1.0) * 0.5;
        return Round3(Clamp(adjustment));
      }
      return 1.0;
    }
  }

  // ---- Histories on the safe path ----

  datatype Event =
    | Decide(k: MemoryKey, predicted: Option<real>, confidence: real, at: real)
    | Outcome(k: MemoryKey, actual: real, at: real)
    | Reset(k: MemoryKey, at: real)

  function Step(db: Memories, e: Event): Memories {
    match e
    case Decide(k, p, c, at) => SetEx(db, k, Record(p, c, None, None), at, MEMORY_TTL)
    case Outcome(k, a, at) => AfterSafeOutcome(db, k, a, at)
    case Reset(k, _) => db - {k}
  }

  function Play(es: seq<Event>): Memories {
    if es == [] then map[] else Step(Play(es[..|es| - 1]), es[|es| - 1])
  }

  /** A record whose accuracy is that of its own outcome, and whose outcome lies within 60% of a
      positive forecast. */
  ghost predicate Sound(r: Record) {
    && (r.accuracy.Some? <==> r.actual.Some? && HasForecast(r))
    && (r.accuracy.Some? ==>
          && r.accuracy.value == Round3(Accuracy(r.actual.value, r.predicted.value))
          && ACCURACY_FLOOR <= r.accuracy.value
          && 0.4 <= r.actual.value / r.predicted.value <= 1.6)
  }

  lemma KeptExactly(r: Record, a: real)
    requires HasForecast(r)
    ensures !IsAnomaly(r, a) && !BelowFloor(r, a) <==> 0.4 <= a / r.predicted.value <= 1.6
  {
    RelativeError(a, r.predicted.value);
  }

  /** The anomaly filter and the accuracy floor together keep an outcome exactly when it lies within 60%
      of the forecast; an outcome that is not kept is either ignored or takes the whole record along. */
  lemma OutcomeKeptExactly(db: Memories, k: MemoryKey, a: real, now: real)
    requires Live(db, k, now) && HasForecast(db[k].value)
    ensures SafeOutcomeReply(db, k, a, now).Saved? <==> 0.4 <= a / db[k].value.predicted.value <= 1.6
    ensures SafeOutcomeReply(db, k, a, now).Saved? ==>
              var kept := Get(AfterSafeOutcome(db, k, a, now), k, now); kept.Some? && kept.value.actual == Some(a)
    ensures SafeOutcomeReply(db, k, a, now).AutoReset? <==>
              1.0 / 3.0 <= a / db[k].value.predicted.value <= 3.0 && !(0.4 <= a / db[k].value.predicted.value <= 1.6)
    ensures SafeOutcomeReply(db, k, a, now).AutoReset? ==> AfterSafeOutcome(db, k, a, now) == db - {k}
    ensures SafeOutcomeReply(db, k, a, now).Anomaly? <==> !(1.0 / 3.0 <= a / db[k].value.predicted.value <= 3.0)
    ensures SafeOutcomeReply(db, k, a, now).Anomaly? ==> AfterSafeOutcome(db, k, a, now) == db
  {
    KeptExactly(db[k].value, a);
  }

  /** What an outcome does where there is no forecast to compare it with. */
  lemma OutcomeWithoutForecast(db: Memories, k: MemoryKey, a: real, now: real)
    requires Live(db, k, now) ==> !HasForecast(db[k].value)
    ensures !Live(db, k, now) ==> SafeOutcomeReply(db, k, a, now).NoPrediction? && AfterSafeOutcome(db, k, a, now) == db
    ensures Live(db, k, now) ==>
        SafeOutcomeReply(db, k, a, now) == Saved(db[k].value.accuracy) &&
        AfterSafeOutcome(db, k, a, now) == db[k := Entry(db[k].value.(actual := Some(a)), Some(now + 2592000.0))]
  {
  }

  lemma RelativeError(a: real, p: real)
    requires p > 0.0
    ensures Accuracy(a, p) == 1.0 - Abs(a / p - 1.0)
    ensures a == (a / p) * p && (a < p <==> a / p < 1.0) && (a > p <==> a / p > 1.0)
  {
    var x, y := a / p, Abs(a - p) / p;
    assert x * p == a && y * p == Abs(a - p);
    SameSign(x - 1.0, p);
    SameSign(1.0 - x, p);
    assert (x - 1.0) * p == a - p;
    assert Abs(x - 1.0) * p == Abs(a - p);
    Cancel(Abs(x - 1.0), y, p);
  }

  lemma SameSign(x: real, p: real)
    requires p > 0.0
    ensures x * p > 0.0 <==> x > 0.0
    ensures x * p >= 0.0 <==> x >= 0.0
  {
  }

  lemma Cancel(x: real, y: real, p: real)
    requires p > 0.0 && x * p == y * p
    ensures x == y
  {
    SameSign(x - y, p);
    SameSign(y - x, p);
  }

  lemma StepKeepsSound(db: Memories, e: Event)
    requires forall k | k in db :: Sound(db[k].value)
    ensures forall k | k in Step(db, e) :: Sound(Step(db, e)[k].value)
  {
    if e.Outcome? && Live(db, e.k, e.at) && HasForecast(db[e.k].value) {
      var r := db[e.k].value;
      KeptExactly(r, e.actual);
      if !IsAnomaly(r, e.actual) && !BelowFloor(r, e.actual) {
        Round3Monotone(ACCURACY_FLOOR, Accuracy(e.actual, r.predicted.value));
        Round3Exact(400);
      }
    }
  }

  /** Over any sequence of decisions, safe outcomes and resets, for any products at any times, every
      stored record is sound. */
  lemma {:induction false} StoredRecordsAreSound(es: seq<Event>)
    ensures forall k | k in Play(es) :: Sound(Play(es)[k].value)
  {
    if es == [] {
    } else {
      StoredRecordsAreSound(es[..|es| - 1]);
      StepKeepsSound(Play(es[..|es| - 1]), es[|es| - 1]);
    }
  }

  /** On a sound record the correction is half-way, rounded, without the clamp ever acting. */
  lemma SoundFactor(r: Record)
    requires Sound(r)
    ensures 0.7 <= AdjustmentFactor(Some(r)) <= 1.3
    ensures AdjustmentFactor(Some(r)) != 1.0 ==>
        HasForecast(r) && r.actual.Some? && r.accuracy.Some? && r.accuracy.value < ACCURATE
    ensures r.accuracy.Some? && r.accuracy.value < ACCURATE ==>
              && Clamp(HalfWay(r.actual.value, r.predicted.value)) == HalfWay(r.actual.value, r.predicted.value)
              && AdjustmentFactor(Some(r)) == Round3(HalfWay(r.actual.value, r.predicted.value))
              && Abs(r.actual.value / r.predicted.value - 1.0) >= 0.0995
  {
    if r.accuracy.Some? && r.accuracy.value < ACCURATE {
      var a, p := r.actual.value, r.predicted.value;
      RelativeError(a, p);
      Round3Near(Accuracy(a, p));
      SameSign(a / p, p);
      Round3Monotone(0.7, HalfWay(a, p));
      Round3Monotone(HalfWay(a, p), 1.3);
      Round3Exact(700);
      Round3Exact(1300);
    }
  }

  /** On the safe path a correction is issued exactly for an accuracy below 0.90, and it is the mean of the
      forecast and the outcome as a factor, to three digits. */
  lemma {:induction false} FactorExactly(es: seq<Event>, k: MemoryKey, now: real, r: Record)
    requires Get(Play(es), k, now) == Some(r)
    ensures AdjustmentFactor(Some(r)) != 1.0 <==> r.accuracy.Some? && r.accuracy.value < 0.90
    ensures r.accuracy.Some? && r.accuracy.value < 0.90 ==>
        HasForecast(r) && r.actual.Some? &&
        Near(AdjustmentFactor(Some(r)), (1.0 + r.actual.value / r.predicted.value) / 2.0)
  {
    StoredRecordsAreSound(es);
    SoundFactor(r);
    if r.accuracy.Some? && r.accuracy.value < ACCURATE {
      Round3Near(HalfWay(r.actual.value, r.predicted.value));
    }
  }

  predicate Near(x: real, y: real) {
    y - 0.0005 <= x <= y + 0.0005
  }

  /** The note says whether there is an outcome, whether it was close, and which way the factor goes. */
  lemma NoteExactly(accuracy: Option<real>, factor: real)
    ensures MemoryNote(accuracy, factor).NoOutcome? <==> accuracy.None?
    ensures MemoryNote(accuracy, factor).Accurate? <==> accuracy.Some? && accuracy.value >= 0.90
    ensures MemoryNote(accuracy, factor).TooOptimistic? <==> accuracy.Some? && accuracy.value < 0.90 && factor < 1.0
    ensures MemoryNote(accuracy, factor).TooConservative? <==> accuracy.Some? && accuracy.value < 0.90 && factor > 1.0
  {
  }

  /** Every correction the safe path issues lies in [0.7, 1.3], so the [0.5, 1.5] clamp never acts. */
  lemma IssuedFactorsAreMild(es: seq<Event>, k: MemoryKey, now: real)
    ensures 0.7 <= AdjustmentFactor(Get(Play(es), k, now)) <= 1.3
  {
    StoredRecordsAreSound(es);
    if Live(Play(es), k, now) { SoundFactor(Play(es)[k].value); }
  }

  /** Correcting forecast `p` by `f` leaves at most half the error, up to rounding, and strictly less
      error than before. */
  predicate HalvesError(p: real, a: real, f: real) {
    Abs(p * f - a) <= Abs(p - a) / 2.0 + p / 2000.0 < Abs(p - a)
  }

  /** A correction that is issued at least halves the error up to rounding, hence strictly reduces it;
      it lowers the forecast exactly when the outcome fell short; and the note says so. */
  lemma CorrectionHalvesError(es: seq<Event>, k: MemoryKey, now: real, r: Record, f: real)
    requires Get(Play(es), k, now) == Some(r) && f == AdjustmentFactor(Some(r)) && f != 1.0
    ensures HasForecast(r) && r.actual.Some?
    ensures HalvesError(r.predicted.value, r.actual.value, f)
    ensures f < 1.0 <==> r.actual.value < r.predicted.value
    ensures MemoryNote(r.accuracy, f) == if r.actual.value < r.predicted.value then TooOptimistic else TooConservative
  {
    StoredRecordsAreSound(es);
    SoundFactor(r);
    Round3Near(HalfWay(r.actual.value, r.predicted.value));
    HalfError(r.actual.value, r.predicted.value, f);
  }

  lemma HalfError(a: real, p: real, f: real)
    requires p > 0.0 && HalfWay(a, p) - 0.0005 <= f <= HalfWay(a, p) + 0.0005 && Abs(a / p - 1.0) >= 0.0995
    ensures HalvesError(p, a, f)
    ensures f < 1.0 <==> a < p
  {
    RelativeError(a, p);
    var x := a / p;
    Scaled(x, a, p, f, f - HalfWay(a, p));
  }

  /** The same facts multiplied out by the forecast: `x` is the ratio, `e` the rounding error. */
  lemma Scaled(x: real, a: real, p: real, f: real, e: real)
    requires p > 0.0 && a == x * p && f == 1.0 + (x - 1.0) * 0.5 + e && -0.0005 <= e <= 0.0005 && Abs(x - 1.0) >= 0.0995
    ensures HalvesError(p, a, f) && (f < 1.0 <==> x < 1.0)
  {
    SameSign(0.0005 - e, p);
    SameSign(e + 0.0005, p);
    var d, r := (x - 1.0) * p, e * p;
    assert a - p == d;
    assert p * f - a == r - d / 2.0;
    if x >= 1.0 { SameSign(x - 1.0 - 0.0995, p); } else { SameSign(1.0 - x - 0.0995, p); }
  }

  /** The factor issued for the record is clamped. */
  predicate ClampActs(r: Record) {
    && HasForecast(r) && r.actual.Some? && r.actual.value > 0.0 && r.accuracy.Some? && r.accuracy.value < ACCURATE
    && Clamp(HalfWay(r.actual.value, r.predicted.value)) != HalfWay(r.actual.value, r.predicted.value)
  }

  lemma ClampArithmetic(a: real, p: real)
    requires p > 0.0 && a > 0.0
    ensures Clamp(HalfWay(a, p)) != HalfWay(a, p) <==> a > 2.0 * p
  {
    RatioAbove(a, p, 2.0);
    RatioAbove(a, p, 0.0);
  }

  /** Of the records the unguarded writer stores, the clamp acts on exactly those whose outcome is more than
      twice the forecast; of those the safe path stores, on none. */
  lemma {:induction false} ClampActsOnlyUnguarded(db: Memories, k: MemoryKey, a: real, now: real, es: seq<Event>)
    requires Live(db, k, now) && HasForecast(db[k].value)
    ensures k in AfterUnsafeOutcome(db, k, a, now)
    ensures ClampActs(AfterUnsafeOutcome(db, k, a, now)[k].value) <==> a > 2.0 * db[k].value.predicted.value
    ensures a > 2.0 * db[k].value.predicted.value ==>
        AdjustmentFactor(Some(AfterUnsafeOutcome(db, k, a, now)[k].value)) == 1.5
    ensures forall safe | safe in Play(es) :: !ClampActs(Play(es)[safe].value)
  {
    var p := db[k].value.predicted.value;
    if a > 0.0 { ClampArithmetic(a, p); }
    if a > 2.0 * p {
      RelativeError(a, p);
      RatioAbove(a, p, 2.0);
      Round3Near(Accuracy(a, p));
      Round3Exact(1500);
    }
    StoredRecordsAreSound(es);
    forall safe | safe in Play(es) ensures !ClampActs(Play(es)[safe].value) { SoundFactor(Play(es)[safe].value); }
  }

  lemma RatioAbove(a: real, p: real, t: real)
    requires p > 0.0
    ensures a > t * p <==> a / p > t
  {
    var x := a / p;
    assert x * p == a;
    Order(x, t, p);
  }

  lemma Order(x: real, t: real, p: real)
    requires p > 0.0
    ensures x * p > t * p <==> x > t
  {
    SameSign(x - t, p);
    assert (x - t) * p == x * p - t * p;
  }
}
