/** sectors/supply_chain/production_agent.py, aggregator_agent.py and core/hitl.py: from stock and
    demand to alerts, from alerts to a confidence, and from the confidence to human review. */
module Review {
  import opened RedisStore
  import opened Rounding
  import Hitl

  const DAILY_CAPACITY := 150.0
  const PACKAGING_STOCK := 5000.0
  const LEAD_TIME_DAYS := 5.0
  const DEFAULT_DEMAND := 30.0
  const FALLBACK_STOCK := 1200.0
  const CONFIDENCE_THRESHOLD := 0.80

  datatype Production = Production(
    dailyDemand: real, daysOfStock: real, daysOfPackaging: real, capacityGap: real,
    canMeetDemand: bool, reorderNeeded: bool, fallback: bool)

  datatype Weather = Weather(heatWave: bool, fallback: bool)

  datatype Alert = StockCritical | StockLow | ReorderPackagingNow | CapacityInsufficient | HeatWaveDemandSurge

  datatype Urgency = Low | Medium | High

  datatype Insights = Insights(alerts: seq<Alert>, urgency: Urgency, hasFallback: bool)

  // ---- Production ----

  /** A missing or zero average reads as the default; the result is never zero. */
  function DemandOf(avgDaily: Option<real>): real {
    if avgDaily.None? || avgDaily.value == 0.0 then DEFAULT_DEMAND else avgDaily.value
  }

  /** `stock` is the quantity the ERP answers with, or None when it cannot be reached. */
  function StockOf(stock: Option<real>): real {
    if stock.Some? then stock.value else FALLBACK_STOCK
  }

  function RunProductionAgent(avgDaily: Option<real>, stock: Option<real>): Production {
    var demand := DemandOf(avgDaily);
    var daysOfPackaging := Round1(PACKAGING_STOCK / demand);
    Production(Round(demand, 100), Round1(StockOf(stock) / demand), daysOfPackaging, Round1(DAILY_CAPACITY - demand),
               DAILY_CAPACITY >= demand, daysOfPackaging < LEAD_TIME_DAYS, stock.None?)
  }

  predicate Within(x: real, y: real, margin: real) {
    y - margin <= x <= y + margin
  }

  /** The figures the production agent reports, from the sales average and the stock it is given: the
      demand to two digits and the rest to one, with 30 units a day and 1200 in stock where it is told
      nothing. */
  lemma ProductionFigures(avgDaily: Option<real>, stock: Option<real>)
    ensures
      var p, demand := RunProductionAgent(avgDaily, stock), DemandOf(avgDaily);
      && demand == (if avgDaily.Some? && avgDaily.value != 0.0 then avgDaily.value else 30.0)
      && Within(p.dailyDemand, demand, 0.005)
      && Within(p.daysOfStock, (if stock.Some? then stock.value else 1200.0) / demand, 0.05)
      && Within(p.daysOfPackaging, 5000.0 / demand, 0.05)
      && Within(p.capacityGap, 150.0 - demand, 0.05)
      && (p.canMeetDemand <==> demand <= 150.0) && (p.reorderNeeded <==> p.daysOfPackaging < 5.0)
      && (p.fallback <==> stock.None?)
  {
    var demand := DemandOf(avgDaily);
    DigitsNear(demand, 100);
    DigitsNear(StockOf(stock) / demand, 10);
    DigitsNear(PACKAGING_STOCK / demand, 10);
    DigitsNear(DAILY_CAPACITY - demand, 10);
  }

  lemma DigitsNear(x: real, scale: nat)
    requires scale == 10 || scale == 100
    ensures Within(Round(x, scale), x, 0.5 / scale as real)
  {
    RoundIntNear(x * scale as real);
  }

  // ---- Aggregation ----

  function Severity(a: Alert): Urgency {
    match a
    case StockCritical | ReorderPackagingNow | CapacityInsufficient => High
    case StockLow => Medium
    case HeatWaveDemandSurge => Low
  }

  predicate AtLeast(a: Urgency, b: Urgency) {
    a == b || a.High? || b.Low?
  }

  /** What each alert stands for; a missing output raises none. */
  predicate Raised(a: Alert, weather: Option<Weather>, production: Option<Production>) {
    match a
    case StockCritical => production.Some? && production.value.daysOfStock < 5.0
    case StockLow => production.Some? && 5.0 <= production.value.daysOfStock < 10.0
    case ReorderPackagingNow => production.Some? && production.value.reorderNeeded
    case CapacityInsufficient => production.Some? && !production.value.canMeetDemand
    case HeatWaveDemandSurge => weather.Some? && weather.value.heatWave
  }

  predicate AnyFallback(weather: Option<Weather>, sales: Option<bool>, production: Option<Production>) {
    || (weather.Some? && weather.value.fallback)
    || (sales.Some? && sales.value)
    || (production.Some? && production.value.fallback)
  }

  /** `i` is what aggregate makes of the three outputs. */
  ghost predicate Aggregates(i: Insights, weather: Option<Weather>, sales: Option<bool>,
      production: Option<Production>) {
    && (forall a :: a in i.alerts <==> Raised(a, weather, production))
    && (forall k, l | 0 <= k < l < |i.alerts| :: i.alerts[k] != i.alerts[l])
    && IsHighest(i.urgency, i.alerts)
    && i.hasFallback == AnyFallback(weather, sales, production)
  }

  /** The largest severity among the alerts, Low if there is none */
  ghost predicate IsHighest(u: Urgency, alerts: seq<Alert>) {
    && (forall a | a in alerts :: AtLeast(u, Severity(a)))
    && (u.Low? || exists a | a in alerts :: Severity(a) == u)
  }

  function When(raised: bool, a: Alert): seq<Alert> {
    if raised then [a] else []
  }

  /** The alerts in the order in which they are appended */
  function Listed(weather: Option<Weather>, production: Option<Production>): seq<Alert> {
    When(Raised(StockCritical, weather, production), StockCritical)
    + When(Raised(StockLow, weather, production), StockLow)
    + When(Raised(ReorderPackagingNow, weather, production), ReorderPackagingNow)
    + When(Raised(CapacityInsufficient, weather, production), CapacityInsufficient)
    + When(Raised(HeatWaveDemandSurge, weather, production), HeatWaveDemandSurge)
  }

  /** The place of each alert in the list */
  function Place(a: Alert): nat {
    match a
    case StockCritical => 0
    case StockLow => 1
    case ReorderPackagingNow => 2
    case CapacityInsufficient => 3
    case HeatWaveDemandSurge => 4
  }

  ghost predicate Ordered(alerts: seq<Alert>) {
    forall k, l | 0 <= k < l < |alerts| :: Place(alerts[k]) < Place(alerts[l])
  }

  ghost predicate AllBefore(alerts: seq<Alert>, place: int) {
    forall k | 0 <= k < |alerts| :: Place(alerts[k]) < place
  }

  lemma OneMoreOrdered(alerts: seq<Alert>, raised: bool, a: Alert)
    requires Ordered(alerts) && AllBefore(alerts, Place(a))
    ensures Ordered(alerts + When(raised, a)) && AllBefore(alerts + When(raised, a), Place(a) + 1)
  {
  }

  lemma TwoMoreOrdered(alerts: seq<Alert>, p: bool, a: Alert, q: bool, b: Alert)
    requires Ordered(alerts) && AllBefore(alerts, Place(a)) && Place(a) + 1 == Place(b)
    ensures Ordered(alerts + When(p, a) + When(q, b)) && AllBefore(alerts + When(p, a) + When(q, b), Place(b) + 1)
  {
    OneMoreOrdered(alerts, p, a);
    OneMoreOrdered(alerts + When(p, a), q, b);
  }

  lemma FiveOrdered(p1: bool, p2: bool, p3: bool, p4: bool, p5: bool)
    ensures Ordered(When(p1, StockCritical) + When(p2, StockLow) + When(p3, ReorderPackagingNow)
                    + When(p4, CapacityInsufficient) + When(p5, HeatWaveDemandSurge))
  {
    var one := When(p1, StockCritical);
    var three := one + When(p2, StockLow) + When(p3, ReorderPackagingNow);
    TwoMoreOrdered(one, p2, StockLow, p3, ReorderPackagingNow);
    TwoMoreOrdered(three, p4, CapacityInsufficient, p5, HeatWaveDemandSurge);
  }

  lemma ListedInOrder(weather: Option<Weather>, production: Option<Production>)
    ensures Ordered(Listed(weather, production))
  {
    FiveOrdered(Raised(StockCritical, weather, production), Raised(StockLow, weather, production),
                Raised(ReorderPackagingNow, weather, production), Raised(CapacityInsufficient, weather, production),
                Raised(HeatWaveDemandSurge, weather, production));
  }

  lemma WhenCount(raised: bool, a: Alert, x: Alert)
    ensures multiset(When(raised, a))[x] == if raised && x == a then 1 else 0
  {
  }

  lemma FiveCount(p1: bool, p2: bool, p3: bool, p4: bool, p5: bool, x: Alert)
    ensures multiset(When(p1, StockCritical) + When(p2, StockLow) + When(p3, ReorderPackagingNow)
                     + When(p4, CapacityInsufficient) + When(p5, HeatWaveDemandSurge))[x]
            == match x
               case StockCritical => if p1 then 1 else 0
               case StockLow => if p2 then 1 else 0
               case ReorderPackagingNow => if p3 then 1 else 0
               case CapacityInsufficient => if p4 then 1 else 0
               case HeatWaveDemandSurge => if p5 then 1 else 0
  {
    FiveParts(When(p1, StockCritical), When(p2, StockLow), When(p3, ReorderPackagingNow),
        When(p4, CapacityInsufficient),
              When(p5, HeatWaveDemandSurge), x);
    WhenCount(p1, StockCritical, x);
    WhenCount(p2, StockLow, x);
    WhenCount(p3, ReorderPackagingNow, x);
    WhenCount(p4, CapacityInsufficient, x);
    WhenCount(p5, HeatWaveDemandSurge, x);
  }

  lemma FiveParts(a: seq<Alert>, b: seq<Alert>, c: seq<Alert>, d: seq<Alert>, e: seq<Alert>, x: Alert)
    ensures multiset(a + b + c + d + e)[x] ==
        multiset(a)[x] + multiset(b)[x] + multiset(c)[x] + multiset(d)[x] + multiset(e)[x]
  {
  }

  lemma ListedHasEach(weather: Option<Weather>, production: Option<Production>, a: Alert)
    ensures multiset(Listed(weather, production))[a] == if Raised(a, weather, production) then 1 else 0
    ensures a in Listed(weather, production) <==> Raised(a, weather, production)
  {
    FiveCount(Raised(StockCritical, weather, production), Raised(StockLow, weather, production),
        Raised(ReorderPackagingNow, weather, production),
              Raised(CapacityInsufficient, weather, production), Raised(HeatWaveDemandSurge, weather, production), a);
    InBag(Listed(weather, production), a);
  }

  lemma InBag(alerts: seq<Alert>, a: Alert)
    ensures a in alerts <==> multiset(alerts)[a] > 0
  {
  }

  lemma {:induction false} CountedOnceDiffer(alerts: seq<Alert>, k: nat, l: nat)
    requires k < l < |alerts| && multiset(alerts)[alerts[k]] <= 1
    ensures alerts[k] != alerts[l]
  {
    assert alerts == alerts[..l] + [alerts[l]] + alerts[l + 1..];
    assert alerts[..l][k] == alerts[k] && alerts[k] in multiset(alerts[..l]);
  }

  /** The thresholds behind each alert and the fallback mark */
  predicate AsDocumented(i: Insights, weather: Option<Weather>, sales: Option<bool>, production: Option<Production>) {
    && (StockCritical in i.alerts <==> production.Some? && production.value.daysOfStock < 5.0)
    && (StockLow in i.alerts <==> production.Some? && 5.0 <= production.value.daysOfStock < 10.0)
    && (ReorderPackagingNow in i.alerts <==> production.Some? && production.value.reorderNeeded)
    && (CapacityInsufficient in i.alerts <==> production.Some? && !production.value.canMeetDemand)
    && (HeatWaveDemandSurge in i.alerts <==> weather.Some? && weather.value.heatWave)
    && (i.hasFallback <==>
          (weather.Some? && weather.value.fallback) || (sales.Some? && sales.value)
          || (production.Some? && production.value.fallback))
  }

  lemma AggregatesAsDocumented(i: Insights, weather: Option<Weather>, sales: Option<bool>,
      production: Option<Production>)
    requires Aggregates(i, weather, sales, production)
    ensures AsDocumented(i, weather, sales, production)
  {
  }

  /** `sales` is the fallback mark of the sales output.  Each alert that applies is raised once, and the
      urgency, overwritten as the alerts come, ends at the highest severity. */
  method Aggregate(weather: Option<Weather>, sales: Option<bool>, production: Option<Production>) returns (i: Insights)
    ensures Aggregates(i, weather, sales, production)
    ensures i.alerts == Listed(weather, production) && Ordered(i.alerts)
    ensures AsDocumented(i, weather, sales, production)
  {
    var daysOfStock := if production.Some? then production.value.daysOfStock else 99.0;
    var alerts: seq<Alert>, urgency := [], Low;
    if daysOfStock < 5.0 {
      alerts, urgency := alerts + [StockCritical], High;
    } else if daysOfStock < 10.0 {
      alerts, urgency := alerts + [StockLow], Medium;
    }
    if production.Some? && production.value.reorderNeeded {
      alerts, urgency := alerts + [ReorderPackagingNow], High;
    }
    if !(production.Some? ==> production.value.canMeetDemand) {
      alerts, urgency := alerts + [CapacityInsufficient], High;
    }
    if weather.Some? && weather.value.heatWave {
      alerts := alerts + [HeatWaveDemandSurge];
    }
    i := Insights(alerts, urgency, AnyFallback(weather, sales, production));
    ListedAggregates(i, weather, sales, production);
    AggregatesAsDocumented(i, weather, sales, production);
    ListedInOrder(weather, production);
  }

  lemma {:induction false} ListedAggregates(i: Insights, weather: Option<Weather>, sales: Option<bool>,
      production: Option<Production>)
    requires i.alerts == Listed(weather, production) && i.hasFallback == AnyFallback(weather, sales, production)
    requires i.urgency.High? <==>
        Raised(StockCritical, weather, production) || Raised(ReorderPackagingNow, weather, production)
                                  || Raised(CapacityInsufficient, weather, production)
    requires i.urgency.Medium? <==> !i.urgency.High? && Raised(StockLow, weather, production)
    ensures Aggregates(i, weather, sales, production)
  {
    var alerts := Listed(weather, production);
    forall a ensures a in alerts <==> Raised(a, weather, production) { ListedHasEach(weather, production, a); }
    ListedOnce(weather, production, alerts);
    UrgencyIsHighest(i.urgency, alerts);
  }

  lemma {:induction false} ListedOnce(weather: Option<Weather>, production: Option<Production>, alerts: seq<Alert>)
    requires alerts == Listed(weather, production)
    ensures forall k, l | 0 <= k < l < |alerts| :: alerts[k] != alerts[l]
  {
    forall k, l | 0 <= k < l < |alerts| ensures alerts[k] != alerts[l] {
      ListedHasEach(weather, production, alerts[k]);
      CountedOnceDiffer(alerts, k, l);
    }
  }

  lemma {:induction false} UrgencyIsHighest(u: Urgency, alerts: seq<Alert>)
    requires u.High? <==> StockCritical in alerts || ReorderPackagingNow in alerts || CapacityInsufficient in alerts
    requires u.Medium? <==> !u.High? && StockLow in alerts
    ensures IsHighest(u, alerts)
  {
    assert Severity(StockCritical) == Severity(ReorderPackagingNow) == Severity(CapacityInsufficient) == High &&
        Severity(StockLow) == Medium;
  }

  // ---- Confidence ----

  function Deduction(applies: bool, amount: real): real {
    if applies then amount else 0.0
  }

  /** Neither the clamp to [0, 1] nor the rounding to three digits ever acts on these deductions. */
  method EvaluateConfidence(i: Insights) returns (confidence: real)
    ensures confidence == 1.0 - Deduction(StockCritical in i.alerts, 0.30)
                              - Deduction(CapacityInsufficient in i.alerts, 0.25)
                              - Deduction(i.urgency.High? && |i.alerts| >= 3, 0.20) - Deduction(i.hasFallback, 0.25)
  {
    var score := 1.0;
    ghost var thousandths := 1000;
    if StockCritical in i.alerts {
      score, thousandths := score - 0.30, thousandths - 300;
    }
    if CapacityInsufficient in i.alerts {
      score, thousandths := score - 0.25, thousandths - 250;
    }
    if i.urgency.High? && |i.alerts| >= 3 {
      score, thousandths := score - 0.20, thousandths - 200;
    }
    if i.hasFallback {
      score, thousandths := score - 0.25, thousandths - 250;
    }
    assert score == thousandths as real / 1000.0;
    Round3Exact(thousandths);
    var capped := if score < 1.0 then score else 1.0;
    return Round3(if capped > 0.0 then capped else 0.0);
  }

  /** Whether a decision on these insights waits for a human: of the four deductions the one for many
      alerts never decides, as it leaves the confidence at the threshold. */
  predicate NeedsHuman(i: Insights) {
    StockCritical in i.alerts || CapacityInsufficient in i.alerts || i.hasFallback
  }

  /** Either the decision passes and no key is touched, or a request is put to the desk. */
  method HitlCheckpoint(desk: Hitl.Desk, rid: Hitl.ReqId, i: Insights, now: real) returns (human: bool)
    modifies desk`approvals
    ensures human <==> NeedsHuman(i)
    ensures desk.approvals == if human then Hitl.Asked(old(desk.approvals), rid, now, desk.timeout)
        else old(desk.approvals)
  {
    var confidence := EvaluateConfidence(i);
    human := confidence < CONFIDENCE_THRESHOLD;
    if human {
      desk.RequestHumanValidation(rid, now);
    }
  }

  // ---- Routing ----

  lemma Round1Below(x: real, n: int)
    requires n % 2 == 0
    ensures Round1(x) < n as real / 10.0 <==> x < n as real / 10.0 - 0.05
  {
    var y := x * 10.0;
    assert RoundInt(y) < n <==> y < n as real - 0.5;
  }

  /** What the production agent leaves behind, if it does not raise */
  function ProductionOutput(ran: bool, avgDaily: Option<real>, stock: Option<real>): Option<Production> {
    if ran then Some(RunProductionAgent(avgDaily, stock)) else None
  }

  /** What decides over human review, in the quantities the agents start from: too little stock for the
      demand (by the rounded day count, so below 4.95 days), more demand than capacity, or a fallback.  A
      production agent that raised decides nothing. */
  lemma {:induction false} HumanReviewExactly(
    i: Insights, weather: Option<Weather>, sales: Option<bool>, ran: bool, avgDaily: Option<real>, stock: Option<real>)
    requires Aggregates(i, weather, sales, ProductionOutput(ran, avgDaily, stock))
    ensures NeedsHuman(i) <==>
              || (ran && StockOf(stock) / DemandOf(avgDaily) < 4.95)
              || (ran && DemandOf(avgDaily) > DAILY_CAPACITY)
              || (ran && stock.None?)
              || (weather.Some? && weather.value.fallback) || (sales.Some? && sales.value)
  {
    Round1Below(StockOf(stock) / DemandOf(avgDaily), 50);
  }

  lemma Scaled(x: real, d: real, bound: real)
    requires d > 0.0
    ensures x / d < bound <==> x < bound * d
  {
    var q := x / d;
    assert q * d == x;
    if q < bound { assert (bound - q) * d > 0.0; }
    if q >= bound { assert (q - bound) * d >= 0.0; }
  }

  lemma NegativeQuotient(x: real, d: real)
    requires d < 0.0 < x
    ensures x / d < 0.0
  {
    var q := x / d;
    assert q * d == x;
  }

  /** Packaging is reordered for a demand well above capacity, or for a negative average; in the first
      case the capacity is insufficient too. */
  lemma ReorderExactly(avgDaily: Option<real>, stock: Option<real>)
    ensures RunProductionAgent(avgDaily, stock).reorderNeeded <==>
        DemandOf(avgDaily) < 0.0 || PACKAGING_STOCK < 4.95 * DemandOf(avgDaily)
    ensures RunProductionAgent(avgDaily, stock).reorderNeeded ==>
        DemandOf(avgDaily) < 0.0 || !RunProductionAgent(avgDaily, stock).canMeetDemand
  {
    var demand := DemandOf(avgDaily);
    Round1Below(PACKAGING_STOCK / demand, 50);
    if demand > 0.0 {
      Scaled(PACKAGING_STOCK, demand, 4.95);
    } else {
      NegativeQuotient(PACKAGING_STOCK, demand);
    }
  }

  lemma PipelineProduction(stock: Option<real>)
    ensures RunProductionAgent(None, stock).daysOfStock < 5.0 <==> StockOf(stock) < 148.5
    ensures !RunProductionAgent(None, stock).reorderNeeded && RunProductionAgent(None, stock).canMeetDemand
  {
    ReorderExactly(None, stock);
    Scaled(StockOf(stock), DEFAULT_DEMAND, 4.95);
    Round1Below(StockOf(stock) / DEFAULT_DEMAND, 50);
  }

  /** In the pipeline the production agent runs beside the sales agent and cannot see its average, so its
      demand is always the default: review is decided by 148.5 units of stock and the fallback marks, and
      no insight ever carries a packaging or capacity alert. */
  lemma PipelineReview(i: Insights, weather: Option<Weather>, sales: Option<bool>, stock: Option<real>)
    requires Aggregates(i, weather, sales, Some(RunProductionAgent(None, stock)))
    ensures NeedsHuman(i) <==>
        AnyFallback(weather, sales, Some(RunProductionAgent(None, stock))) || StockOf(stock) < 148.5
    ensures ReorderPackagingNow !in i.alerts && CapacityInsufficient !in i.alerts
    ensures i.urgency.High? <==> StockOf(stock) < 148.5
  {
    PipelineProduction(stock);
    HighUrgencyExactly(i, weather, sales, Some(RunProductionAgent(None, stock)));
  }

  /** Whatever the outputs, urgency rises to High exactly with one of the three grave alerts. */
  lemma HighUrgencyExactly(i: Insights, weather: Option<Weather>, sales: Option<bool>, production: Option<Production>)
    requires Aggregates(i, weather, sales, production)
    ensures i.urgency.High? <==>
        StockCritical in i.alerts || ReorderPackagingNow in i.alerts || CapacityInsufficient in i.alerts
    ensures i.urgency.Medium? <==> !i.urgency.High? && StockLow in i.alerts
  {
  }
}
