/** core/rate_limiting.py: a counter per tenant and minute.  The module text calls it a sliding window;
    the code, and this model, fix the window to the minute of the clock. */
module RateLimit {
  import opened RedisStore
  import opened Sets

  const WINDOW_SECONDS := 60
  const WINDOW := 60.0
  const KEY_TTL := 120.0
  const UNLIMITED := 999999

  datatype Plan = Starter | Pro | Enterprise | Other

  function LimitOf(p: Plan): int {
    match p
    case Starter | Other => 10
    case Pro => 60
    case Enterprise => UNLIMITED
  }

  datatype Key = Key(tenant: TenantId, window: int)

  type Counts = map<Key, Entry<int>>

  function WindowOf(t: real): int {
    (t / WINDOW).Floor
  }

  function RetryAfter(t: real): int {
    WINDOW_SECONDS - t.Floor % WINDOW_SECONDS
  }

  function Max(a: int, b: int): int {
    if a < b then b else a
  }

  datatype Reply =
    | Unlimited
    | Passed(used: int, limit: int, remaining: int)
    | TooMany(limit: int, retryAfter: int)

  datatype Status = Status(used: int, limit: int, remaining: int, resetsIn: int)

  class Limiter {
    var counts: Counts

    constructor ()
      ensures counts == map[]
    {
      counts := map[];
    }

    /** The clock is read for the window, at the two commands, and again for the refusal. */
    method CheckRateLimit(t: TenantId, p: Plan, read: real, incr: real, expire: real, late: real) returns (r: Reply)
      modifies this
      ensures r.Unlimited? <==> p.Enterprise?
      ensures p.Enterprise? ==> counts == old(counts)
      ensures !p.Enterprise? ==>
        var k := Key(t, WindowOf(read));
        && counts == Expire(Add(old(counts), k, 1, incr), k, expire, KEY_TTL)
        && (r.TooMany? <==> Count(old(counts), k, incr) >= LimitOf(p))
        && (r.TooMany? ==> r == TooMany(LimitOf(p), RetryAfter(late)))
        && (r.Passed? ==> r.used == Count(old(counts), k, incr) + 1 && r.used + r.remaining == r.limit == LimitOf(p))
      ensures r.Passed? || r.TooMany? ==> r.limit == if p.Pro? then 60 else 10
    {
      var limit := LimitOf(p);
      if limit >= UNLIMITED {
        return Unlimited;
      }
      var k := Key(t, WindowOf(read));
      counts := Add(counts, k, 1, incr);
      var current := counts[k].value;
      counts := Expire(counts, k, expire, KEY_TTL);
      if current > limit {
        return TooMany(limit, RetryAfter(late));
      }
      return Passed(current, limit, Max(0, limit - current));
    }

    /** The status looks without counting: a request made now passes exactly when it shows some remaining. */
    method GetRateLimitStatus(t: TenantId, p: Plan, now: real) returns (s: Status)
      ensures s.used == Count(counts, Key(t, WindowOf(now)), now) && s.limit == LimitOf(p)
      ensures s.limit == (if p.Enterprise? then 999999 else if p.Pro? then 60 else 10)
      ensures s.remaining > 0 <==> s.used < s.limit
      ensures s.remaining >= 0 && (s.remaining > 0 ==> s.used + s.remaining == s.limit)
      ensures s.resetsIn == RetryAfter(now)
    {
      var limit := LimitOf(p);
      var current := Count(counts, Key(t, WindowOf(now)), now);
      return Status(current, limit, Max(0, limit - current), RetryAfter(now));
    }
  }

  // ---- Clock arithmetic ----

  lemma WindowBounds(t: real)
    ensures WindowOf(t) as real * WINDOW <= t < (WindowOf(t) + 1) as real * WINDOW
  {
    var q := t / WINDOW;
    assert q * WINDOW == t;
  }

  lemma WindowFromBounds(t: real, w: int)
    requires w as real * WINDOW <= t < (w + 1) as real * WINDOW
    ensures WindowOf(t) == w
  {
    var q := t / WINDOW;
    assert q * WINDOW == t;
    assert w as real <= q < (w + 1) as real;
  }

  /** Windows are the minutes of the clock. */
  lemma WindowIsMinute(t: real, w: int)
    ensures WindowOf(t) == w <==> 60.0 * w as real <= t < 60.0 * w as real + 60.0
  {
    WindowBounds(t);
    if w as real * WINDOW <= t < (w + 1) as real * WINDOW { WindowFromBounds(t, w); }
  }

  /** A refused client that waits as told is in the next window, and waits no longer than it takes. */
  lemma RetryLandsOnNextWindow(t: real)
    ensures 1 <= RetryAfter(t) <= 60
    ensures WindowOf(t + RetryAfter(t) as real) == WindowOf(t) + 1
    ensures t.Floor + RetryAfter(t) == (WindowOf(t) + 1) * WINDOW_SECONDS
  {
    var w := t.Floor / WINDOW_SECONDS;
    assert t.Floor == w * WINDOW_SECONDS + t.Floor % WINDOW_SECONDS;
    assert (w * WINDOW_SECONDS) as real == w as real * WINDOW &&
        ((w + 1) * WINDOW_SECONDS) as real == (w + 1) as real * WINDOW;
    assert t.Floor + 1 <= (w + 1) * WINDOW_SECONDS;
    WindowFromBounds(t, w);
    assert ((w + 2) * WINDOW_SECONDS) as real == (w + 2) as real * WINDOW;
    WindowFromBounds(t + RetryAfter(t) as real, w + 1);
  }

  // ---- Every interleaving of the calls' commands ----

  type CallId = nat

  /** A metered call: when it read the clock, and the number its INCR returned. */
  datatype Call = Call(key: Key, limit: int, at: real, rank: Option<int>)

  /** `total` is history: how many INCRs each key has received. */
  datatype StateOf<C, A, T> = State(now: real, counts: C, calls: A, total: T)

  type State = StateOf<Counts, map<CallId, Call>, map<Key, int>>

  datatype Event =
    | Begin(id: CallId, tenant: TenantId, limit: int)
    | Incr(id: CallId)
    | Refresh(id: CallId)
    | Drop(id: CallId)
    | Tick(d: real)

  function Init(): State { StateOf.State(0.0, map[], map[], map[]) }

  function Total(s: State, k: Key): int {
    if k in s.total then s.total[k] else 0
  }

  /** `stall` bounds the time from a call's clock reading to its INCR. */
  predicate Enabled(stall: real, s: State, e: Event) {
    match e
    case Begin(id, _, _) => id !in s.calls
    case Incr(id) => id in s.calls && s.calls[id].rank.None?
    case Refresh(id) => id in s.calls && s.calls[id].rank.Some?
    case Drop(id) => id in s.calls && s.calls[id].rank.None?
    case Tick(d) => d >= 0.0 && forall id | id in s.calls && s.calls[id].rank.None? ::
        s.now + d <= s.calls[id].at + stall
  }

  function Apply(stall: real, s: State, e: Event): State
    requires Enabled(stall, s, e)
  {
    match e
    case Begin(id, t, limit) => s.(calls := s.calls[id := Call(Key(t, WindowOf(s.now)), limit, s.now, None)])
    case Incr(id) => OnIncr(s, id)
    case Refresh(id) => s.(counts := Expire(s.counts, s.calls[id].key, s.now, KEY_TTL))
    case Drop(id) => s.(calls := s.calls - {id})
    case Tick(d) => s.(now := s.now + d)
  }

  function OnIncr(s: State, id: CallId): State
    requires id in s.calls
  {
    var k := s.calls[id].key;
    s.(counts := Add(s.counts, k, 1, s.now),
       calls := s.calls[id := s.calls[id].(rank := Some(Count(s.counts, k, s.now) + 1))],
       total := s.total[k := Total(s, k) + 1])
  }

  function Exec(stall: real, es: seq<Event>): Option<State> {
    if es == [] then Some(Init())
    else
      var before := Exec(stall, es[..|es| - 1]);
      if before.Some? && Enabled(stall, before.value, es[|es| - 1])
      then Some(Apply(stall, before.value, es[|es| - 1]))
      else None
  }

  lemma Extend(stall: real, es: seq<Event>, s: State, e: Event)
    requires Exec(stall, es) == Some(s) && Enabled(stall, s, e)
    ensures Exec(stall, es + [e]) == Some(Apply(stall, s, e))
  {
    assert (es + [e])[..|es|] == es;
  }

  ghost predicate CallOk(stall: real, s: State, id: CallId) {
    id in s.calls ==>
      var c := s.calls[id];
      && c.key.window as real * WINDOW <= c.at <= s.now
      && c.at < (c.key.window + 1) as real * WINDOW
      && (c.rank.None? ==> s.now <= c.at + stall)
      && (c.rank.Some? ==> 1 <= c.rank.value <= Total(s, c.key))
  }

  /** The stored count is the true one, and the key outlives its window by a window. */
  ghost predicate KeyOk(s: State, k: Key) {
    if Total(s, k) == 0 then k !in s.counts
    else
      && k in s.counts && s.counts[k].value == Total(s, k) > 0
      && (s.counts[k].expiry.Some? ==> (k.window + 2) as real * WINDOW <= s.counts[k].expiry.value)
  }

  ghost predicate RanksDiffer(s: State, a: CallId, b: CallId) {
    a in s.calls && b in s.calls && a != b && s.calls[a].key == s.calls[b].key && s.calls[a].rank.Some? &&
        s.calls[b].rank.Some?
    ==> s.calls[a].rank != s.calls[b].rank
  }

  ghost predicate Inv(stall: real, s: State) {
    && (forall id {:trigger CallOk(stall, s, id)} :: CallOk(stall, s, id))
    && (forall k {:trigger KeyOk(s, k)} :: KeyOk(s, k))
    && (forall a, b {:trigger RanksDiffer(s, a, b)} :: RanksDiffer(s, a, b))
  }

  lemma WindowEnds(w: int)
    ensures (w + 1) as real * WINDOW + WINDOW == (w + 2) as real * WINDOW == w as real * WINDOW + KEY_TTL
  {
  }

  /** A key still awaited by a call is alive. */
  lemma AwaitedKeyLives(stall: real, s: State, id: CallId)
    requires stall <= WINDOW && CallOk(stall, s, id) && id in s.calls && s.calls[id].rank.None? &&
        KeyOk(s, s.calls[id].key)
    ensures Count(s.counts, s.calls[id].key, s.now) == Total(s, s.calls[id].key)
  {
    WindowEnds(s.calls[id].key.window);
  }

  lemma IncrStep(stall: real, s: State, id: CallId)
    requires stall <= WINDOW && Inv(stall, s) && Enabled(stall, s, Incr(id))
    ensures Inv(stall, OnIncr(s, id))
  {
    var s', k := OnIncr(s, id), s.calls[id].key;
    assert CallOk(stall, s, id) && KeyOk(s, k);
    AwaitedKeyLives(stall, s, id);
    forall i ensures CallOk(stall, s', i) { assert CallOk(stall, s, i); }
    forall x ensures KeyOk(s', x) { assert KeyOk(s, x); }
    forall a, b ensures RanksDiffer(s', a, b) {
      assert RanksDiffer(s, a, b) && CallOk(stall, s, a) && CallOk(stall, s, b);
    }
  }

  lemma InvStep(stall: real, s: State, e: Event)
    requires 0.0 <= stall <= WINDOW && Inv(stall, s) && Enabled(stall, s, e)
    ensures Inv(stall, Apply(stall, s, e))
  {
    var s' := Apply(stall, s, e);
    match e
    case Begin(id, _, _) =>
      WindowBounds(s.now);
      forall i ensures CallOk(stall, s', i) { assert CallOk(stall, s, i); }
      forall k ensures KeyOk(s', k) { assert KeyOk(s, k); }
      forall a, b ensures RanksDiffer(s', a, b) { assert RanksDiffer(s, a, b); }
    case Incr(id) => IncrStep(stall, s, id);
    case Refresh(id) =>
      assert CallOk(stall, s, id);
      WindowEnds(s.calls[id].key.window);
      forall i ensures CallOk(stall, s', i) { assert CallOk(stall, s, i); }
      forall k ensures KeyOk(s', k) { assert KeyOk(s, k); }
      forall a, b ensures RanksDiffer(s', a, b) { assert RanksDiffer(s, a, b); }
    case Drop(id) =>
      forall i ensures CallOk(stall, s', i) { assert CallOk(stall, s, i); }
      forall k ensures KeyOk(s', k) { assert KeyOk(s, k); }
      forall a, b ensures RanksDiffer(s', a, b) { assert RanksDiffer(s, a, b); }
    case Tick(d) =>
      forall i ensures CallOk(stall, s', i) { assert CallOk(stall, s, i); }
      forall k ensures KeyOk(s', k) { assert KeyOk(s, k); }
      forall a, b ensures RanksDiffer(s', a, b) { assert RanksDiffer(s, a, b); }
  }

  lemma {:induction false} InvHolds(stall: real, es: seq<Event>)
    requires 0.0 <= stall <= WINDOW && Exec(stall, es).Some?
    ensures Inv(stall, Exec(stall, es).value)
  {
    if es == [] {
      forall k ensures KeyOk(Init(), k) { }
      forall i ensures CallOk(stall, Init(), i) { }
      forall a, b ensures RanksDiffer(Init(), a, b) { }
    } else {
      InvHolds(stall, es[..|es| - 1]);
      InvStep(stall, Exec(stall, es[..|es| - 1]).value, es[|es| - 1]);
    }
  }

  /** No key has forgotten an INCR. */
  ghost predicate NothingForgotten(s: State) {
    forall k | k in s.total :: k in s.counts && s.counts[k].value == s.total[k]
  }

  ghost predicate AlwaysRemembers(stall: real) {
    forall es | Exec(stall, es).Some? :: NothingForgotten(Exec(stall, es).value)
  }

  ghost predicate Reaches(stall: real, s: State) {
    exists es :: Exec(stall, es) == Some(s)
  }

  lemma ReachesOn(stall: real, s: State, e: Event)
    requires Reaches(stall, s) && Enabled(stall, s, e)
    ensures Reaches(stall, Apply(stall, s, e))
  {
    var es :| Exec(stall, es) == Some(s);
    Extend(stall, es, s, e);
  }

  lemma FirstCall(stall: real) returns (s: State)
    requires stall >= 0.0
    ensures Reaches(stall, s)
    ensures s == StateOf.State(0.0, map[Key(0, 0) := Entry(1, Some(KEY_TTL))],
        map[0 := Call(Key(0, 0), 10, 0.0, Some(1))], map[Key(0, 0) := 1])
  {
    assert Exec(stall, []) == Some(Init()) && Reaches(stall, Init());
    WindowFromBounds(0.0, 0);
    ReachesOn(stall, Init(), Begin(0, 0, 10));
    s := Apply(stall, Init(), Begin(0, 0, 10));
    ReachesOn(stall, s, Incr(0));
    s := Apply(stall, s, Incr(0));
    ReachesOn(stall, s, Refresh(0));
    s := Apply(stall, s, Refresh(0));
    assert s.calls == map[0 := Call(Key(0, 0), 10, 0.0, Some(1))] && s.total == map[Key(0, 0) := 1];
    assert s.counts == map[Key(0, 0) := Entry(1, Some(KEY_TTL))];
  }

  /** A second call that reads the clock in the first minute and counts itself at second 120 finds the
      key gone. */
  lemma StalledCallForgets(stall: real)
    requires stall > WINDOW
    ensures !AlwaysRemembers(stall)
  {
    var wait := if stall < KEY_TTL then KEY_TTL - stall else 0.0;
    var s := FirstCall(stall);
    ReachesOn(stall, s, Tick(wait));
    s := Apply(stall, s, Tick(wait));
    WindowFromBounds(s.now, 0);
    ReachesOn(stall, s, Begin(1, 0, 10));
    s := Apply(stall, s, Begin(1, 0, 10));
    ReachesOn(stall, s, Tick(KEY_TTL - wait));
    s := Apply(stall, s, Tick(KEY_TTL - wait));
    ReachesOn(stall, s, Incr(1));
    s := Apply(stall, s, Incr(1));
    assert s.total[Key(0, 0)] == 2 && s.counts[Key(0, 0)].value == 1;
    var es :| Exec(stall, es) == Some(s);
    assert !NothingForgotten(Exec(stall, es).value);
  }

  /** The 120 second life of a key never loses a count, exactly when no call takes more than a window
      from reading the clock to its INCR. */
  lemma CountsLastIffStallWithinWindow(stall: real)
    requires stall >= 0.0
    ensures AlwaysRemembers(stall) <==> stall <= WINDOW
  {
    if stall <= WINDOW {
      forall es | Exec(stall, es).Some? ensures NothingForgotten(Exec(stall, es).value) {
        InvHolds(stall, es);
        var s := Exec(stall, es).value;
        forall k | k in s.total ensures k in s.counts && s.counts[k].value == s.total[k] {
          TotalsPositive(stall, es, k);
          assert KeyOk(s, k);
        }
      }
    } else {
      StalledCallForgets(stall);
    }
  }

  lemma {:induction false} TotalsPositive(stall: real, es: seq<Event>, k: Key)
    requires Exec(stall, es).Some?
    ensures k in Exec(stall, es).value.total ==> Exec(stall, es).value.total[k] > 0
  {
    if es == [] {
    } else {
      TotalsPositive(stall, es[..|es| - 1], k);
    }
  }

  // ---- What is admitted ----

  predicate AdmittedCall(c: Call, limit: int) {
    c.rank.Some? && c.rank.value <= c.limit <= limit
  }

  function Admitted(s: State, k: Key, limit: int): set<CallId> {
    set id | id in s.calls && s.calls[id].key == k && AdmittedCall(s.calls[id], limit)
  }

  lemma {:induction false} DistinctRanks(s: State, k: Key, ids: set<CallId>, top: nat)
    requires forall id | id in ids ::
        id in s.calls && s.calls[id].key == k && s.calls[id].rank.Some? && 1 <= s.calls[id].rank.value <= top
    requires forall a, b | a in ids && b in ids :: RanksDiffer(s, a, b)
    ensures |ids| <= top
    decreases top
  {
    if top == 0 {
      if id :| id in ids { assert false; }
    } else if id :| id in ids && s.calls[id].rank.value == top {
      forall x | x in ids - {id} ensures s.calls[x].rank.value <= top - 1 { assert RanksDiffer(s, x, id); }
      DistinctRanks(s, k, ids - {id}, top - 1);
    } else {
      DistinctRanks(s, k, ids, top - 1);
    }
  }

  /** Of the calls of one tenant in one window at most `limit` pass, however their commands interleave. */
  lemma WindowBound(stall: real, es: seq<Event>, k: Key, limit: nat)
    requires 0.0 <= stall <= WINDOW && Exec(stall, es).Some?
    ensures |Admitted(Exec(stall, es).value, k, limit)| <= limit
  {
    InvHolds(stall, es);
    var s := Exec(stall, es).value;
    var ids := Admitted(s, k, limit);
    forall id | id in ids ensures 1 <= s.calls[id].rank.value <= limit { assert CallOk(stall, s, id); }
    forall a, b | a in ids && b in ids ensures RanksDiffer(s, a, b) { }
    DistinctRanks(s, k, ids, limit);
  }

  /** The calls a tenant gets through in windows `from`, ..., `from + n - 1` */
  function AdmittedFrom(s: State, t: TenantId, limit: int, from: int, n: nat): set<CallId> {
    set id | id in s.calls && s.calls[id].key.tenant == t && from <= s.calls[id].key.window < from + n &&
        AdmittedCall(s.calls[id], limit)
  }

  lemma {:induction false} WindowsBound(stall: real, es: seq<Event>, t: TenantId, limit: nat, from: int, n: nat)
    requires 0.0 <= stall <= WINDOW && Exec(stall, es).Some?
    ensures |AdmittedFrom(Exec(stall, es).value, t, limit, from, n)| <= n * limit
  {
    var s := Exec(stall, es).value;
    if n == 0 {
      assert AdmittedFrom(s, t, limit, from, n) == {};
    } else {
      var before, last := AdmittedFrom(s, t, limit, from, n - 1), Admitted(s, Key(t, from + n - 1), limit);
      WindowsBound(stall, es, t, limit, from, n - 1);
      WindowBound(stall, es, Key(t, from + n - 1), limit);
      assert AdmittedFrom(s, t, limit, from, n) == before + last;
      assert n * limit == (n - 1) * limit + limit;
    }
  }

  /** The calls a tenant gets through among those that read the clock in [start, start + span) */
  function AdmittedDuring(s: State, t: TenantId, limit: int, start: real, span: real): set<CallId> {
    set id | id in s.calls && s.calls[id].key.tenant == t && start <= s.calls[id].at < start + span &&
        AdmittedCall(s.calls[id], limit)
  }

  lemma SpanWindows(start: real, k: nat, at: real, w: int)
    requires start <= at < start + k as real * WINDOW
    requires w as real * WINDOW <= at < (w + 1) as real * WINDOW
    ensures WindowOf(start) <= w < WindowOf(start) + k + 1
  {
    WindowBounds(start);
    var from := WindowOf(start);
    assert (from + 1 + k) as real * WINDOW == (from + 1) as real * WINDOW + k as real * WINDOW;
  }

  /** Any span of `k` minutes, wherever it starts, lets at most (k + 1) times the limit through. */
  lemma SpanBound(stall: real, es: seq<Event>, t: TenantId, limit: nat, start: real, k: nat)
    requires 0.0 <= stall <= WINDOW && Exec(stall, es).Some?
    ensures |AdmittedDuring(Exec(stall, es).value, t, limit, start, k as real * WINDOW)| <= (k + 1) * limit
  {
    InvHolds(stall, es);
    var s := Exec(stall, es).value;
    var during := AdmittedDuring(s, t, limit, start, k as real * WINDOW);
    forall id | id in during ensures id in AdmittedFrom(s, t, limit, WindowOf(start), k + 1) {
      assert CallOk(stall, s, id);
      SpanWindows(start, k, s.calls[id].at, s.calls[id].key.window);
    }
    SubsetSize(during, AdmittedFrom(s, t, limit, WindowOf(start), k + 1));
    WindowsBound(stall, es, t, limit, WindowOf(start), k + 1);
  }

  // ---- The bound is met: the window does not slide ----

  /** Calls 0, ..., n - 1 and no others, all counted. */
  ghost predicate Counted(s: State, n: nat) {
    forall id :: id in s.calls <==> id < n && id in s.calls && s.calls[id].rank.Some?
  }

  ghost predicate AllThrough(s: State, from: nat, n: nat, limit: int, at: real) {
    forall id | from <= id < from + n ::
        id in s.calls && s.calls[id] == Call(Key(0, WindowOf(at)), limit, at, Some(id - from + 1))
  }

  lemma {:induction false} Burst(stall: real, s: State, base: nat, n: nat, limit: int) returns (s': State)
    requires stall >= 0.0 && Reaches(stall, s) && Counted(s, base) && Key(0, WindowOf(s.now)) !in s.counts
    ensures Reaches(stall, s') && s'.now == s.now && Counted(s', base + n) && AllThrough(s', base, n, limit, s.now)
    ensures forall id | id in s.calls :: id in s'.calls && s'.calls[id] == s.calls[id]
    ensures forall k | k != Key(0, WindowOf(s.now)) :: k in s'.counts ==> k in s.counts
    ensures Count(s'.counts, Key(0, WindowOf(s.now)), s.now) == n
    decreases n
  {
    if n == 0 { return s; }
    var b := Burst(stall, s, base, n - 1, limit);
    var id := base + n - 1;
    ReachesOn(stall, b, Begin(id, 0, limit));
    var c := Apply(stall, b, Begin(id, 0, limit));
    ReachesOn(stall, c, Incr(id));
    s' := Apply(stall, c, Incr(id));
  }

  function FirstIds(n: nat): set<CallId> {
    if n == 0 then {} else FirstIds(n - 1) + {n - 1}
  }

  lemma {:induction false} FirstIdsSize(n: nat)
    ensures |FirstIds(n)| == n && forall id: CallId :: id in FirstIds(n) <==> id < n
  {
    if n == 0 {
    } else {
      FirstIdsSize(n - 1);
    }
  }

  lemma TwoBursts(s: State, limit: nat, start: real, next: real, span: real)
    requires Counted(s, 2 * limit) && start <= next < start + span
    requires AllThrough(s, 0, limit, limit, start) && AllThrough(s, limit, limit, limit, next)
    ensures |AdmittedDuring(s, 0, limit, start, span)| == 2 * limit
  {
    FirstIdsSize(2 * limit);
    forall id: CallId | id < 2 * limit ensures id in AdmittedDuring(s, 0, limit, start, span) { }
    assert AdmittedDuring(s, 0, limit, start, span) == FirstIds(2 * limit);
  }

  /** One burst at `start` and one at the beginning of the next window */
  lemma {:induction false} BurstsAcross(stall: real, limit: nat, start: real, span: real)
    requires 0.0 <= stall && 0.0 <= start && (WindowOf(start) + 1) as real * WINDOW < start + span
    ensures exists es ::
        Exec(stall, es).Some? && |AdmittedDuring(Exec(stall, es).value, 0, limit, start, span)| == 2 * limit
  {
    var next := (WindowOf(start) + 1) as real * WINDOW;
    WindowBounds(start);
    WindowFromBounds(next, WindowOf(start) + 1);
    assert Exec(stall, []) == Some(Init()) && Reaches(stall, Init());
    ReachesOn(stall, Init(), Tick(start));
    var first := Burst(stall, Apply(stall, Init(), Tick(start)), 0, limit, limit);
    ReachesOn(stall, first, Tick(next - start));
    var both := Burst(stall, Apply(stall, first, Tick(next - start)), limit, limit, limit);
    var es :| Exec(stall, es) == Some(both);
    forall id | 0 <= id < limit ensures id in first.calls && id in both.calls { }
    TwoBursts(both, limit, start, next, span);
  }

  /** No tenant ever gets more than its limit through in [start, start + span). */
  ghost predicate SpanRespectsLimit(stall: real, limit: nat, start: real, span: real) {
    forall es, t | Exec(stall, es).Some? :: |AdmittedDuring(Exec(stall, es).value, t, limit, start, span)| <= limit
  }

  /** The limit holds over a span of time exactly when the span lies within one minute of the clock. */
  lemma {:induction false} SpanRespectsLimitIffWithinWindow(stall: real, limit: nat, start: real, span: real)
    requires 0.0 <= stall <= WINDOW && 0 < limit && 0.0 <= start && 0.0 < span
    ensures SpanRespectsLimit(stall, limit, start, span) <==> start + span <= (WindowOf(start) + 1) as real * WINDOW
  {
    if start + span <= (WindowOf(start) + 1) as real * WINDOW {
      forall es, t | Exec(stall, es).Some?
        ensures |AdmittedDuring(Exec(stall, es).value, t, limit, start, span)| <= limit
      {
        WithinWindow(stall, es, t, limit, start, span);
      }
    } else {
      BurstsAcross(stall, limit, start, span);
    }
  }

  lemma {:induction false} WithinWindow(stall: real, es: seq<Event>, t: TenantId, limit: nat, start: real, span: real)
    requires 0.0 <= stall <= WINDOW && Exec(stall, es).Some?
    requires start + span <= (WindowOf(start) + 1) as real * WINDOW
    ensures |AdmittedDuring(Exec(stall, es).value, t, limit, start, span)| <= limit
  {
    InvHolds(stall, es);
    WindowBounds(start);
    var s, k := Exec(stall, es).value, Key(t, WindowOf(start));
    forall id | id in AdmittedDuring(s, t, limit, start, span) ensures id in Admitted(s, k, limit) {
      assert CallOk(stall, s, id);
      WindowBounds(s.calls[id].at);
      WindowFromBounds(s.calls[id].at, WindowOf(start));
      WindowFromBounds(s.calls[id].at, s.calls[id].key.window);
    }
    SubsetSize(AdmittedDuring(s, t, limit, start, span), Admitted(s, k, limit));
    WindowBound(stall, es, k, limit);
  }

  /** In particular, for every limit some run lets twice the limit through within two seconds. */
  lemma {:induction false} TwiceTheLimitInTwoSeconds(stall: real, limit: nat)
    requires 0.0 <= stall <= WINDOW
    ensures exists es, start ::
        Exec(stall, es).Some? && |AdmittedDuring(Exec(stall, es).value, 0, limit, start, 2.0)| == 2 * limit
  {
    WindowFromBounds(59.0, 0);
    BurstsAcross(stall, limit, 59.0, 2.0);
  }
}
