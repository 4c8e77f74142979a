/** api/main.py and core/idempotency.py: the admission sequence of `/analyze`, the retry endpoint, and
    what is conserved over any sequence of requests, each taken as one step. */
module Admission {
  import opened RedisStore
  import QueueControl
  import RateLimit
  import Jobs
  import Memory

  const IDEMPOTENCY_TTL := 86400.0

  datatype CacheKey = CacheKey(tenant: TenantId, key: string)

  /** The stored part of the 202 answer */
  datatype Response = Response(job: JobId, rate: RateLimit.Reply)

  type Cache = map<CacheKey, Entry<Response>>

  datatype Answer =
    | Fresh(response: Response)
    | Replay(response: Response)
    | RateLimited(reply: RateLimit.Reply)
    | Congested(verdict: QueueControl.Verdict)

  /** One call of `/analyze`.  An absent idempotency key is the empty one; `job` is the identifier the
      call draws. */
  datatype Request = Request(tenant: TenantId, plan: RateLimit.Plan, key: string, job: JobId, at: real)

  datatype WorldOf<C, N, D, R, I> = World(cache: C, counts: N, depths: D, records: R, index: I, sent: seq<JobId>)

  type World = WorldOf<Cache, RateLimit.Counts, QueueControl.Depths, Jobs.Records, Jobs.Index>

  function Empty(): World { WorldOf.World(map[], map[], map[], map[], map[], []) }

  predicate Cached(w: World, q: Request) {
    q.key != "" && Live(w.cache, CacheKey(q.tenant, q.key), q.at)
  }

  function WindowKey(q: Request): RateLimit.Key {
    RateLimit.Key(q.tenant, RateLimit.WindowOf(q.at))
  }

  predicate OverLimit(w: World, q: Request) {
    !q.plan.Enterprise? && Count(w.counts, WindowKey(q), q.at) >= RateLimit.LimitOf(q.plan)
  }

  predicate Full(w: World, q: Request) {
    || Count(w.depths, QueueControl.GlobalDepth, q.at) >= QueueControl.MAX_QUEUE_SIZE
    || Count(w.depths, QueueControl.TenantDepth(q.tenant), q.at) >= QueueControl.MAX_TENANT_QUEUE
  }

  predicate Passes(w: World, q: Request) {
    !OverLimit(w, q) && !Full(w, q)
  }

  predicate Admits(w: World, q: Request) {
    !Cached(w, q) && Passes(w, q)
  }

  /** What the rate limiter tells a call it lets pass */
  function RateInfo(w: World, q: Request): RateLimit.Reply {
    var used, limit := Count(w.counts, WindowKey(q), q.at) + 1, RateLimit.LimitOf(q.plan);
    if q.plan.Enterprise? then RateLimit.Unlimited else RateLimit.Passed(used, limit, limit - used)
  }

  /** What a call does once it has missed the cache: it spends one of its rate, and writes everything
      else only when it passes. */
  function AfterMiss(w: World, q: Request): World {
    w.(counts := if q.plan.Enterprise? then w.counts
                 else Expire(Add(w.counts, WindowKey(q), 1, q.at), WindowKey(q), q.at, RateLimit.KEY_TTL),
       cache := if Passes(w, q) && q.key != ""
                then SetEx(w.cache, CacheKey(q.tenant, q.key), Response(q.job, RateInfo(w, q)), q.at, IDEMPOTENCY_TTL)
                else w.cache,
       depths := if Passes(w, q) then QueueControl.Incremented(w.depths, q.tenant, q.at) else w.depths,
       records := if Passes(w, q) then Jobs.Created(w.records, q.job, q.tenant, q.at) else w.records,
       index := if Passes(w, q) then Jobs.Indexed(w.index, q.tenant, q.job, q.at) else w.index,
       sent := if Passes(w, q) then w.sent + [q.job] else w.sent)
  }

  function After(w: World, q: Request): World {
    if Cached(w, q) then w else AfterMiss(w, q)
  }

  datatype OutcomeReply = NoSuchJob | NotCompleted | Recorded(saving: Memory.Saving)

  datatype RetryReply = NotFound | WrongStatus | Requeued

  /** The refusal names the plan's limit and a wait, of at most a minute, that ends in the next window. */
  ghost predicate TellsToWait(r: RateLimit.Reply, q: Request) {
    && r.TooMany? && r.limit == (if q.plan.Pro? then 60 else 10) && 1 <= r.retryAfter <= 60
    && RateLimit.WindowOf(q.at + r.retryAfter as real) == RateLimit.WindowOf(q.at) + 1
  }

  /** The 503 names the full counter, the global one first, with its depth and the wait. */
  predicate NamesFullCounter(v: QueueControl.Verdict, depths: QueueControl.Depths, q: Request) {
    var global := Count(depths, QueueControl.GlobalDepth, q.at);
    var tenant := Count(depths, QueueControl.TenantDepth(q.tenant), q.at);
    if global >= 100 then v == QueueControl.SystemFull(global, 60)
    else tenant >= 10 && v == QueueControl.TenantFull(tenant, 30)
  }

  function RetryAnswer(records: Jobs.Records, j: JobId, t: TenantId, now: real): RetryReply {
    if !Live(records, j, now) || records[j].value.tenant != t then NotFound
    else if records[j].value.status.Error? then Requeued else WrongStatus
  }

  class Api {
    const limiter: RateLimit.Limiter
    const queue: QueueControl.Queue
    const store: Jobs.JobStore
    var cache: Cache
    var sent: seq<JobId>

    constructor (limiter: RateLimit.Limiter, queue: QueueControl.Queue, store: Jobs.JobStore)
      ensures this.limiter == limiter && this.queue == queue && this.store == store
      ensures cache == map[] && sent == []
    {
      this.limiter, this.queue, this.store := limiter, queue, store;
      cache, sent := map[], [];
    }

    ghost function Now(): World
      reads this, limiter, queue, store
    {
      WorldOf.World(cache, limiter.counts, queue.depths, store.records, store.index, sent)
    }

    method CheckIdempotency(key: string, t: TenantId, now: real) returns (found: Option<Response>)
      ensures found.Some? <==> key != "" && Live(cache, CacheKey(t, key), now)
      ensures found.Some? ==> found.value == cache[CacheKey(t, key)].value
    {
      if key == "" {
        return None;
      }
      found := Get(cache, CacheKey(t, key), now);
    }

    method StoreIdempotency(key: string, t: TenantId, response: Response, now: real)
      modifies this`cache
      ensures cache == if key == "" then old(cache)
          else SetEx(old(cache), CacheKey(t, key), response, now, 86400.0)
    {
      if key != "" {
        cache := SetEx(cache, CacheKey(t, key), response, now, IDEMPOTENCY_TTL);
      }
    }

    /** The answer is a replay, a refusal or a fresh job, in this order of checks. */
    method Analyze(q: Request) returns (a: Answer)
      modifies this, limiter, queue, store
      ensures Now() == After(old(Now()), q)
      ensures a.Replay? <==> Cached(old(Now()), q)
      ensures a.RateLimited? <==> !Cached(old(Now()), q) && OverLimit(old(Now()), q)
      ensures a.Fresh? <==> Admits(old(Now()), q)
      ensures a.Replay? ==> a.response == old(cache)[CacheKey(q.tenant, q.key)].value
      ensures a.Fresh? ==> a.response == Response(q.job, RateInfo(old(Now()), q))
      ensures a.RateLimited? ==> TellsToWait(a.reply, q)
      ensures a.Congested? ==> NamesFullCounter(a.verdict, old(queue.depths), q)
    {
      var cached := CheckIdempotency(q.key, q.tenant, q.at);
      if cached.Some? {
        return Replay(cached.value);
      }
      var rate := limiter.CheckRateLimit(q.tenant, q.plan, q.at, q.at, q.at, q.at);
      if rate.TooMany? {
        RateLimit.RetryLandsOnNextWindow(q.at);
        return RateLimited(rate);
      }
      var verdict := queue.CheckBackpressure(q.tenant, q.at);
      if !verdict.Allowed? {
        return Congested(verdict);
      }
      store.CreateJob(q.job, q.tenant, q.at);
      queue.IncrementQueue(q.tenant, q.at);
      sent := sent + [q.job];
      StoreIdempotency(q.key, q.tenant, Response(q.job, rate), q.at);
      return Fresh(Response(q.job, rate));
    }

    /** A manual retry sends a message and counts nothing. */
    method RetryJob(j: JobId, t: TenantId, now: real) returns (r: RetryReply)
      modifies this`sent, store`records
      ensures r == RetryAnswer(old(store.records), j, t, now)
      ensures r.NotFound? <==> !Live(old(store.records), j, now) || old(store.records)[j].value.tenant != t
      ensures r.Requeued? <==> !r.NotFound? && old(store.records)[j].value.status.Error?
      ensures store.records == if r.Requeued? then Jobs.Updated(old(store.records), j, Jobs.Queued, now)
          else old(store.records)
      ensures sent == if r.Requeued? then old(sent) + [j] else old(sent)
    {
      var job := Get(store.records, j, now);
      if job.None? || job.value.tenant != t {
        return NotFound;
      }
      if job.value.status != Jobs.Error {
        return WrongStatus;
      }
      store.UpdateJob(j, Jobs.Queued, now);
      sent := sent + [j];
      return Requeued;
    }

    /** A client reports what became of a finished job's forecast.  The memory is told first, and the copy of
        the job read at `read` is stored whole at `stored`: its status stays and its life starts again. */
    method RecordOutcome(
      j: JobId, t: TenantId, memory: Memory.MemoryStore, product: Memory.MemoryKey, actual: real,
      read: real, stored: real)
      returns (r: OutcomeReply)
      modifies memory, store`records
      ensures r.NoSuchJob? <==> !Live(old(store.records), j, read) || old(store.records)[j].value.tenant != t
      ensures r.Recorded? <==>
          !r.NoSuchJob? && (old(store.records)[j].value.status.Done? || old(store.records)[j].value.status.Rejected?)
      ensures r.Recorded? ==>
          r.saving == Memory.SafeOutcomeReply(old(memory.memories), product, actual, read) &&
          memory.memories == Memory.AfterSafeOutcome(old(memory.memories), product, actual, read) &&
          store.records == old(store.records)[j := Entry(old(store.records)[j].value, Some(stored + 604800.0))] &&
          store.records == Jobs.WrittenBack(old(store.records), j, old(store.records)[j].value.status, stored)
      ensures !r.Recorded? ==> memory.memories == old(memory.memories) && store.records == old(store.records)
    {
      var job := Get(store.records, j, read);
      if job.None? || job.value.tenant != t {
        return NoSuchJob;
      }
      if job.value.status != Jobs.Done && job.value.status != Jobs.Rejected {
        return NotCompleted;
      }
      var saving := memory.SaveActualOutcomeSafe(product, actual, read);
      store.records := SetEx(store.records, j, job.value, stored, Jobs.JOB_TTL);
      return Recorded(saving);
    }
  }

  // ---- Any sequence of requests and of workers' decrements ----

  datatype Event = Call(request: Request) | Worked(tenant: TenantId, at: real)

  function TimeOf(e: Event): real {
    match e
    case Call(q) => q.at
    case Worked(_, at) => at
  }

  function Play(es: seq<Event>): World {
    if es == [] then Empty()
    else
      var w, e := Play(es[..|es| - 1]), es[|es| - 1];
      match e
      case Call(q) => After(w, q)
      case Worked(t, at) => w.(depths := QueueControl.Decremented(w.depths, t, at))
  }

  /** The requests answered with a fresh job, in order */
  function Admitted(es: seq<Event>): seq<Request> {
    if es == [] then []
    else
      var before, e := es[..|es| - 1], es[|es| - 1];
      Admitted(before) + (if e.Call? && Admits(Play(before), e.request) then [e.request] else [])
  }

  /** The calls the queue counters received */
  function QueueCalls(es: seq<Event>): seq<QueueControl.Call> {
    if es == [] then []
    else
      var before, e := es[..|es| - 1], es[|es| - 1];
      QueueCalls(before) +
      match e
      case Call(q) => if Admits(Play(before), q) then [QueueControl.Inc(q.tenant, q.at)] else []
      case Worked(t, at) => [QueueControl.Dec(t, at)]
  }

  function Increments(calls: seq<QueueControl.Call>): nat {
    if calls == [] then 0 else Increments(calls[..|calls| - 1]) + (if calls[|calls| - 1].Inc? then 1 else 0)
  }

  function JobsOf(qs: seq<Request>): seq<JobId> {
    if qs == [] then [] else JobsOf(qs[..|qs| - 1]) + [qs[|qs| - 1].job]
  }

  /** No identifier is drawn twice. */
  ghost predicate FreshIds(es: seq<Event>) {
    forall i, k | 0 <= i < k < |es| && es[i].Call? && es[k].Call? :: es[i].request.job != es[k].request.job
  }

  ghost predicate Ordered(es: seq<Event>) {
    forall i, k | 0 <= i < k < |es| :: TimeOf(es[i]) <= TimeOf(es[k])
  }

  lemma {:induction false} SentWasAsked(es: seq<Event>, j: JobId)
    requires j in Play(es).sent
    ensures exists i | 0 <= i < |es| :: es[i].Call? && es[i].request.job == j
  {
    var n := |es| - 1;
    if j in Play(es[..n]).sent {
      SentWasAsked(es[..n], j);
      var i :| 0 <= i < n && es[..n][i].Call? && es[..n][i].request.job == j;
      assert es[i].Call? && es[i].request.job == j;
    } else {
      assert es[n].Call? && es[n].request.job == j;
    }
  }

  lemma OneMoreCall(calls: seq<QueueControl.Call>, c: QueueControl.Call)
    ensures QueueControl.Play(calls + [c])
            == if c.Inc? then QueueControl.Incremented(QueueControl.Play(calls), c.tenant, c.at)
               else QueueControl.Decremented(QueueControl.Play(calls), c.tenant, c.at)
    ensures Increments(calls + [c]) == Increments(calls) + (if c.Inc? then 1 else 0)
  {
    assert (calls + [c])[..|calls|] == calls;
  }

  lemma {:induction false} DepthsFollow(es: seq<Event>)
    ensures Play(es).depths == QueueControl.Play(QueueCalls(es)) && Increments(QueueCalls(es)) == |Admitted(es)|
  {
    if es == [] {
    } else {
      var before, e := es[..|es| - 1], es[|es| - 1];
      DepthsFollow(before);
      var calls := QueueCalls(before);
      match e
      case Call(q) =>
        if Admits(Play(before), q) {
          OneMoreCall(calls, QueueControl.Inc(q.tenant, q.at));
        } else {
          assert calls + [] == calls;
        }
      case Worked(t, at) => OneMoreCall(calls, QueueControl.Dec(t, at));
    }
  }

  lemma {:induction false} SentFollows(es: seq<Event>)
    ensures Play(es).sent == JobsOf(Admitted(es)) && |Play(es).sent| == |Admitted(es)|
  {
    if es == [] {
    } else {
      var before, e := es[..|es| - 1], es[|es| - 1];
      SentFollows(before);
      if e.Call? && Admits(Play(before), e.request) {
        assert Admitted(es)[..|Admitted(before)|] == Admitted(before);
      } else {
        assert Admitted(es) == Admitted(before);
      }
    }
  }

  lemma {:induction false} RecordsFollow(es: seq<Event>)
    requires FreshIds(es)
    ensures Play(es).records.Keys == (set j | j in Play(es).sent) && |Play(es).records| == |Play(es).sent|
  {
    if es == [] {
    } else {
      var before, e := es[..|es| - 1], es[|es| - 1];
      RecordsFollow(before);
      if e.Call? && Admits(Play(before), e.request) {
        var j, records := e.request.job, Play(before).records;
        if j in Play(before).sent {
          SentWasAsked(before, j);
          assert false;
        }
        OneMoreKey(records, j, Play(es).records);
      }
    }
  }

  lemma OneMoreKey<V>(was: map<JobId, V>, j: JobId, now: map<JobId, V>)
    requires j !in was && j in now && now == was[j := now[j]]
    ensures |now| == |was| + 1 && now.Keys == was.Keys + {j}
  {
    assert now.Keys == was.Keys + {j};
    assert |now.Keys| == |was.Keys| + 1;
  }

  /** Jobs created, counter increments, messages sent and fresh answers are the same, one for one: the
      messages name the jobs of the fresh answers in order, the records are exactly those jobs, each
      once, and the depth counters are those of a history with as many increments. */
  lemma Conservation(es: seq<Event>)
    requires FreshIds(es)
    ensures Play(es).sent == JobsOf(Admitted(es)) && |Play(es).sent| == |Admitted(es)|
    ensures Play(es).records.Keys == (set j | j in Play(es).sent) && |Play(es).records| == |Admitted(es)|
    ensures Play(es).depths == QueueControl.Play(QueueCalls(es)) && Increments(QueueCalls(es)) == |Admitted(es)|
  {
    SentFollows(es);
    RecordsFollow(es);
    DepthsFollow(es);
  }

  // ---- Idempotency ----

  function KeyOf(q: Request): CacheKey { CacheKey(q.tenant, q.key) }

  /** `p` is the admitted request a cache entry stems from. */
  predicate Stems(e: Entry<Response>, p: Request) {
    e.value.job == p.job && e.expiry == Some(p.at + IDEMPOTENCY_TTL)
  }

  /** The entry of a key stems from an admitted request, and every other admitted request with the key
      is at least a day older than that one. */
  ghost predicate EntryOk(cache: Cache, admitted: seq<Request>, k: CacheKey) {
    && (k in cache ==> exists p :: p in admitted && p.key != "" && KeyOf(p) == k && Stems(cache[k], p))
    && (forall p | p in admitted && p.key != "" && KeyOf(p) == k ::
          k in cache && (Stems(cache[k], p) ||
              (cache[k].expiry.Some? && cache[k].expiry.value >= p.at + 2.0 * IDEMPOTENCY_TTL)))
  }

  lemma {:induction false} EntryStep(cache: Cache, admitted: seq<Request>, q: Request, e: Entry<Response>, k: CacheKey)
    requires EntryOk(cache, admitted, k) && Stems(e, q)
    requires forall p | p in admitted :: p.at <= q.at
    requires q.key != "" && !Live(cache, KeyOf(q), q.at)
    ensures EntryOk(cache[KeyOf(q) := e], admitted + [q], k)
  {
    var more := admitted + [q];
    assert forall p :: p in more <==> p in admitted || p == q;
    if k == KeyOf(q) {
      assert q in more;
      forall p | p in admitted && p.key != "" && KeyOf(p) == k ensures q.at >= p.at + IDEMPOTENCY_TTL { }
    }
  }

  lemma {:induction false} KeylessStep(cache: Cache, admitted: seq<Request>, q: Request, k: CacheKey)
    requires EntryOk(cache, admitted, k) && q.key == ""
    ensures EntryOk(cache, admitted + [q], k)
  {
    var more := admitted + [q];
    assert forall p :: p in more <==> p in admitted || p == q;
  }

  lemma {:induction false} NotLater(es: seq<Event>, at: real)
    requires forall i | 0 <= i < |es| :: TimeOf(es[i]) <= at
    ensures forall p | p in Admitted(es) :: p.at <= at
  {
    if es == [] {
    } else {
      NotLater(es[..|es| - 1], at);
    }
  }

  lemma {:induction false} AdmittedEntry(w: World, admitted: seq<Request>, q: Request, k: CacheKey)
    requires EntryOk(w.cache, admitted, k) && Admits(w, q) && forall p | p in admitted :: p.at <= q.at
    ensures EntryOk(After(w, q).cache, admitted + [q], k)
  {
    if q.key == "" {
      KeylessStep(w.cache, admitted, q, k);
    } else {
      EntryStep(w.cache, admitted, q, Entry(Response(q.job, RateInfo(w, q)), Some(q.at + IDEMPOTENCY_TTL)), k);
    }
  }

  lemma {:induction false} EntriesHold(es: seq<Event>, k: CacheKey)
    requires Ordered(es)
    ensures EntryOk(Play(es).cache, Admitted(es), k)
  {
    if es == [] {
    } else {
      var before, e := es[..|es| - 1], es[|es| - 1];
      EntriesHold(before, k);
      if e.Call? && Admits(Play(before), e.request) {
        NotLater(before, e.request.at);
        AdmittedEntry(Play(before), Admitted(before), e.request, k);
      } else {
        assert Admitted(es) == Admitted(before);
      }
    }
  }

  /** A call is answered from the cache exactly when a call with its key was admitted for its tenant
      less than a day before, and it then names that call's job and changes nothing. */
  lemma {:induction false} ReplayExactly(es: seq<Event>, q: Request)
    requires Ordered(es) && forall i | 0 <= i < |es| :: TimeOf(es[i]) <= q.at
    ensures Cached(Play(es), q) <==> q.key != "" && exists p ::
        p in Admitted(es) && KeyOf(p) == KeyOf(q) && q.at < p.at + 86400.0
    ensures forall p | p in Admitted(es) && q.key != "" && KeyOf(p) == KeyOf(q) && q.at < p.at + 86400.0 ::
              Cached(Play(es), q) && Play(es).cache[KeyOf(q)].value.job == p.job
    ensures Cached(Play(es), q) ==> After(Play(es), q) == Play(es)
  {
    EntriesHold(es, KeyOf(q));
    NotLater(es, q.at);
    var cache := Play(es).cache;
    assert EntryOk(cache, Admitted(es), KeyOf(q));
    forall p | p in Admitted(es) && q.key != "" && KeyOf(p) == KeyOf(q) && q.at < p.at + IDEMPOTENCY_TTL
      ensures Stems(cache[KeyOf(q)], p)
    {
      var r :| r in Admitted(es) && r.key != "" && KeyOf(r) == KeyOf(q) && Stems(cache[KeyOf(q)], r);
      assert r.at <= q.at;
    }
  }

  /** The check and the store are separate commands: two calls with one key that both check first are
      both admitted, and only the later job is ever replayed. */
  lemma {:induction false} SimultaneousRepeatsDuplicate(p: Request, q: Request)
    requires p.key != "" && KeyOf(p) == KeyOf(q) && p.at == q.at && p.plan == q.plan
    ensures !Cached(Empty(), p) && !Cached(Empty(), q)
    ensures AfterMiss(AfterMiss(Empty(), p), q).sent == [p.job, q.job]
    ensures forall r: Request | KeyOf(r) == KeyOf(q) && r.at < q.at + IDEMPOTENCY_TTL ::
              Cached(AfterMiss(AfterMiss(Empty(), p), q), r) &&
                  AfterMiss(AfterMiss(Empty(), p), q).cache[KeyOf(r)].value.job == q.job
  {
    var w := AfterMiss(Empty(), p);
    assert Passes(Empty(), p) && w.sent == [p.job];
    assert Passes(w, q);
  }
}
