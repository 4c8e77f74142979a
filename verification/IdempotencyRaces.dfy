/** core/idempotency.py inside api/main.py under concurrency: the check of the key, the admission of the job
    and the store of the answer are three separate steps of a call. */
module IdempotencyRaces {
  import opened RedisStore
  import QueueControl
  import opened Admission

  type CallId = nat

  datatype Phase = Missed | Replayed(job: JobId) | Refused | Created(response: Response) | Stored(response: Response)

  /** A call with the instants and the step numbers of its check and of its store. */
  datatype Attempt = Attempt(
    request: Request, phase: Phase, checkedAt: real, checkedStep: nat, storedAt: real, storedStep: nat)

  /** `step` numbers the events. */
  datatype StateOf<A> = State(now: real, step: nat, world: World, calls: A)

  type State = StateOf<map<CallId, Attempt>>

  datatype Event =
    | Check(id: CallId, request: Request)
    | Admit(id: CallId)
    | Store(id: CallId)
    | Worked(tenant: TenantId)
    | Tick(d: real)

  function Init(): State { StateOf.State(0.0, 0, Empty(), map[]) }

  /** A call that dies is one that takes no further step. */
  predicate Enabled(s: State, e: Event) {
    match e
    case Check(id, _) => id !in s.calls
    case Admit(id) => id in s.calls && s.calls[id].phase.Missed?
    case Store(id) => id in s.calls && s.calls[id].phase.Created?
    case Worked(_) => true
    case Tick(d) => d >= 0.0
  }

  function Apply(s: State, e: Event): State
    requires Enabled(s, e)
  {
    match e
    case Check(id, q) => OnCheck(s, id, q.(at := s.now))
    case Admit(id) => OnAdmit(s, id, s.calls[id].request.(at := s.now, key := ""))
    case Store(id) => OnStore(s, id)
    case Worked(t) => s.(step := s.step + 1,
        world := s.world.(depths := QueueControl.Decremented(s.world.depths, t, s.now)))
    case Tick(d) => s.(step := s.step + 1, now := s.now + d)
  }

  function OnCheck(s: State, id: CallId, q: Request): State {
    var phase := if Cached(s.world, q) then Replayed(s.world.cache[KeyOf(q)].value.job) else Missed;
    s.(step := s.step + 1, calls := s.calls[id := Attempt(q, phase, s.now, s.step, s.now, s.step)])
  }

  /** Rate limit, backpressure, job, counters and message; `bare` is the call without its key, so that
      nothing is stored yet. */
  function OnAdmit(s: State, id: CallId, bare: Request): State
    requires id in s.calls
  {
    var phase := if Passes(s.world, bare) then Created(Response(bare.job, RateInfo(s.world, bare))) else Refused;
    s.(step := s.step + 1, world := AfterMiss(s.world, bare), calls := s.calls[id := s.calls[id].(phase := phase)])
  }

  function OnStore(s: State, id: CallId): State
    requires id in s.calls && s.calls[id].phase.Created?
  {
    var c := s.calls[id];
    s.(step := s.step + 1,
       world := s.world.(cache := if c.request.key == "" then s.world.cache
                                  else SetEx(s.world.cache, KeyOf(c.request), c.phase.response, s.now,
                                      IDEMPOTENCY_TTL)),
       calls := s.calls[id := c.(phase := Stored(c.phase.response), storedAt := s.now, storedStep := s.step)])
  }

  function Exec(es: seq<Event>): Option<State> {
    if es == [] then Some(Init())
    else
      var before := Exec(es[..|es| - 1]);
      if before.Some? && Enabled(before.value, es[|es| - 1]) then Some(Apply(before.value, es[|es| - 1])) else None
  }

  // ---- Which call is replayed ----

  predicate SameKey(a: Request, b: Request) {
    a.key != "" && KeyOf(a) == KeyOf(b)
  }

  /** Call `p` has stored its answer, and did so before call `q` checked. */
  predicate StoredBefore(s: State, p: CallId, q: CallId) {
    && p in s.calls && q in s.calls && s.calls[p].phase.Stored? && SameKey(s.calls[p].request, s.calls[q].request)
    && s.calls[p].storedStep < s.calls[q].checkedStep
  }

  /** ... and less than a day before. */
  predicate Answers(s: State, p: CallId, q: CallId) {
    StoredBefore(s, p, q) && s.calls[q].checkedAt < s.calls[p].storedAt + IDEMPOTENCY_TTL
  }

  ghost predicate StepsOk(s: State, p: CallId) {
    p in s.calls ==>
      && s.calls[p].checkedAt <= s.now && s.calls[p].checkedStep < s.step
      && (s.calls[p].phase.Stored? ==> s.calls[p].storedAt <= s.now && s.calls[p].storedStep < s.step)
  }

  ghost predicate PairOk(s: State, p: CallId, q: CallId) {
    p in s.calls && q in s.calls && s.calls[p].phase.Stored? ==>
      && s.calls[p].storedStep != s.calls[q].checkedStep
      && (s.calls[q].checkedStep < s.calls[p].storedStep ==> s.calls[q].checkedAt <= s.calls[p].storedAt)
  }

  /** The cache entry of `k` is the answer `p` stored. */
  predicate Stems(s: State, k: CacheKey, p: CallId) {
    && k in s.world.cache && p in s.calls && s.calls[p].phase.Stored?
    && s.calls[p].request.key != "" && KeyOf(s.calls[p].request) == k
    && s.world.cache[k] == Entry(s.calls[p].phase.response, Some(s.calls[p].storedAt + IDEMPOTENCY_TTL))
    && s.calls[p].phase.response.job == s.calls[p].request.job
  }

  /** No store of `k` is later than `p`'s. */
  ghost predicate Latest(s: State, k: CacheKey, p: CallId) {
    Stems(s, k, p) && forall r | r in s.calls && s.calls[r].phase.Stored? && s.calls[r].request.key != "" &&
        KeyOf(s.calls[r].request) == k ::
      s.calls[r].storedStep <= s.calls[p].storedStep && s.calls[r].storedAt <= s.calls[p].storedAt
  }

  ghost predicate EntryOk(s: State, k: CacheKey) {
    && (k in s.world.cache ==> exists p :: Latest(s, k, p))
    && (k !in s.world.cache ==>
        forall r | r in s.calls && s.calls[r].phase.Stored? && s.calls[r].request.key != "" ::
        KeyOf(s.calls[r].request) != k)
  }

  /** The replay names the job of the latest answer stored before the check. */
  ghost predicate Names(s: State, q: CallId, p: CallId) {
    && Answers(s, p, q) && s.calls[q].phase == Replayed(s.calls[p].request.job)
    && forall r | StoredBefore(s, r, q) :: s.calls[r].storedStep <= s.calls[p].storedStep
  }

  ghost predicate ReplayOk(s: State, q: CallId) {
    q in s.calls ==>
      && (s.calls[q].phase.Replayed? ==> exists p :: Names(s, q, p))
      && (!s.calls[q].phase.Replayed? ==> forall p :: !Answers(s, p, q))
      && (s.calls[q].phase.Created? ==> s.calls[q].phase.response.job == s.calls[q].request.job)
  }

  ghost predicate Inv(s: State) {
    && (forall p {:trigger StepsOk(s, p)} :: StepsOk(s, p))
    && (forall p, q {:trigger PairOk(s, p, q)} :: PairOk(s, p, q))
    && (forall k {:trigger EntryOk(s, k)} :: EntryOk(s, k))
    && (forall q {:trigger ReplayOk(s, q)} :: ReplayOk(s, q))
  }

  /** Nothing that was stored before `q` checked has changed, nor whether `q` was replayed. */
  lemma {:induction false} ReplayKept(s: State, s': State, q: CallId)
    requires ReplayOk(s, q) && q in s.calls && q in s'.calls
    requires s'.calls[q].request == s.calls[q].request && s'.calls[q].checkedAt == s.calls[q].checkedAt
    requires s'.calls[q].phase == s.calls[q].phase || (!s'.calls[q].phase.Replayed? && !s.calls[q].phase.Replayed?)
    requires s'.calls[q].phase.Created? ==> s'.calls[q].phase.response.job == s'.calls[q].request.job
    requires forall p {:trigger StoredBefore(s', p, q)} :: StoredBefore(s', p, q) <==> StoredBefore(s, p, q)
    requires forall p | StoredBefore(s, p, q) :: p in s'.calls && s'.calls[p] == s.calls[p]
    ensures ReplayOk(s', q)
  {
    if s.calls[q].phase.Replayed? {
      var p :| Names(s, q, p);
      assert StoredBefore(s', p, q);
      assert Names(s', q, p);
    } else {
      forall p ensures !Answers(s', p, q) {
        assert StoredBefore(s', p, q) <==> StoredBefore(s, p, q);
        assert !Answers(s, p, q);
      }
    }
  }

  lemma {:induction false} CheckAnswered(s: State, id: CallId, q: Request)
    requires Inv(s) && id !in s.calls && q.at == s.now
    ensures ReplayOk(OnCheck(s, id, q), id)
  {
    var s', k := OnCheck(s, id, q), KeyOf(q);
    assert EntryOk(s, k);
    if Cached(s.world, q) {
      var p :| Latest(s, k, p);
      assert StepsOk(s, p);
      assert Names(s', id, p);
    } else {
      if k in s.world.cache { var l :| Latest(s, k, l); }
      forall p ensures !Answers(s', p, id) { }
    }
  }

  lemma {:induction false} EntryKept(s: State, s': State, k: CacheKey)
    requires EntryOk(s, k) && s'.world.cache == s.world.cache
    requires forall r | r in s.calls && s.calls[r].phase.Stored? :: r in s'.calls && s'.calls[r] == s.calls[r]
    requires forall r | r in s'.calls && s'.calls[r].phase.Stored? :: r in s.calls && s'.calls[r] == s.calls[r]
    ensures EntryOk(s', k)
  {
    if k in s.world.cache {
      var p :| Latest(s, k, p);
      assert Latest(s', k, p);
    }
  }

  lemma {:induction false} CheckKeeps(s: State, id: CallId, q: Request)
    requires Inv(s) && id !in s.calls && q.at == s.now
    ensures Inv(OnCheck(s, id, q))
  {
    var s' := OnCheck(s, id, q);
    forall p ensures StepsOk(s', p) { assert StepsOk(s, p); }
    forall p, r ensures PairOk(s', p, r) { assert PairOk(s, p, r) && StepsOk(s, p); }
    forall k ensures EntryOk(s', k) { assert EntryOk(s, k); EntryKept(s, s', k); }
    forall r ensures ReplayOk(s', r) {
      assert ReplayOk(s, r);
      if r == id { CheckAnswered(s, id, q); } else if r in s.calls { ReplayKept(s, s', r); }
    }
  }

  lemma {:induction false} AdmitKeeps(s: State, id: CallId, bare: Request)
    requires Inv(s) && id in s.calls && s.calls[id].phase.Missed? && bare.key == "" &&
        bare.job == s.calls[id].request.job
    ensures Inv(OnAdmit(s, id, bare))
  {
    var s' := OnAdmit(s, id, bare);
    assert s'.world.cache == s.world.cache;
    forall p ensures StepsOk(s', p) { assert StepsOk(s, p); }
    forall p, r ensures PairOk(s', p, r) { assert PairOk(s, p, r); }
    forall k ensures EntryOk(s', k) { assert EntryOk(s, k); EntryKept(s, s', k); }
    forall r ensures ReplayOk(s', r) { assert ReplayOk(s, r); if r in s.calls { ReplayKept(s, s', r); } }
  }

  lemma {:induction false} StoreKeeps(s: State, id: CallId)
    requires Inv(s) && id in s.calls && s.calls[id].phase.Created?
    ensures Inv(OnStore(s, id))
  {
    var s' := OnStore(s, id);
    forall p ensures StepsOk(s', p) { assert StepsOk(s, p); }
    forall p, r ensures PairOk(s', p, r) { assert PairOk(s, p, r) && StepsOk(s, r); }
    forall k ensures EntryOk(s', k) { StoreEntry(s, id, k); }
    forall r ensures ReplayOk(s', r) {
      assert ReplayOk(s, r) && StepsOk(s, r);
      if r in s.calls { ReplayKept(s, s', r); }
    }
  }

  lemma {:induction false} StoreEntry(s: State, id: CallId, k: CacheKey)
    requires Inv(s) && id in s.calls && s.calls[id].phase.Created?
    ensures EntryOk(OnStore(s, id), k)
  {
    var s', q := OnStore(s, id), s.calls[id].request;
    assert EntryOk(s, k) && ReplayOk(s, id);
    if q.key != "" && k == KeyOf(q) {
      forall r | r in s.calls ensures StepsOk(s, r) { }
      assert Latest(s', k, id);
    } else if k in s.world.cache {
      var p :| Latest(s, k, p);
      assert Latest(s', k, p);
    }
  }

  lemma {:induction false} QuietKeeps(s: State, s': State)
    requires Inv(s) && s'.calls == s.calls && s'.world.cache == s.world.cache && s'.now >= s.now && s'.step >= s.step
    ensures Inv(s')
  {
    forall p ensures StepsOk(s', p) { assert StepsOk(s, p); }
    forall p, r ensures PairOk(s', p, r) { assert PairOk(s, p, r); }
    forall k ensures EntryOk(s', k) { assert EntryOk(s, k); EntryKept(s, s', k); }
    forall r ensures ReplayOk(s', r) { assert ReplayOk(s, r); if r in s.calls { ReplayKept(s, s', r); } }
  }

  lemma {:induction false} InvHolds(es: seq<Event>)
    requires Exec(es).Some?
    ensures Inv(Exec(es).value)
  {
    if es == [] {
    } else {
      InvHolds(es[..|es| - 1]);
      var s, e := Exec(es[..|es| - 1]).value, es[|es| - 1];
      match e
      case Check(id, q) => CheckKeeps(s, id, q.(at := s.now));
      case Admit(id) => AdmitKeeps(s, id, s.calls[id].request.(at := s.now, key := ""));
      case Store(id) => StoreKeeps(s, id);
      case Worked(_) => QuietKeeps(s, Apply(s, e));
      case Tick(_) => QuietKeeps(s, Apply(s, e));
    }
  }

  /** Under every interleaving a call is replayed exactly when some call with its key stored its answer
      before the check and less than a day earlier, and it is then given the job of the latest of them. */
  lemma {:induction false} ReplayedExactly(es: seq<Event>, q: CallId)
    requires Exec(es).Some? && q in Exec(es).value.calls
    ensures Exec(es).value.calls[q].phase.Replayed? <==> exists p :: Answers(Exec(es).value, p, q)
    ensures Exec(es).value.calls[q].phase.Replayed? ==> exists p :: Names(Exec(es).value, q, p)
  {
    InvHolds(es);
    assert ReplayOk(Exec(es).value, q);
  }

  predicate Admitted(s: State, p: CallId) {
    p in s.calls && (s.calls[p].phase.Created? || s.calls[p].phase.Stored?)
  }

  /** Two different calls with one key that both created a job, the second not a day or more after the
      first stored its answer, if it ever does. */
  predicate Duplicates(s: State, p: CallId, q: CallId) {
    && p != q && Admitted(s, p) && Admitted(s, q) && SameKey(s.calls[p].request, s.calls[q].request)
    && (s.calls[p].phase.Stored? ==> s.calls[q].checkedAt < s.calls[p].storedAt + IDEMPOTENCY_TTL)
  }

  /** The same two calls, of which the first had not stored when the second checked: it was still under
      way, or had died after creating its job. */
  predicate Overlaps(s: State, p: CallId, q: CallId) {
    && p != q && Admitted(s, p) && Admitted(s, q) && SameKey(s.calls[p].request, s.calls[q].request)
    && (s.calls[p].phase.Stored? ==> s.calls[q].checkedStep < s.calls[p].storedStep)
  }

  /** The promise of one job per key and day fails for two calls exactly when the first had not stored its
      answer by the check of the second. */
  lemma {:induction false} DuplicateIffOverlap(es: seq<Event>, p: CallId, q: CallId)
    requires Exec(es).Some?
    ensures Duplicates(Exec(es).value, p, q) <==> Overlaps(Exec(es).value, p, q)
  {
    InvHolds(es);
    var s := Exec(es).value;
    assert PairOk(s, p, q) && ReplayOk(s, q);
    if Duplicates(s, p, q) { assert !Answers(s, p, q); }
  }

  // ---- Some calls do overlap ----

  ghost predicate Reaches(s: State) {
    exists es :: Exec(es) == Some(s)
  }

  lemma {:induction false} ReachesOn(s: State, e: Event)
    requires Reaches(s) && Enabled(s, e)
    ensures Reaches(Apply(s, e))
  {
    var es :| Exec(es) == Some(s);
    assert (es + [e])[..|es|] == es;
    assert Exec(es + [e]) == Some(Apply(s, e));
  }

  lemma {:induction false} BothMiss(a: Request, b: Request) returns (s: State)
    requires SameKey(a, b)
    ensures Reaches(s) && s.now == 0.0 && s.world == Empty() && s.calls.Keys == {0, 1}
    ensures s.calls[0].phase.Missed? && s.calls[0].request == a.(at := 0.0)
    ensures s.calls[1].phase.Missed? && s.calls[1].request == b.(at := 0.0) && s.calls[1].checkedAt == 0.0
  {
    assert Exec([]) == Some(Init()) && Reaches(Init());
    ReachesOn(Init(), Check(0, a));
    s := Apply(Init(), Check(0, a));
    ReachesOn(s, Check(1, b));
    s := Apply(s, Check(1, b));
  }

  lemma {:induction false} BothPass(a: Request, b: Request)
    requires a.tenant == b.tenant && a.plan == b.plan && a.at == b.at
    ensures Passes(Empty(), a) && Passes(AfterMiss(Empty(), a), b)
  {
  }

  lemma {:induction false} AdmitReaches(s: State, id: CallId, bare: Request)
    requires Reaches(s) && id in s.calls && s.calls[id].phase.Missed?
    requires bare == s.calls[id].request.(at := s.now, key := "") && Passes(s.world, bare)
    ensures Reaches(OnAdmit(s, id, bare)) && OnAdmit(s, id, bare).calls[id].phase.Created?
  {
    ReachesOn(s, Admit(id));
  }

  /** Any two calls with one key, the first to arrive at an empty store, can both be admitted. */
  lemma {:induction false} RepeatsCanDuplicate(a: Request, b: Request)
    requires SameKey(a, b) && a.plan == b.plan
    ensures exists s ::
        Reaches(s) && Duplicates(s, 0, 1) && s.calls[0].request.job == a.job && s.calls[1].request.job == b.job
  {
    var s := BothMiss(a, b);
    var first, second := a.(at := 0.0, key := ""), b.(at := 0.0, key := "");
    BothPass(first, second);
    AdmitReaches(s, 0, first);
    s := OnAdmit(s, 0, first);
    AdmitReaches(s, 1, second);
    s := OnAdmit(s, 1, second);
    ReachesOn(s, Store(0));
    assert Duplicates(OnStore(s, 0), 0, 1);
  }

  lemma {:induction false} CreateAndDie(a: Request, d: real) returns (s: State)
    requires 0.0 <= d
    ensures Reaches(s) && s.now == d && 0 in s.calls && s.calls.Keys == {0} && s.calls[0].phase.Created?
    ensures s.calls[0].request == a.(at := 0.0) && s.world == AfterMiss(Empty(), a.(at := 0.0, key := ""))
  {
    var bare := a.(at := 0.0, key := "");
    assert Exec([]) == Some(Init()) && Reaches(Init());
    ReachesOn(Init(), Check(0, a));
    s := Apply(Init(), Check(0, a));
    BothPass(bare, bare);
    AdmitReaches(s, 0, bare);
    s := OnAdmit(s, 0, bare);
    ReachesOn(s, Tick(d));
    s := Apply(s, Tick(d));
  }

  lemma {:induction false} LaterPasses(a: Request, b: Request)
    requires a.tenant == b.tenant && a.plan == b.plan
    ensures Passes(AfterMiss(Empty(), a), b)
  {
    assert Passes(Empty(), a);
  }

  /** A call that creates its job and dies before it stores the answer lets any repeat, however much
      later, create another, though the two never run at once. */
  lemma {:induction false} DeadCallDuplicates(a: Request, b: Request, d: real)
    requires SameKey(a, b) && a.plan == b.plan && 0.0 <= d
    ensures exists s :: Reaches(s) && Duplicates(s, 0, 1) && s.calls[0].phase.Created? && s.calls[1].checkedAt == d
  {
    var s := CreateAndDie(a, d);
    ReachesOn(s, Check(1, b));
    assert s.world.cache == map[];
    s := OnCheck(s, 1, b.(at := d));
    LaterPasses(a.(at := 0.0, key := ""), b.(at := d, key := ""));
    AdmitReaches(s, 1, b.(at := d, key := ""));
    assert Duplicates(OnAdmit(s, 1, b.(at := d, key := "")), 0, 1);
  }
}
