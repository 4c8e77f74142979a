/** core/jobs.py: job records with a time to live, and the per-tenant set that replaced the scan over
    all of them. */
module Jobs {
  import opened RedisStore

  const JOB_TTL := 604800.0

  datatype JobStatus = Queued | Running | PendingHuman | Done | Rejected | Error

  datatype Job = Job(id: JobId, tenant: TenantId, status: JobStatus, created: real)

  type Records = map<JobId, Entry<Job>>
  type Index = map<TenantId, Entry<set<JobId>>>

  function Members(index: Index, t: TenantId, now: real): set<JobId> {
    if Live(index, t, now) then index[t].value else {}
  }

  /** SADD then EXPIRE */
  function Indexed(index: Index, t: TenantId, j: JobId, now: real): Index {
    SetEx(index, t, Members(index, t, now) + {j}, now, JOB_TTL)
  }

  function Created(records: Records, j: JobId, t: TenantId, now: real): Records {
    SetEx(records, j, Job(j, t, Queued, now), now, JOB_TTL)
  }

  /** An update of a missing or expired job does nothing. */
  function Updated(records: Records, j: JobId, status: JobStatus, now: real): Records {
    if Live(records, j, now) then SetEx(records, j, records[j].value.(status := status), now, JOB_TTL) else records
  }

  /** A copy of a job read earlier is stored whole, even when the record has expired since. */
  function WrittenBack(records: Records, j: JobId, status: JobStatus, now: real): Records {
    if j in records then SetEx(records, j, records[j].value.(status := status), now, JOB_TTL) else records
  }

  // ---- Listing ----

  function InsertNewest(job: Job, sorted: seq<Job>): seq<Job> {
    if sorted == [] || sorted[0].created < job.created then [job] + sorted
    else [sorted[0]] + InsertNewest(job, sorted[1..])
  }

  /** The stable sort by creation time, newest first */
  function NewestFirst(jobs: seq<Job>): seq<Job> {
    if jobs == [] then [] else InsertNewest(jobs[|jobs| - 1], NewestFirst(jobs[..|jobs| - 1]))
  }

  ghost predicate Sorted(jobs: seq<Job>) {
    forall i, k | 0 <= i < k < |jobs| :: jobs[i].created >= jobs[k].created
  }

  lemma {:induction false} InsertNewestKeeps(job: Job, sorted: seq<Job>)
    ensures multiset(InsertNewest(job, sorted)) == multiset(sorted) + multiset{job}
  {
    if sorted != [] && !(sorted[0].created < job.created) {
      InsertNewestKeeps(job, sorted[1..]);
      assert sorted == [sorted[0]] + sorted[1..];
    }
  }

  lemma {:induction false} InsertNewestSorts(job: Job, sorted: seq<Job>)
    requires Sorted(sorted)
    ensures Sorted(InsertNewest(job, sorted))
  {
    if sorted != [] && !(sorted[0].created < job.created) {
      var tail := sorted[1..];
      InsertNewestSorts(job, tail);
      InsertNewestKeeps(job, tail);
      var rest := InsertNewest(job, tail);
      forall i | 0 <= i < |rest| ensures rest[i].created <= sorted[0].created {
        assert rest[i] in multiset(rest);
        assert rest[i] in tail || rest[i] == job;
      }
    }
  }

  lemma {:induction false} NewestFirstSorts(jobs: seq<Job>)
    ensures Sorted(NewestFirst(jobs)) && multiset(NewestFirst(jobs)) == multiset(jobs)
  {
    if jobs == [] {
    } else {
      NewestFirstSorts(jobs[..|jobs| - 1]);
      InsertNewestSorts(jobs[|jobs| - 1], NewestFirst(jobs[..|jobs| - 1]));
      InsertNewestKeeps(jobs[|jobs| - 1], NewestFirst(jobs[..|jobs| - 1]));
      assert jobs == jobs[..|jobs| - 1] + [jobs[|jobs| - 1]];
    }
  }

  /** The live records of a set of ids */
  function LiveJobs(records: Records, ids: set<JobId>, now: real): set<Job> {
    set j | j in ids && Live(records, j, now) :: records[j].value
  }

  ghost predicate IsNewest(jobs: seq<Job>, among: set<Job>, limit: nat) {
    && multiset(jobs) <= multiset(among)
    && |jobs| == (if |among| <= limit then |among| else limit)
    && (forall x, y | x in among && x !in jobs && y in jobs :: x.created <= y.created)
  }

  lemma CutKeepsNewest(sorted: seq<Job>, among: set<Job>, limit: nat)
    requires Sorted(sorted) && multiset(sorted) == multiset(among)
    ensures
      var jobs := if |sorted| <= limit then sorted else sorted[..limit];
      Sorted(jobs) && IsNewest(jobs, among, limit)
  {
    assert |sorted| == |multiset(sorted)| == |multiset(among)| == |among|;
    if limit < |sorted| {
      var jobs := sorted[..limit];
      assert sorted == jobs + sorted[limit..];
      assert forall i | 0 <= i < limit :: sorted[i] in jobs;
      forall x, y | x in among && x !in jobs && y in jobs ensures x.created <= y.created {
        assert x in multiset(sorted);
        var i :| 0 <= i < |sorted| && sorted[i] == x;
        var k :| 0 <= k < |jobs| && jobs[k] == y;
        assert sorted[k] == y;
      }
    } else {
      assert forall x | x in among :: x in multiset(sorted);
    }
  }

  /** Every record is stored under its own id. */
  ghost predicate Keyed(records: Records) {
    forall j | j in records :: records[j].value.id == j
  }

  class JobStore {
    var records: Records
    var index: Index

    constructor ()
      ensures records == map[] && index == map[]
    {
      records, index := map[], map[];
    }

    method CreateJob(j: JobId, t: TenantId, now: real)
      modifies this
      ensures records == Created(old(records), j, t, now)
      ensures index == Indexed(old(index), t, j, now)
      ensures records == old(records)[j := Entry(Job(j, t, Queued, now), Some(now + 604800.0))]
      ensures t in index && index[t].expiry == Some(now + 604800.0) && j in index[t].value
      ensures index[t].value == Members(old(index), t, now) + {j}
    {
      records := SetEx(records, j, Job(j, t, Queued, now), now, JOB_TTL);
      var ids := Members(index, t, now) + {j};
      index := SetEx(index, t, ids, now, JOB_TTL);
    }

    method UpdateJob(j: JobId, status: JobStatus, now: real)
      modifies this`records
      ensures records == Updated(old(records), j, status, now)
      ensures !Live(old(records), j, now) ==> records == old(records)
      ensures Live(old(records), j, now) ==>
          records == old(records)[j := Entry(old(records)[j].value.(status := status), Some(now + 604800.0))]
    {
      if !Live(records, j, now) {
        return;
      }
      var job := records[j].value;
      job := job.(status := status);
      records := SetEx(records, j, job, now, JOB_TTL);
    }

    /** The tenant's listed jobs are live records of the index members, each once and newest first, as
        many as the limit allows; what the limit cuts off is no newer than anything listed. */
    method ListJobs(t: TenantId, limit: nat, now: real) returns (jobs: seq<Job>)
      requires Keyed(records)
      ensures Sorted(jobs)
      ensures IsNewest(jobs, LiveJobs(records, Members(index, t, now), now), limit)
    {
      var ids := Members(index, t, now);
      var found: seq<Job> := [];
      ghost var seen: set<JobId> := {};
      while ids != {}
        invariant seen + ids == Members(index, t, now) && seen !! ids
        invariant multiset(found) == multiset(LiveJobs(records, seen, now))
        decreases |ids|
      {
        var j :| j in ids;
        LiveJobsGrow(records, seen, j, now);
        ids := ids - {j};
        if Live(records, j, now) {
          found := found + [records[j].value];
        }
        seen := seen + {j};
      }
      NewestFirstSorts(found);
      var sorted := NewestFirst(found);
      CutKeepsNewest(sorted, LiveJobs(records, Members(index, t, now), now), limit);
      jobs := if |sorted| <= limit then sorted else sorted[..limit];
    }
  }

  lemma LiveJobsGrow(records: Records, seen: set<JobId>, j: JobId, now: real)
    requires Keyed(records) && j !in seen
    ensures multiset(LiveJobs(records, seen + {j}, now))
            == multiset(LiveJobs(records, seen, now)) + (if Live(records, j, now) then multiset{records[j].value}
                else multiset{})
  {
    var was := LiveJobs(records, seen, now);
    if Live(records, j, now) {
      assert LiveJobs(records, seen + {j}, now) == was + {records[j].value};
      assert records[j].value !in was;
    } else {
      assert LiveJobs(records, seen + {j}, now) == was;
    }
  }

  // ---- Histories ----

  datatype Event =
    | Create(job: JobId, tenant: TenantId, at: real)
    | Update(job: JobId, status: JobStatus, at: real)
    | WriteBack(job: JobId, status: JobStatus, at: real)

  /** `births` is history: every creation of each tenant, in order. */
  datatype StateOf<R, I, B> = State(records: R, index: I, births: B, clock: real)

  type State = StateOf<Records, Index, map<TenantId, seq<Job>>>

  function BirthsOf(s: State, t: TenantId): seq<Job> {
    if t in s.births then s.births[t] else []
  }

  function Init(): State { State(map[], map[], map[], 0.0) }

  /** Events come in order and every created id is new. */
  predicate Enabled(s: State, e: Event) {
    s.clock <= e.at && (e.Create? ==> forall t | t in s.births :: forall i | 0 <= i < |s.births[t]| ::
        s.births[t][i].id != e.job)
  }

  function Apply(s: State, e: Event): State {
    match e
    case Create(j, t, at) =>
      State(Created(s.records, j, t, at), Indexed(s.index, t, j, at),
            s.births[t := BirthsOf(s, t) + [Job(j, t, Queued, at)]], at)
    case Update(j, status, at) => s.(records := Updated(s.records, j, status, at), clock := at)
    case WriteBack(j, status, at) => s.(records := WrittenBack(s.records, j, status, at), clock := at)
  }

  function Exec(es: seq<Event>): Option<State> {
    if es == [] then Some(Init())
    else
      var before := Exec(es[..|es| - 1]);
      if before.Some? && Enabled(before.value, es[|es| - 1]) then Some(Apply(before.value, es[|es| - 1])) else None
  }

  /** From birth `i` on, no two successive creations of the tenant lie a whole JOB_TTL apart. */
  ghost predicate Chained(births: seq<Job>, i: nat)
    requires i < |births|
  {
    forall k | i < k < |births| :: Close(births, k)
  }

  predicate Close(births: seq<Job>, k: nat)
    requires 0 < k < |births|
  {
    births[k].created < births[k - 1].created + JOB_TTL
  }

  /** ... and the latest creation is younger than that. */
  ghost predicate Unbroken(births: seq<Job>, i: nat, now: real)
    requires i < |births|
  {
    Chained(births, i) && now < births[|births| - 1].created + JOB_TTL
  }

  ghost predicate Born(births: seq<Job>, j: JobId) {
    exists i | 0 <= i < |births| :: births[i].id == j
  }

  /** The index entry of a tenant holds exactly the chained births, until the latest one is JOB_TTL old. */
  ghost predicate IndexOk(s: State, t: TenantId) {
    var births := BirthsOf(s, t);
    if births == [] then t !in s.index
    else
      && t in s.index && s.index[t].expiry == Some(births[|births| - 1].created + JOB_TTL)
      && (forall i | 0 <= i < |births| :: births[i].id in s.index[t].value <==> Chained(births, i))
      && (forall j | j in s.index[t].value :: Born(births, j))
  }

  /** Every birth left a record of its own that outlives JOB_TTL from its creation. */
  ghost predicate BirthOk(s: State, t: TenantId, i: nat)
    requires i < |BirthsOf(s, t)|
  {
    var b := BirthsOf(s, t)[i];
    && b.created <= s.clock && (0 < i ==> BirthsOf(s, t)[i - 1].created <= b.created)
    && b.id in s.records
    && s.records[b.id].value.id == b.id && s.records[b.id].value.tenant == t &&
        s.records[b.id].value.created == b.created
    && s.records[b.id].expiry.Some? && b.created + JOB_TTL <= s.records[b.id].expiry.value
  }

  ghost predicate RecordOk(s: State, j: JobId)
    requires j in s.records
  {
    && s.records[j].value.id == j
    && Born(BirthsOf(s, s.records[j].value.tenant), j)
  }

  ghost predicate Inv(s: State) {
    && (forall t {:trigger IndexOk(s, t)} :: IndexOk(s, t))
    && (forall t, i {:trigger BirthOk(s, t, i)} | 0 <= i < |BirthsOf(s, t)| :: BirthOk(s, t, i))
    && (forall j {:trigger RecordOk(s, j)} | j in s.records :: RecordOk(s, j))
  }

  lemma ChainedSnoc(births: seq<Job>, b: Job, i: nat)
    requires i < |births|
    ensures Chained(births + [b], i) <==> Chained(births, i) && b.created < births[|births| - 1].created + JOB_TTL
  {
    var longer := births + [b];
    assert Close(longer, |births|) <==> b.created < births[|births| - 1].created + JOB_TTL;
    forall k | i < k < |births| ensures Close(longer, k) <==> Close(births, k) { }
    if Chained(longer, i) {
      forall k | i < k < |births| ensures Close(births, k) { assert Close(longer, k); }
    }
  }

  lemma BornSnoc(births: seq<Job>, b: Job, j: JobId)
    ensures Born(births + [b], j) <==> Born(births, j) || b.id == j
  {
    var longer := births + [b];
    if Born(births, j) {
      var i :| 0 <= i < |births| && births[i].id == j;
      assert longer[i].id == j;
    }
    assert longer[|births|].id == b.id;
  }

  lemma CreateIndex(s: State, e: Event)
    requires Inv(s) && e.Create? && Enabled(s, e)
    ensures IndexOk(Apply(s, e), e.tenant)
  {
    var s' := Apply(s, e);
    var births, b := BirthsOf(s, e.tenant), Job(e.job, e.tenant, Queued, e.at);
    var births' := births + [b];
    assert BirthsOf(s', e.tenant) == births';
    assert IndexOk(s, e.tenant);
    forall i | 0 <= i < |births'| ensures births'[i].id in s'.index[e.tenant].value <==> Chained(births', i) {
      CreateMember(s, e, births, b, i);
    }
    forall j | j in s'.index[e.tenant].value ensures Born(births', j) {
      BornSnoc(births, b, j);
    }
  }

  lemma CreateMember(s: State, e: Event, births: seq<Job>, b: Job, i: nat)
    requires Inv(s) && e.Create? && Enabled(s, e) && births == BirthsOf(s, e.tenant) &&
        b == Job(e.job, e.tenant, Queued, e.at)
    requires i <= |births|
    ensures (births + [b])[i].id in Apply(s, e).index[e.tenant].value <==> Chained(births + [b], i)
  {
    assert IndexOk(s, e.tenant);
    if i < |births| {
      FreshId(s, e, e.tenant, i);
      ChainedSnoc(births, b, i);
    }
  }

  lemma FreshId(s: State, e: Event, t: TenantId, i: nat)
    requires e.Create? && Enabled(s, e) && i < |BirthsOf(s, t)|
    ensures BirthsOf(s, t)[i].id != e.job
  {
    assert t in s.births && s.births[t][i].id != e.job;
  }

  lemma CreateKeeps(s: State, e: Event)
    requires Inv(s) && e.Create? && Enabled(s, e)
    ensures Inv(Apply(s, e))
  {
    var s' := Apply(s, e);
    forall t ensures IndexOk(s', t) {
      if t == e.tenant { CreateIndex(s, e); } else { assert IndexOk(s, t) && BirthsOf(s', t) == BirthsOf(s, t); }
    }
    forall t, i | 0 <= i < |BirthsOf(s', t)| ensures BirthOk(s', t, i) {
      if i < |BirthsOf(s, t)| {
        assert BirthOk(s, t, i);
        FreshId(s, e, t, i);
      } else if 0 < i {
        assert BirthOk(s, t, i - 1);
      }
    }
    forall j | j in s'.records ensures RecordOk(s', j) {
      if j != e.job { assert RecordOk(s, j); }
      BornSnoc(BirthsOf(s, e.tenant), Job(e.job, e.tenant, Queued, e.at), j);
    }
  }

  lemma UpdateKeeps(s: State, e: Event)
    requires Inv(s) && !e.Create? && Enabled(s, e)
    ensures Inv(Apply(s, e))
  {
    var s' := Apply(s, e);
    forall t ensures IndexOk(s', t) { assert IndexOk(s, t); }
    forall t, i | 0 <= i < |BirthsOf(s', t)| ensures BirthOk(s', t, i) { assert BirthOk(s, t, i); }
    forall j | j in s'.records ensures RecordOk(s', j) { assert RecordOk(s, j); }
  }

  lemma {:induction false} InvHolds(es: seq<Event>)
    requires Exec(es).Some?
    ensures Inv(Exec(es).value)
  {
    if es == [] {
    } else {
      InvHolds(es[..|es| - 1]);
      var s, e := Exec(es[..|es| - 1]).value, es[|es| - 1];
      if e.Create? { CreateKeeps(s, e); } else { UpdateKeeps(s, e); }
    }
  }

  /** What list_jobs shows before its limit */
  function Listed(s: State, t: TenantId, now: real): set<Job> {
    LiveJobs(s.records, Members(s.index, t, now), now)
  }

  /** What the full key scan it replaced would show */
  function Scanned(s: State, t: TenantId, now: real): set<Job> {
    set j | j in s.records && Live(s.records, j, now) && s.records[j].value.tenant == t :: s.records[j].value
  }

  lemma ListedExactly(s: State, t: TenantId, i: nat, now: real)
    requires Inv(s) && i < |BirthsOf(s, t)| && Live(s.records, BirthsOf(s, t)[i].id, now)
    ensures s.records[BirthsOf(s, t)[i].id].value in Listed(s, t, now) <==> Unbroken(BirthsOf(s, t), i, now)
  {
    var births := BirthsOf(s, t);
    var j := births[i].id;
    assert IndexOk(s, t) && BirthOk(s, t, i);
    if s.records[j].value in Listed(s, t, now) {
      var j' :| j' in Members(s.index, t, now) && Live(s.records, j', now) && s.records[j'].value == s.records[j].value;
      assert RecordOk(s, j') && RecordOk(s, j);
    }
  }

  lemma ListedIsScanned(s: State, t: TenantId, now: real)
    requires Inv(s)
    ensures Listed(s, t, now) <= Scanned(s, t, now)
  {
    assert IndexOk(s, t);
    forall j | j in Members(s.index, t, now) && Live(s.records, j, now)
      ensures s.records[j].value in Scanned(s, t, now)
    {
      var i :| 0 <= i < |BirthsOf(s, t)| && BirthsOf(s, t)[i].id == j;
      assert BirthOk(s, t, i);
    }
  }

  lemma {:induction false} BirthsInOrder(s: State, t: TenantId, i: nat, k: nat)
    requires Inv(s) && i <= k < |BirthsOf(s, t)|
    ensures BirthsOf(s, t)[i].created <= BirthsOf(s, t)[k].created <= s.clock
    decreases k
  {
    assert BirthOk(s, t, k);
    if i < k { BirthsInOrder(s, t, i, k - 1); }
  }

  /** After any history the listing shows only live jobs of its own tenant, and every job of the tenant
      younger than JOB_TTL. */
  lemma ListingIsSoundAndFresh(es: seq<Event>, t: TenantId, now: real)
    requires Exec(es).Some? && Exec(es).value.clock <= now
    ensures Listed(Exec(es).value, t, now) <= Scanned(Exec(es).value, t, now)
    ensures forall i | 0 <= i < |BirthsOf(Exec(es).value, t)| &&
        now < BirthsOf(Exec(es).value, t)[i].created + JOB_TTL ::
              BirthsOf(Exec(es).value, t)[i].id in Exec(es).value.records
              && Exec(es).value.records[BirthsOf(Exec(es).value, t)[i].id].value in Listed(Exec(es).value, t, now)
  {
    InvHolds(es);
    var s := Exec(es).value;
    ListedIsScanned(s, t, now);
    var births := BirthsOf(s, t);
    forall i | 0 <= i < |births| && now < births[i].created + JOB_TTL
      ensures births[i].id in s.records && s.records[births[i].id].value in Listed(s, t, now)
    {
      assert BirthOk(s, t, i);
      forall k | i <= k < |births| ensures births[i].created <= births[k].created <= now { BirthsInOrder(s, t, i, k); }
      ListedExactly(s, t, i, now);
    }
  }

  /** The listing agrees with the scan exactly when every live job of the tenant is unbroken: since its
      creation the tenant has never gone JOB_TTL without creating another. */
  lemma ListingAgreesWithScan(es: seq<Event>, t: TenantId, now: real)
    requires Exec(es).Some?
    ensures Listed(Exec(es).value, t, now) == Scanned(Exec(es).value, t, now) <==>
              forall i | 0 <= i < |BirthsOf(Exec(es).value, t)| &&
                  Live(Exec(es).value.records, BirthsOf(Exec(es).value, t)[i].id, now) ::
                Unbroken(BirthsOf(Exec(es).value, t), i, now)
  {
    InvHolds(es);
    var s := Exec(es).value;
    var births := BirthsOf(s, t);
    ListedIsScanned(s, t, now);
    forall i | 0 <= i < |births| && Live(s.records, births[i].id, now)
      ensures s.records[births[i].id].value in Scanned(s, t, now)
      ensures s.records[births[i].id].value in Listed(s, t, now) <==> Unbroken(births, i, now)
    {
      assert BirthOk(s, t, i);
      ListedExactly(s, t, i, now);
    }
    if forall i | 0 <= i < |births| && Live(s.records, births[i].id, now) :: Unbroken(births, i, now) {
      forall j | j in s.records && Live(s.records, j, now) && s.records[j].value.tenant == t
        ensures s.records[j].value in Listed(s, t, now)
      {
        assert RecordOk(s, j);
        var i :| 0 <= i < |births| && births[i].id == j;
      }
    }
  }

  /** The index can miss what the scan would find: an update keeps the record alive past the life of the
      tenant's set. */
  lemma IndexMissesUpdatedJob()
    ensures
      var es := [Create(0, 0, 0.0), Update(0, Done, 300000.0)];
      Exec(es).Some? && Listed(Exec(es).value, 0, 700000.0) == {} && Scanned(Exec(es).value, 0, 700000.0) != {}
  {
    var es := [Create(0, 0, 0.0), Update(0, Done, 300000.0)];
    assert es[..1] == [Create(0, 0, 0.0)] && es[..1][..0] == [];
    assert Exec(es[..1]) == Some(Apply(Init(), es[0]));
    var s := Exec(es).value;
    assert Live(s.records, 0, 700000.0);
    assert s.records[0].value in Scanned(s, 0, 700000.0);
    assert Members(s.index, 0, 700000.0) == {};
  }
}
