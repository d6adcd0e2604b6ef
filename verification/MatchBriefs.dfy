/** Match briefs: a cache keyed by profile revision and job version against recomputation.

    Between the reads of candidate, jobs and cache and the cache write of one request,
    profiles may be saved, jobs created, changed and deleted, cache entries evicted or
    damaged, and other requests may run.  Each single read or write is one step. */
module MatchBriefs {
  import opened Ordering
  import opened MatchEvaluator

  datatype Kind = SummaryKind | DetailKind

  datatype Key = Key(kind: Kind, user: nat, revision: nat, job: nat, version: Version)

  /** A stored text that JSON.parse refuses is malformed. */
  datatype Entry = Parsed(brief: Brief) | Malformed

  type Cache = map<Key, Entry>

  /** Which candidate, at which revision, asks for what. */
  datatype Query = Query(kind: Kind, user: nat, revision: nat, facts: CandidateFacts)

  function CacheKey(q: Query, job: JobFacts): Key {
    Key(q.kind, q.user, q.revision, job.id, ComputeJobMatchVersion(job))
  }

  function Compute(text: Text, q: Query, job: JobFacts, now: int): Brief {
    var b := Evaluate(text, q.facts, q.revision, job, now);
    if q.kind == SummaryKind then Summarize(b) else b
  }

  /** The injected evaluator: what it computes for a query and a job at a given time. */
  type Evaluator = (Query, JobFacts, int) -> Brief

  function EvaluatorOf(text: Text): Evaluator {
    (q: Query, job: JobFacts, now: int) => Compute(text, q, job, now)
  }

  /** A brief but for the time of its calculation. */
  function Undated(b: Brief): Brief {
    b.(calculatedAt := 0)
  }

  function UndatedAll(bs: seq<Brief>): (out: seq<Brief>)
    ensures |out| == |bs|
  {
    seq(|bs|, i requires 0 <= i < |bs| => Undated(bs[i]))
  }

  function JobMap(found: seq<JobFacts>): map<string, JobFacts> {
    if found == [] then map[] else JobMap(found[..|found| - 1])[found[|found| - 1].slug := found[|found| - 1]]
  }

  /** The plain thing the cache speeds up: every existing slug evaluated, in request order. */
  function Fresh(ev: Evaluator, q: Query, jobs: map<string, JobFacts>, slugs: seq<string>): seq<Brief> {
    if slugs == [] then []
    else (if slugs[0] in jobs then [Undated(ev(q, jobs[slugs[0]], 0))] else []) + Fresh(ev, q, jobs, slugs[1..])
  }

  // ---- one request against a cache ---------------------------------------------

  ghost predicate DistinctSlugs(jobs: seq<JobFacts>) {
    forall i, j :: 0 <= i < j < |jobs| ==> jobs[i].slug != jobs[j].slug
  }

  predicate IsHit(cache: Cache, up: bool, q: Query, job: JobFacts) {
    up && CacheKey(q, job) in cache && cache[CacheKey(q, job)].Parsed?
  }

  function Answer(ev: Evaluator, cache: Cache, up: bool, q: Query, job: JobFacts, now: int): Brief {
    if IsHit(cache, up, q, job) then cache[CacheKey(q, job)].brief else ev(q, job, now)
  }

  function Summaries(ev: Evaluator, cache: Cache, up: bool, q: Query, found: seq<JobFacts>, now: int): map<string, Brief> {
    var jobs := JobMap(found);
    map slug | slug in jobs :: Answer(ev, cache, up, q, jobs[slug], now)
  }

  function Misses(cache: Cache, up: bool, q: Query, found: seq<JobFacts>): (misses: seq<JobFacts>)
    ensures forall job :: job in misses <==> job in found && !IsHit(cache, up, q, job)
  {
    if found == [] then []
    else
      var last := found[|found| - 1];
      Misses(cache, up, q, found[..|found| - 1]) + if IsHit(cache, up, q, last) then [] else [last]
  }

  datatype CacheWrite = CacheWrite(key: Key, brief: Brief)

  function Writes(ev: Evaluator, q: Query, misses: seq<JobFacts>, now: int): (out: seq<CacheWrite>)
    ensures |out| == |misses|
  {
    seq(|misses|, i requires 0 <= i < |misses| => CacheWrite(CacheKey(q, misses[i]), ev(q, misses[i], now)))
  }

  function Pick(summaries: map<string, Brief>, slugs: seq<string>): seq<Brief> {
    if slugs == [] then []
    else (if slugs[0] in summaries then [summaries[slugs[0]]] else []) + Pick(summaries, slugs[1..])
  }

  /** The pipeline of SETEX commands, of which any may fail. */
  function Store(cache: Cache, writes: seq<CacheWrite>, failed: set<int>): Cache {
    if writes == [] then cache
    else
      var n := |writes| - 1;
      var before := Store(cache, writes[..n], failed);
      if n !in failed then before[writes[n].key := Parsed(writes[n].brief)] else before
  }

  // ---- the stored world and runs -----------------------------------------------

  /** A deleted job leaves its row behind, no longer listed; positions are ids. */
  datatype JobRow = JobRow(slug: string, listed: bool, facts: Version)

  /** All versions a user's profile ever had, position by revision; only the last is
      stored.  Revision 0 is the absent profile. */
  datatype World = World(profiles: map<nat, seq<CandidateFacts>>, jobs: seq<JobRow>)

  function Versions(w: World, user: nat): (vs: seq<CandidateFacts>)
    ensures |vs| > 0
  {
    if user in w.profiles && |w.profiles[user]| > 0 then w.profiles[user] else [NO_FACTS]
  }

  /** The job of an id and slug with the given hashed fields. */
  function JobOf(id: nat, slug: string, v: Version): JobFacts {
    JobFacts(id, slug, v.title, v.seniority, v.employmentType, v.workMode, v.salary)
  }

  ghost predicate SlugIsFree(jobs: seq<JobRow>, slug: string) {
    forall i :: 0 <= i < |jobs| && jobs[i].listed ==> jobs[i].slug != slug
  }

  /** findMany .. WHERE slug IN slugs: each matching row once, in any order. */
  ghost predicate IsListing(jobs: seq<JobRow>, slugs: seq<string>, found: seq<JobFacts>) {
    && DistinctSlugs(found)
    && (forall f :: f in found ==> f.slug in slugs && f.id < |jobs| && jobs[f.id].listed && f == JobOf(f.id, jobs[f.id].slug, jobs[f.id].facts))
    && (forall i :: 0 <= i < |jobs| && jobs[i].listed && jobs[i].slug in slugs ==> JobOf(i, jobs[i].slug, jobs[i].facts) in found)
  }

  datatype Request =
    | HaveCandidate(q: Query, slugs: seq<string>)
    | HaveJobs(q: Query, slugs: seq<string>, found: seq<JobFacts>)
    | HaveAnswer(q: Query, writes: seq<CacheWrite>)

  datatype Served = Served(q: Query, found: seq<JobFacts>, slugs: seq<string>, briefs: seq<Brief>)

  datatype State = State(world: World, cache: Cache, requests: map<nat, Request>, served: seq<Served>)

  datatype Event =
    | SaveProfile(user: nat, profile: CandidateFacts)
    | CreateJob(slug: string, facts: Version)
    | UpdateJob(id: nat, facts: Version)
    | DeleteJob(id: nat)
    | Evict(key: Key)
    | Damage(key: Key)
    | Begin(r: nat, kind: Kind, user: nat, slugs: seq<string>)
    | Load(r: nat, found: seq<JobFacts>)
    | ReadCache(r: nat, up: bool, now: int)
    | WriteCache(r: nat, failed: set<int>)

  predicate HasDuplicates(slugs: seq<string>) {
    |(set s | s in slugs)| != |slugs|
  }

  ghost function StepWorld(w: World, e: Event): World {
    match e
    case SaveProfile(user, profile) => w.(profiles := w.profiles[user := Versions(w, user) + [profile]])
    case CreateJob(slug, facts) =>
      if SlugIsFree(w.jobs, slug) then w.(jobs := w.jobs + [JobRow(slug, true, facts)]) else w
    case UpdateJob(id, facts) =>
      if id < |w.jobs| then w.(jobs := w.jobs[id := w.jobs[id].(facts := facts)]) else w
    case DeleteJob(id) =>
      if id < |w.jobs| then w.(jobs := w.jobs[id := w.jobs[id].(listed := false)]) else w
    case _ => w
  }

  ghost function StepRequest(s: State, ev: Evaluator, e: Event): State {
    match e
    case Begin(r, kind, user, slugs) =>
      if r in s.requests || HasDuplicates(slugs) then s
      else
        var versions := Versions(s.world, user);
        s.(requests := s.requests[r := HaveCandidate(Query(kind, user, |versions| - 1, versions[|versions| - 1]), slugs)])
    case Load(r, found) =>
      if r in s.requests && s.requests[r].HaveCandidate? && IsListing(s.world.jobs, s.requests[r].slugs, found) then
        s.(requests := s.requests[r := HaveJobs(s.requests[r].q, s.requests[r].slugs, found)])
      else s
    case ReadCache(r, up, now) =>
      if r in s.requests && s.requests[r].HaveJobs? then
        var p := s.requests[r];
        s.(requests := s.requests[r := HaveAnswer(p.q, Writes(ev, p.q, Misses(s.cache, up, p.q, p.found), now))],
           served := s.served + [Served(p.q, p.found, p.slugs, Pick(Summaries(ev, s.cache, up, p.q, p.found, now), p.slugs))])
      else s
    case WriteCache(r, failed) =>
      if r in s.requests && s.requests[r].HaveAnswer? then
        s.(cache := Store(s.cache, s.requests[r].writes, failed), requests := s.requests - {r})
      else s
    case _ => s
  }

  ghost function Step(s: State, ev: Evaluator, e: Event): State {
    match e
    case Evict(key) => s.(cache := s.cache - {key})
    case Damage(key) => if key in s.cache then s.(cache := s.cache[key := Malformed]) else s
    case _ => StepRequest(s, ev, e).(world := StepWorld(s.world, e))
  }

  ghost function Run(s: State, ev: Evaluator, es: seq<Event>): State
    decreases |es|
  {
    if es == [] then s else Run(Step(s, ev, es[0]), ev, es[1..])
  }

  const INITIAL := State(World(map[], []), map[], map[], [])

  // ---- coherence ---------------------------------------------------------------

  ghost predicate QueryOk(w: World, q: Query) {
    q.revision < |Versions(w, q.user)| && q.facts == Versions(w, q.user)[q.revision]
  }

  ghost predicate JobOk(w: World, job: JobFacts) {
    job.id < |w.jobs| && job.slug == w.jobs[job.id].slug
  }

  /** A brief under its key is what evaluation gives for that revision, job and version. */
  ghost predicate EntryOk(w: World, ev: Evaluator, key: Key, brief: Brief) {
    && key.revision < |Versions(w, key.user)| && key.job < |w.jobs|
    && Undated(brief) == Undated(ev(
         Query(key.kind, key.user, key.revision, Versions(w, key.user)[key.revision]),
         JobOf(key.job, w.jobs[key.job].slug, key.version), 0))
  }

  ghost predicate CacheOk(w: World, ev: Evaluator, cache: Cache) {
    forall key :: key in cache && cache[key].Parsed? ==> EntryOk(w, ev, key, cache[key].brief)
  }

  ghost predicate RequestOk(w: World, ev: Evaluator, r: Request) {
    && QueryOk(w, r.q)
    && (r.HaveJobs? ==>
         && (forall f :: f in r.found ==> JobOk(w, f))
         && DistinctSlugs(r.found))
    && (r.HaveAnswer? ==> forall i :: 0 <= i < |r.writes| ==> EntryOk(w, ev, r.writes[i].key, r.writes[i].brief))
  }

  ghost predicate ServedOk(w: World, ev: Evaluator, a: Served) {
    && QueryOk(w, a.q)
    && UndatedAll(a.briefs) == Fresh(ev, a.q, JobMap(a.found), a.slugs)
  }

  ghost predicate Inv(s: State, ev: Evaluator) {
    && CacheOk(s.world, ev, s.cache)
    && (forall r :: r in s.requests ==> RequestOk(s.world, ev, s.requests[r]))
    && (forall i :: 0 <= i < |s.served| ==> ServedOk(s.world, ev, s.served[i]))
  }

  /** Old profile versions and the slugs of jobs never change. */
  ghost predicate Grows(a: World, b: World) {
    && (forall user :: Versions(a, user) <= Versions(b, user))
    && |a.jobs| <= |b.jobs|
    && (forall i :: 0 <= i < |a.jobs| ==> b.jobs[i].slug == a.jobs[i].slug)
  }

  lemma StepWorldGrows(w: World, e: Event)
    ensures Grows(w, StepWorld(w, e))
  {
  }

  lemma GrowthKeepsEntry(a: World, b: World, ev: Evaluator, key: Key, brief: Brief)
    requires Grows(a, b) && EntryOk(a, ev, key, brief)
    ensures EntryOk(b, ev, key, brief)
  {
    assert Versions(a, key.user) <= Versions(b, key.user);
  }

  lemma GrowthKeepsInv(s: State, b: World, ev: Evaluator)
    requires Inv(s, ev) && Grows(s.world, b)
    ensures Inv(s.(world := b), ev)
  {
    forall key | key in s.cache && s.cache[key].Parsed? ensures EntryOk(b, ev, key, s.cache[key].brief) {
      GrowthKeepsEntry(s.world, b, ev, key, s.cache[key].brief);
    }
    forall r | r in s.requests ensures RequestOk(b, ev, s.requests[r]) {
      var p := s.requests[r];
      assert RequestOk(s.world, ev, p) && Versions(s.world, p.q.user) <= Versions(b, p.q.user);
      if p.HaveAnswer? {
        forall i | 0 <= i < |p.writes| ensures EntryOk(b, ev, p.writes[i].key, p.writes[i].brief) {
          GrowthKeepsEntry(s.world, b, ev, p.writes[i].key, p.writes[i].brief);
        }
      }
    }
    forall i | 0 <= i < |s.served| ensures ServedOk(b, ev, s.served[i]) {
      assert ServedOk(s.world, ev, s.served[i]);
      assert Versions(s.world, s.served[i].q.user) <= Versions(b, s.served[i].q.user);
    }
  }

  /** The time of calculation is the only thing that the clock decides. */
  ghost predicate ClockOnlyStamps(ev: Evaluator) {
    forall q, job, now :: Undated(ev(q, job, now)) == Undated(ev(q, job, 0))
  }

  lemma EvaluatorOnlyStamps(text: Text)
    ensures ClockOnlyStamps(EvaluatorOf(text))
  {
  }

  lemma ComputedIsOk(w: World, ev: Evaluator, q: Query, job: JobFacts, now: int)
    requires ClockOnlyStamps(ev)
    requires QueryOk(w, q) && JobOk(w, job)
    ensures EntryOk(w, ev, CacheKey(q, job), ev(q, job, now))
  {
    assert JobOf(job.id, job.slug, ComputeJobMatchVersion(job)) == job;
  }

  /** A hit answers what evaluation would have. */
  lemma AnswerIsFresh(w: World, ev: Evaluator, cache: Cache, up: bool, q: Query, job: JobFacts, now: int)
    requires ClockOnlyStamps(ev)
    requires CacheOk(w, ev, cache) && QueryOk(w, q) && JobOk(w, job)
    ensures Undated(Answer(ev, cache, up, q, job, now)) == Undated(ev(q, job, 0))
  {
    if IsHit(cache, up, q, job) {
      assert EntryOk(w, ev, CacheKey(q, job), cache[CacheKey(q, job)].brief);
      assert JobOf(job.id, job.slug, ComputeJobMatchVersion(job)) == job;
    }
  }

  lemma {:induction false} JobMapHolds(found: seq<JobFacts>)
    ensures forall slug :: slug in JobMap(found) ==> JobMap(found)[slug] in found && JobMap(found)[slug].slug == slug
    ensures forall i :: 0 <= i < |found| ==> found[i].slug in JobMap(found)
    decreases |found|
  {
    if found != [] {
      JobMapHolds(found[..|found| - 1]);
      assert found == found[..|found| - 1] + [found[|found| - 1]];
    }
  }

  lemma {:induction false} PickIsFresh(ev: Evaluator, q: Query, jobs: map<string, JobFacts>, summaries: map<string, Brief>, slugs: seq<string>)
    requires summaries.Keys == jobs.Keys
    requires forall slug :: slug in jobs ==> Undated(summaries[slug]) == Undated(ev(q, jobs[slug], 0))
    ensures UndatedAll(Pick(summaries, slugs)) == Fresh(ev, q, jobs, slugs)
    decreases |slugs|
  {
    if slugs != [] {
      PickIsFresh(ev, q, jobs, summaries, slugs[1..]);
      var rest := Pick(summaries, slugs[1..]);
      if slugs[0] in jobs {
        assert UndatedAll([summaries[slugs[0]]] + rest) == [Undated(summaries[slugs[0]])] + UndatedAll(rest);
      } else {
        assert [] + rest == rest;
      }
    }
  }

  lemma AnswersAreFresh(w: World, ev: Evaluator, cache: Cache, up: bool, q: Query, found: seq<JobFacts>, slugs: seq<string>, now: int)
    requires ClockOnlyStamps(ev)
    requires CacheOk(w, ev, cache) && QueryOk(w, q) && forall f :: f in found ==> JobOk(w, f)
    ensures UndatedAll(Pick(Summaries(ev, cache, up, q, found, now), slugs)) == Fresh(ev, q, JobMap(found), slugs)
  {
    var jobs := JobMap(found);
    JobMapHolds(found);
    forall slug | slug in jobs
      ensures Undated(Summaries(ev, cache, up, q, found, now)[slug]) == Undated(ev(q, jobs[slug], 0))
    {
      AnswerIsFresh(w, ev, cache, up, q, jobs[slug], now);
    }
    PickIsFresh(ev, q, jobs, Summaries(ev, cache, up, q, found, now), slugs);
  }

  lemma WritesAreOk(w: World, ev: Evaluator, q: Query, misses: seq<JobFacts>, now: int)
    requires ClockOnlyStamps(ev)
    requires QueryOk(w, q) && forall f :: f in misses ==> JobOk(w, f)
    ensures var writes := Writes(ev, q, misses, now);
      forall i :: 0 <= i < |writes| ==> EntryOk(w, ev, writes[i].key, writes[i].brief)
  {
    forall i | 0 <= i < |misses| ensures EntryOk(w, ev, CacheKey(q, misses[i]), ev(q, misses[i], now)) {
      ComputedIsOk(w, ev, q, misses[i], now);
    }
  }

  lemma {:induction false} StoreKeepsCache(w: World, ev: Evaluator, cache: Cache, writes: seq<CacheWrite>, failed: set<int>)
    requires CacheOk(w, ev, cache)
    requires forall i :: 0 <= i < |writes| ==> EntryOk(w, ev, writes[i].key, writes[i].brief)
    ensures CacheOk(w, ev, Store(cache, writes, failed))
    decreases |writes|
  {
    if writes != [] { StoreKeepsCache(w, ev, cache, writes[..|writes| - 1], failed); }
  }

  lemma ReadKeepsInv(s: State, ev: Evaluator, r: nat, up: bool, now: int)
    requires ClockOnlyStamps(ev) && Inv(s, ev)
    ensures Inv(Step(s, ev, ReadCache(r, up, now)), ev) && Step(s, ev, ReadCache(r, up, now)).world == s.world
  {
    if r in s.requests && s.requests[r].HaveJobs? {
      var p := s.requests[r];
      assert RequestOk(s.world, ev, p);
      AnswersAreFresh(s.world, ev, s.cache, up, p.q, p.found, p.slugs, now);
      WritesAreOk(s.world, ev, p.q, Misses(s.cache, up, p.q, p.found), now);
    }
  }

  lemma StepKeepsInv(s: State, ev: Evaluator, e: Event)
    requires ClockOnlyStamps(ev)
    requires Inv(s, ev)
    ensures Inv(Step(s, ev, e), ev) && Grows(s.world, Step(s, ev, e).world)
  {
    match e
    case Begin(_, _, _, _) =>
    case Load(r, found) =>
    case ReadCache(r, up, now) => ReadKeepsInv(s, ev, r, up, now);
    case WriteCache(r, failed) =>
      if r in s.requests && s.requests[r].HaveAnswer? {
        assert RequestOk(s.world, ev, s.requests[r]);
        StoreKeepsCache(s.world, ev, s.cache, s.requests[r].writes, failed);
      }
    case Evict(_) =>
    case Damage(_) =>
    case _ =>
      StepWorldGrows(s.world, e);
      GrowthKeepsInv(s, StepWorld(s.world, e), ev);
  }

  lemma {:induction false} RunKeepsInv(s: State, ev: Evaluator, es: seq<Event>)
    requires ClockOnlyStamps(ev)
    requires Inv(s, ev)
    ensures Inv(Run(s, ev, es), ev)
    decreases |es|
  {
    if es != [] {
      StepKeepsInv(s, ev, es[0]);
      RunKeepsInv(Step(s, ev, es[0]), ev, es[1..]);
    }
  }

  // ---- what an answer goes back to ----------------------------------------------

  ghost function WorldAt(ev: Evaluator, es: seq<Event>, k: nat): World
    requires k <= |es|
  {
    Run(INITIAL, ev, es[..k]).world
  }

  /** After the first k events of the run, q named the user's current profile version. */
  ghost predicate AskedAt(ev: Evaluator, es: seq<Event>, k: nat, q: Query) {
    && k <= |es|
    && var versions := Versions(WorldAt(ev, es, k), q.user);
    && q.revision == |versions| - 1 && q.facts == versions[|versions| - 1]
  }

  /** From then, and before its end, the jobs found were all listed jobs of the slugs. */
  ghost predicate FoundAt(ev: Evaluator, es: seq<Event>, k: nat, l: nat, q: Query, slugs: seq<string>, found: seq<JobFacts>) {
    AskedAt(ev, es, k, q) && k <= l <= |es| && IsListing(WorldAt(ev, es, l).jobs, slugs, found)
  }

  ghost predicate RequestIsTraced(ev: Evaluator, es: seq<Event>, r: Request) {
    match r
    case HaveCandidate(q, _) => exists k :: AskedAt(ev, es, k, q)
    case HaveJobs(q, slugs, found) => exists k, l :: FoundAt(ev, es, k, l, q, slugs, found)
    case HaveAnswer(_, _) => true
  }

  ghost predicate AnswerIsTraced(ev: Evaluator, es: seq<Event>, a: Served) {
    exists k, l :: FoundAt(ev, es, k, l, a.q, a.slugs, a.found)
  }

  ghost predicate Traced(ev: Evaluator, es: seq<Event>, s: State) {
    && (forall r :: r in s.requests ==> RequestIsTraced(ev, es, s.requests[r]))
    && forall i :: 0 <= i < |s.served| ==> AnswerIsTraced(ev, es, s.served[i])
  }

  lemma {:induction false} RunSnoc(s: State, ev: Evaluator, es: seq<Event>, e: Event)
    ensures Run(s, ev, es + [e]) == Step(Run(s, ev, es), ev, e)
    decreases |es|
  {
    if es == [] {
      assert (es + [e])[1..] == [];
    } else {
      assert (es + [e])[1..] == es[1..] + [e];
      RunSnoc(Step(s, ev, es[0]), ev, es[1..], e);
    }
  }

  lemma MomentsStay(ev: Evaluator, es: seq<Event>, e: Event)
    ensures forall k: nat, q :: AskedAt(ev, es, k, q) ==> AskedAt(ev, es + [e], k, q)
    ensures forall k: nat, l: nat, q, slugs, found ::
      FoundAt(ev, es, k, l, q, slugs, found) ==> FoundAt(ev, es + [e], k, l, q, slugs, found)
  {
    forall k: nat | k <= |es| ensures WorldAt(ev, es + [e], k) == WorldAt(ev, es, k) {
      assert (es + [e])[..k] == es[..k];
    }
  }

  lemma TracesStay(ev: Evaluator, es: seq<Event>, e: Event)
    ensures forall r :: RequestIsTraced(ev, es, r) ==> RequestIsTraced(ev, es + [e], r)
    ensures forall a :: AnswerIsTraced(ev, es, a) ==> AnswerIsTraced(ev, es + [e], a)
  {
    MomentsStay(ev, es, e);
    forall r | RequestIsTraced(ev, es, r) ensures RequestIsTraced(ev, es + [e], r) {
      match r
      case HaveCandidate(q, _) =>
        var k :| AskedAt(ev, es, k, q);
        assert AskedAt(ev, es + [e], k, q);
      case HaveJobs(q, slugs, found) =>
        var k, l :| FoundAt(ev, es, k, l, q, slugs, found);
        assert FoundAt(ev, es + [e], k, l, q, slugs, found);
      case HaveAnswer(_, _) =>
    }
    forall a | AnswerIsTraced(ev, es, a) ensures AnswerIsTraced(ev, es + [e], a) {
      var k, l :| FoundAt(ev, es, k, l, a.q, a.slugs, a.found);
      assert FoundAt(ev, es + [e], k, l, a.q, a.slugs, a.found);
    }
  }

  lemma BeginIsTraced(ev: Evaluator, es: seq<Event>, kind: Kind, user: nat)
    ensures var versions := Versions(WorldAt(ev, es, |es|), user);
      AskedAt(ev, es, |es|, Query(kind, user, |versions| - 1, versions[|versions| - 1]))
  {
  }

  lemma LoadIsTraced(ev: Evaluator, es: seq<Event>, q: Query, slugs: seq<string>, found: seq<JobFacts>)
    requires RequestIsTraced(ev, es, HaveCandidate(q, slugs)) && IsListing(WorldAt(ev, es, |es|).jobs, slugs, found)
    ensures RequestIsTraced(ev, es, HaveJobs(q, slugs, found))
  {
    var k :| AskedAt(ev, es, k, q);
    assert FoundAt(ev, es, k, |es|, q, slugs, found);
  }

  lemma ReadKeepsTraced(s: State, ev: Evaluator, es: seq<Event>, r: nat, up: bool, now: int)
    requires Traced(ev, es, s)
    ensures Traced(ev, es, Step(s, ev, ReadCache(r, up, now)))
  {
    if r in s.requests && s.requests[r].HaveJobs? {
      var p, t := s.requests[r], Step(s, ev, ReadCache(r, up, now));
      assert RequestIsTraced(ev, es, p);
      forall i | 0 <= i < |t.served| ensures AnswerIsTraced(ev, es, t.served[i]) {
        if i < |s.served| { assert t.served[i] == s.served[i]; }
      }
    }
  }

  /** One step keeps what is traced: it adds nothing that does not go back to the world as
      it is or to what the request already held. */
  lemma StepKeepsTraced(s: State, ev: Evaluator, es: seq<Event>, e: Event)
    requires Traced(ev, es, s) && s.world == WorldAt(ev, es, |es|)
    ensures Traced(ev, es, Step(s, ev, e))
  {
    match e
    case Begin(r, kind, user, slugs) => BeginIsTraced(ev, es, kind, user);
    case Load(r, found) =>
      if r in s.requests && s.requests[r].HaveCandidate? && IsListing(s.world.jobs, s.requests[r].slugs, found) {
        assert RequestIsTraced(ev, es, s.requests[r]);
        LoadIsTraced(ev, es, s.requests[r].q, s.requests[r].slugs, found);
      }
    case ReadCache(r, up, now) => ReadKeepsTraced(s, ev, es, r, up, now);
    case _ =>
  }

  lemma {:induction false} RunIsTraced(ev: Evaluator, es: seq<Event>)
    ensures Traced(ev, es, Run(INITIAL, ev, es))
    decreases |es|
  {
    if es != [] {
      var front, e := es[..|es| - 1], es[|es| - 1];
      assert es == front + [e];
      RunIsTraced(ev, front);
      RunSnoc(INITIAL, ev, front, e);
      assert front[..|front|] == front;
      StepKeepsTraced(Run(INITIAL, ev, front), ev, front, e);
      TracesStay(ev, front, e);
    }
  }

  /** Cache coherence.  In every run, every request is answered with the fresh evaluations
      of the listed jobs of its slugs, as they all were at one moment of the run, against
      the profile version that was current at an earlier moment, in request order, whatever
      was cached, evicted, damaged or unreachable, and whatever changed meanwhile. */
  lemma EveryAnswerIsFresh(text: Text, es: seq<Event>, i: nat)
    requires i < |Run(INITIAL, EvaluatorOf(text), es).served|
    ensures var ev := EvaluatorOf(text);
      var s := Run(INITIAL, ev, es);
      var a := s.served[i];
      && UndatedAll(a.briefs) == Fresh(ev, a.q, JobMap(a.found), a.slugs)
      && AnswersInOrder(ev, a.q, a.found, a.slugs, a.briefs)
      && (exists k, l :: FoundAt(ev, es, k, l, a.q, a.slugs, a.found))
      && a.q.revision < |Versions(s.world, a.q.user)| && a.q.facts == Versions(s.world, a.q.user)[a.q.revision]
  {
    EvaluatorOnlyStamps(text);
    RunKeepsInv(INITIAL, EvaluatorOf(text), es);
    RunIsTraced(EvaluatorOf(text), es);
    var a := Run(INITIAL, EvaluatorOf(text), es).served[i];
    assert AnswerIsTraced(EvaluatorOf(text), es, a) && ServedOk(Run(INITIAL, EvaluatorOf(text), es).world, EvaluatorOf(text), a);
    FreshAnswersInOrder(EvaluatorOf(text), a.q, a.found, a.slugs, a.briefs);
  }

  // ---- answers in order --------------------------------------------------------

  predicate IsFound(found: seq<JobFacts>, slug: string) {
    exists i :: 0 <= i < |found| && found[i].slug == slug
  }

  function KnownSlugs(found: seq<JobFacts>, slugs: seq<string>): seq<string> {
    Filter(slugs, (slug: string) => IsFound(found, slug))
  }

  ghost predicate IsAnswerFor(ev: Evaluator, q: Query, found: seq<JobFacts>, slug: string, brief: Brief) {
    exists i :: 0 <= i < |found| && found[i].slug == slug && Undated(brief) == Undated(ev(q, found[i], 0))
  }

  /** The briefs are those of the found slugs among the requested ones, in the order of the
      request, each that of a found job with its slug. */
  ghost predicate AnswersInOrder(ev: Evaluator, q: Query, found: seq<JobFacts>, slugs: seq<string>, briefs: seq<Brief>) {
    var known := KnownSlugs(found, slugs);
    |briefs| == |known| && forall x :: 0 <= x < |briefs| ==> IsAnswerFor(ev, q, found, known[x], briefs[x])
  }

  lemma {:induction false} FreshIsInOrder(ev: Evaluator, q: Query, jobs: map<string, JobFacts>, slugs: seq<string>)
    ensures var known, out := Filter(slugs, (slug: string) => slug in jobs), Fresh(ev, q, jobs, slugs);
      |out| == |known| && forall x :: 0 <= x < |out| ==> known[x] in jobs && out[x] == Undated(ev(q, jobs[known[x]], 0))
    decreases |slugs|
  {
    if slugs != [] { FreshIsInOrder(ev, q, jobs, slugs[1..]); }
  }

  lemma FreshAnswersInOrder(ev: Evaluator, q: Query, found: seq<JobFacts>, slugs: seq<string>, briefs: seq<Brief>)
    requires UndatedAll(briefs) == Fresh(ev, q, JobMap(found), slugs)
    ensures AnswersInOrder(ev, q, found, slugs, briefs)
  {
    var jobs := JobMap(found);
    var inMap, isFound := (slug: string) => slug in jobs, (slug: string) => IsFound(found, slug);
    JobMapHolds(found);
    forall slug ensures inMap(slug) == isFound(slug) {
      if slug in jobs { var i :| 0 <= i < |found| && found[i] == jobs[slug]; }
    }
    FilterCongruence(slugs, inMap, isFound);
    FreshIsInOrder(ev, q, jobs, slugs);
    var known := KnownSlugs(found, slugs);
    assert known == Filter(slugs, inMap);
    forall x | 0 <= x < |briefs| ensures IsAnswerFor(ev, q, found, known[x], briefs[x]) {
      assert UndatedAll(briefs)[x] == Undated(ev(q, jobs[known[x]], 0));
      var i :| 0 <= i < |found| && found[i] == jobs[known[x]];
      assert found[i].slug == known[x];
    }
  }

  lemma {:induction false} PickIsInOrder(summaries: map<string, Brief>, slugs: seq<string>)
    ensures var known, out := Filter(slugs, (slug: string) => slug in summaries), Pick(summaries, slugs);
      |out| == |known| && forall x :: 0 <= x < |out| ==> known[x] in summaries && out[x] == summaries[known[x]]
    decreases |slugs|
  {
    if slugs != [] { PickIsInOrder(summaries, slugs[1..]); }
  }

  /** Evaluating in slices and joining the answers is evaluating the whole list. */
  lemma {:induction false} FreshDistributes(ev: Evaluator, q: Query, jobs: map<string, JobFacts>, a: seq<string>, b: seq<string>)
    ensures Fresh(ev, q, jobs, a + b) == Fresh(ev, q, jobs, a) + Fresh(ev, q, jobs, b)
    decreases |a|
  {
    if a == [] {
      assert a + b == b;
    } else {
      assert (a + b)[1..] == a[1..] + b;
      FreshDistributes(ev, q, jobs, a[1..], b);
    }
  }

  // ---- the service -------------------------------------------------------------

  /** The map holds the cached briefs of exactly the hits. */
  ghost predicate HoldsHits(summaries: map<string, Brief>, cache: Cache, up: bool, q: Query, found: seq<JobFacts>) {
    && (forall slug :: slug in summaries ==> exists i :: 0 <= i < |found| && found[i].slug == slug && IsHit(cache, up, q, found[i]))
    && (forall i :: 0 <= i < |found| && IsHit(cache, up, q, found[i]) ==>
          found[i].slug in summaries && summaries[found[i].slug] == cache[CacheKey(q, found[i])].brief)
  }

  /** The map adds to the cached briefs an evaluation of every miss. */
  ghost predicate Completes(
    summaries: map<string, Brief>, cached: map<string, Brief>, ev: Evaluator, q: Query, misses: seq<JobFacts>, now: int)
  {
    && (forall slug :: slug in summaries ==> slug in cached || exists i :: 0 <= i < |misses| && misses[i].slug == slug)
    && (forall i :: 0 <= i < |misses| ==> misses[i].slug in summaries && summaries[misses[i].slug] == ev(q, misses[i], now))
    && (forall slug :: slug in cached && (forall i :: 0 <= i < |misses| ==> misses[i].slug != slug) ==>
          slug in summaries && summaries[slug] == cached[slug])
  }

  lemma HoldsHitsStep(summaries: map<string, Brief>, cache: Cache, up: bool, q: Query, front: seq<JobFacts>, job: JobFacts)
    requires HoldsHits(summaries, cache, up, q, front) && DistinctSlugs(front + [job])
    ensures HoldsHits(
      if IsHit(cache, up, q, job) then summaries[job.slug := cache[CacheKey(q, job)].brief] else summaries,
      cache, up, q, front + [job])
    ensures Misses(cache, up, q, front + [job]) == Misses(cache, up, q, front) + if IsHit(cache, up, q, job) then [] else [job]
  {
    var all := front + [job];
    assert all[|front|] == job && all[..|front|] == front;
    forall i | 0 <= i < |front| ensures all[i] == front[i] && all[i].slug != job.slug {}
  }

  lemma CompletesStep(
    summaries: map<string, Brief>, cached: map<string, Brief>, ev: Evaluator, q: Query, front: seq<JobFacts>, job: JobFacts, now: int)
    requires Completes(summaries, cached, ev, q, front, now) && DistinctSlugs(front + [job])
    ensures Completes(summaries[job.slug := ev(q, job, now)], cached, ev, q, front + [job], now)
    ensures Writes(ev, q, front + [job], now) == Writes(ev, q, front, now) + [CacheWrite(CacheKey(q, job), ev(q, job, now))]
  {
    var all := front + [job];
    assert all[|front|] == job;
    forall i | 0 <= i < |front| ensures all[i] == front[i] && all[i].slug != job.slug {}
  }

  /** The brief is the stored one if it can be read, and evaluated now otherwise. */
  ghost predicate StoredOrEvaluated(
    ev: Evaluator, cache: Cache, up: bool, q: Query, found: seq<JobFacts>, slug: string, brief: Brief, now: int)
  {
    exists i :: 0 <= i < |found| && found[i].slug == slug &&
      brief == if up && CacheKey(q, found[i]) in cache && cache[CacheKey(q, found[i])].Parsed?
               then cache[CacheKey(q, found[i])].brief else ev(q, found[i], now)
  }

  /** The answer to a batch, brief by brief in the order of the request. */
  ghost predicate AnswersBatch(
    ev: Evaluator, cache: Cache, up: bool, q: Query, found: seq<JobFacts>, slugs: seq<string>, briefs: seq<Brief>, now: int)
  {
    var known := KnownSlugs(found, slugs);
    |briefs| == |known| && forall x :: 0 <= x < |briefs| ==> StoredOrEvaluated(ev, cache, up, q, found, known[x], briefs[x], now)
  }

  predicate IsMissed(cache: Cache, up: bool, q: Query, job: JobFacts) {
    !up || CacheKey(q, job) !in cache || !cache[CacheKey(q, job)].Parsed?
  }

  /** Job i is missed and its evaluation is stored under the key. */
  ghost predicate StoresMiss(
    ev: Evaluator, before: Cache, after: Cache, up: bool, q: Query, found: seq<JobFacts>, now: int, key: Key, i: nat)
  {
    && i < |found| && IsMissed(before, up, q, found[i]) && CacheKey(q, found[i]) == key
    && key in after && after[key] == Parsed(ev(q, found[i], now))
  }

  ghost predicate HoldsAMiss(
    ev: Evaluator, before: Cache, after: Cache, up: bool, q: Query, found: seq<JobFacts>, now: int, key: Key)
  {
    exists i: nat :: StoresMiss(ev, before, after, up, q, found, now, key, i)
  }

  /** The cache after a batch holds an evaluation under the key of every job that was missed;
      no other entry has changed. */
  ghost predicate StoresMisses(ev: Evaluator, before: Cache, after: Cache, up: bool, q: Query, found: seq<JobFacts>, now: int) {
    && (forall i :: 0 <= i < |found| && IsMissed(before, up, q, found[i]) ==>
         HoldsAMiss(ev, before, after, up, q, found, now, CacheKey(q, found[i])))
    && (forall key ::
         || HoldsAMiss(ev, before, after, up, q, found, now, key)
         || ((key in after <==> key in before) && (key in after ==> after[key] == before[key])))
  }

  ghost predicate IsWritten(writes: seq<CacheWrite>, out: Cache, key: Key) {
    exists i :: 0 <= i < |writes| && writes[i].key == key && key in out && out[key] == Parsed(writes[i].brief)
  }

  ghost predicate IsUntouched(writes: seq<CacheWrite>, before: Cache, out: Cache, key: Key) {
    && (forall i :: 0 <= i < |writes| ==> writes[i].key != key)
    && (key in out <==> key in before) && (key in out ==> out[key] == before[key])
  }

  lemma {:induction false} StoredWrites(cache: Cache, writes: seq<CacheWrite>, key: Key)
    ensures IsWritten(writes, Store(cache, writes, {}), key) || IsUntouched(writes, cache, Store(cache, writes, {}), key)
    decreases |writes|
  {
    if writes != [] {
      var n := |writes| - 1;
      var before := Store(cache, writes[..n], {});
      StoredWrites(cache, writes[..n], key);
      if writes[n].key != key {
        if IsWritten(writes[..n], before, key) {
          var i :| 0 <= i < n && writes[..n][i].key == key && key in before && before[key] == Parsed(writes[..n][i].brief);
          assert writes[i] == writes[..n][i];
        } else {
          forall i | 0 <= i < |writes| ensures writes[i].key != key { if i < n { assert writes[..n][i] == writes[i]; } }
        }
      }
    }
  }

  lemma WritesStoreKey(ev: Evaluator, cache: Cache, up: bool, q: Query, found: seq<JobFacts>, now: int, key: Key)
    ensures var writes := Writes(ev, q, Misses(cache, up, q, found), now);
      var out := Store(cache, writes, {});
      HoldsAMiss(ev, cache, out, up, q, found, now, key) || IsUntouched(writes, cache, out, key)
  {
    var misses := Misses(cache, up, q, found);
    var writes := Writes(ev, q, misses, now);
    var out := Store(cache, writes, {});
    StoredWrites(cache, writes, key);
    if IsWritten(writes, out, key) {
      var i :| 0 <= i < |writes| && writes[i].key == key && key in out && out[key] == Parsed(writes[i].brief);
      assert misses[i] in misses;
      var j :| 0 <= j < |found| && found[j] == misses[i];
      assert StoresMiss(ev, cache, out, up, q, found, now, key, j);
    }
  }

  lemma MissIsStored(ev: Evaluator, cache: Cache, up: bool, q: Query, found: seq<JobFacts>, now: int, i: nat)
    requires i < |found| && IsMissed(cache, up, q, found[i])
    ensures HoldsAMiss(
      ev, cache, Store(cache, Writes(ev, q, Misses(cache, up, q, found), now), {}), up, q, found, now, CacheKey(q, found[i]))
  {
    var misses := Misses(cache, up, q, found);
    assert found[i] in misses;
    var k :| 0 <= k < |misses| && misses[k] == found[i];
    assert Writes(ev, q, misses, now)[k].key == CacheKey(q, found[i]);
    WritesStoreKey(ev, cache, up, q, found, now, CacheKey(q, found[i]));
  }

  lemma WritesStoreMisses(ev: Evaluator, cache: Cache, up: bool, q: Query, found: seq<JobFacts>, now: int)
    ensures StoresMisses(ev, cache, Store(cache, Writes(ev, q, Misses(cache, up, q, found), now), {}), up, q, found, now)
  {
    var writes := Writes(ev, q, Misses(cache, up, q, found), now);
    var out := Store(cache, writes, {});
    forall key
      ensures HoldsAMiss(ev, cache, out, up, q, found, now, key)
        || ((key in out <==> key in cache) && (key in out ==> out[key] == cache[key]))
    {
      WritesStoreKey(ev, cache, up, q, found, now, key);
    }
    forall i | 0 <= i < |found| && IsMissed(cache, up, q, found[i])
      ensures HoldsAMiss(ev, cache, out, up, q, found, now, CacheKey(q, found[i]))
    {
      MissIsStored(ev, cache, up, q, found, now, i);
    }
  }

  lemma PickedSummariesAnswer(
    ev: Evaluator, cache: Cache, up: bool, q: Query, found: seq<JobFacts>, slugs: seq<string>, now: int)
    ensures AnswersBatch(ev, cache, up, q, found, slugs, Pick(Summaries(ev, cache, up, q, found, now), slugs), now)
  {
    var jobs, summaries := JobMap(found), Summaries(ev, cache, up, q, found, now);
    var inMap, isFound := (slug: string) => slug in summaries, (slug: string) => IsFound(found, slug);
    JobMapHolds(found);
    forall slug ensures inMap(slug) == isFound(slug) {
      if slug in jobs { var i :| 0 <= i < |found| && found[i] == jobs[slug]; }
    }
    FilterCongruence(slugs, inMap, isFound);
    PickIsInOrder(summaries, slugs);
    var known, briefs := KnownSlugs(found, slugs), Pick(summaries, slugs);
    assert known == Filter(slugs, inMap);
    forall x | 0 <= x < |briefs| ensures StoredOrEvaluated(ev, cache, up, q, found, known[x], briefs[x], now) {
      assert briefs[x] == Answer(ev, cache, up, q, jobs[known[x]], now);
      var i :| 0 <= i < |found| && found[i] == jobs[known[x]];
      assert found[i].slug == known[x];
    }
  }

  lemma {:induction false} DuplicatesAreRepeats(slugs: seq<string>)
    ensures |set s | s in slugs| <= |slugs|
    ensures HasDuplicates(slugs) <==> exists i, j :: 0 <= i < j < |slugs| && slugs[i] == slugs[j]
    decreases |slugs|
  {
    if slugs != [] {
      var front, last := slugs[..|slugs| - 1], slugs[|slugs| - 1];
      DuplicatesAreRepeats(front);
      assert slugs == front + [last];
      assert (set s | s in slugs) == (set s | s in front) + {last};
      if last in front {
        var i :| 0 <= i < |front| && front[i] == last;
        assert slugs[i] == slugs[|front|];
        assert (set s | s in slugs) == (set s | s in front);
      } else {
        assert |set s | s in slugs| == |set s | s in front| + 1;
        if i, j :| 0 <= i < j < |front| && front[i] == front[j] { assert slugs[i] == slugs[j]; }
      }
    }
  }

  class MatchBriefsService {
    var cache: Cache
    const evaluator: Evaluator

    constructor (evaluator: Evaluator)
      ensures cache == map[] && this.evaluator == evaluator
    {
      cache, this.evaluator := map[], evaluator;
    }

    method ReadSummaryCache(q: Query, found: seq<JobFacts>, up: bool)
      returns (summaries: map<string, Brief>, misses: seq<JobFacts>)
      requires DistinctSlugs(found)
      ensures misses == Misses(cache, up, q, found)
      ensures HoldsHits(summaries, cache, up, q, found)
    {
      summaries, misses := map[], [];
      if !up {
        AllMiss(cache, q, found);
        return map[], found;
      }
      for k := 0 to |found|
        invariant misses == Misses(cache, up, q, found[..k]) && HoldsHits(summaries, cache, up, q, found[..k])
      {
        var job := found[k];
        assert found[..k + 1] == found[..k] + [job];
        HoldsHitsStep(summaries, cache, up, q, found[..k], job);
        var key := CacheKey(q, job);
        if key in cache && cache[key].Parsed? {
          summaries := summaries[job.slug := cache[key].brief];
        } else {
          misses := misses + [job];
        }
      }
      assert found[..|found|] == found;
    }

    /** The loop over the misses: evaluates each, completes the summaries and collects
        what to write. */
    method EvaluateMisses(q: Query, misses: seq<JobFacts>, cached: map<string, Brief>, now: int)
      returns (summaries: map<string, Brief>, writes: seq<CacheWrite>)
      requires DistinctSlugs(misses)
      ensures writes == Writes(evaluator, q, misses, now)
      ensures Completes(summaries, cached, evaluator, q, misses, now)
    {
      summaries, writes := cached, [];
      for k := 0 to |misses|
        invariant writes == Writes(evaluator, q, misses[..k], now)
        invariant Completes(summaries, cached, evaluator, q, misses[..k], now)
      {
        var job := misses[k];
        var brief := evaluator(q, job, now);
        assert misses[..k + 1] == misses[..k] + [job];
        CompletesStep(summaries, cached, evaluator, q, misses[..k], job, now);
        summaries := summaries[job.slug := brief];
        writes := writes + [CacheWrite(CacheKey(q, job), brief)];
      }
      assert misses[..|misses|] == misses;
    }

    method Respond(summaries: map<string, Brief>, slugs: seq<string>) returns (picked: seq<Brief>)
      ensures picked == Pick(summaries, slugs)
      ensures var known := Filter(slugs, (slug: string) => slug in summaries);
        |picked| == |known| && forall x :: 0 <= x < |picked| ==> known[x] in summaries && picked[x] == summaries[known[x]]
    {
      PickIsInOrder(summaries, slugs);
      picked := [];
      for k := 0 to |slugs|
        invariant picked + Pick(summaries, slugs[k..]) == Pick(summaries, slugs)
      {
        if slugs[k] in summaries { picked := picked + [summaries[slugs[k]]]; }
      }
    }

    method WriteCache(writes: seq<CacheWrite>, up: bool)
      modifies this`cache
      ensures cache == if up then Store(old(cache), writes, {}) else old(cache)
    {
      if !up { return; }
      ghost var before := cache;
      for k := 0 to |writes|
        invariant cache == Store(before, writes[..k], {})
      {
        assert writes[..k + 1][..k] == writes[..k];
        cache := cache[writes[k].key := Parsed(writes[k].brief)];
      }
      assert writes[..|writes|] == writes;
    }

    /** `evaluateBatch` once candidate and jobs are read, undisturbed; None is the refusal
        of duplicate slugs. */
    method EvaluateBatch(q: Query, found: seq<JobFacts>, slugs: seq<string>, readUp: bool, writeUp: bool, now: int)
      returns (briefs: Option<seq<Brief>>)
      requires DistinctSlugs(found)
      modifies this`cache
      ensures briefs == if HasDuplicates(slugs) then None else Some(Pick(Summaries(evaluator, old(cache), readUp, q, found, now), slugs))
      ensures cache == if HasDuplicates(slugs) || !writeUp then old(cache)
        else Store(old(cache), Writes(evaluator, q, Misses(old(cache), readUp, q, found), now), {})
      ensures briefs.None? <==> exists i, j :: 0 <= i < j < |slugs| && slugs[i] == slugs[j]
      ensures briefs.Some? ==> AnswersBatch(evaluator, old(cache), readUp, q, found, slugs, briefs.value, now)
      ensures if briefs.None? || !writeUp then cache == old(cache) else StoresMisses(evaluator, old(cache), cache, readUp, q, found, now)
    {
      WritesStoreMisses(evaluator, cache, readUp, q, found, now);
      DuplicatesAreRepeats(slugs);
      PickedSummariesAnswer(evaluator, cache, readUp, q, found, slugs, now);
      if HasDuplicates(slugs) { return None; }
      var cached, misses := ReadSummaryCache(q, found, readUp);
      MissesAreDistinct(cache, readUp, q, found);
      var summaries, writes := EvaluateMisses(q, misses, cached, now);
      SummariesComplete(evaluator, cache, readUp, q, found, cached, misses, summaries, now);
      WriteCache(writes, writeUp);
      var picked := Respond(summaries, slugs);
      briefs := Some(picked);
    }
  }

  lemma {:induction false} MissesAreDistinct(cache: Cache, up: bool, q: Query, found: seq<JobFacts>)
    requires DistinctSlugs(found)
    ensures DistinctSlugs(Misses(cache, up, q, found))
    decreases |found|
  {
    if found != [] {
      var front := found[..|found| - 1];
      MissesAreDistinct(cache, up, q, front);
      var misses := Misses(cache, up, q, front);
      forall i | 0 <= i < |misses| ensures misses[i].slug != found[|found| - 1].slug {
        assert misses[i] in front;
        var j :| 0 <= j < |front| && front[j] == misses[i];
      }
    }
  }

  lemma {:induction false} AllMiss(cache: Cache, q: Query, found: seq<JobFacts>)
    ensures Misses(cache, false, q, found) == found
    decreases |found|
  {
    if found != [] {
      AllMiss(cache, q, found[..|found| - 1]);
      assert found == found[..|found| - 1] + [found[|found| - 1]];
    }
  }

  lemma SummaryOfJob(
    ev: Evaluator, cache: Cache, up: bool, q: Query, found: seq<JobFacts>, cached: map<string, Brief>, misses: seq<JobFacts>,
    summaries: map<string, Brief>, now: int, i: nat)
    requires DistinctSlugs(found) && misses == Misses(cache, up, q, found)
    requires HoldsHits(cached, cache, up, q, found) && Completes(summaries, cached, ev, q, misses, now)
    requires i < |found|
    ensures found[i].slug in summaries && summaries[found[i].slug] == Answer(ev, cache, up, q, found[i], now)
  {
    var slug := found[i].slug;
    if IsHit(cache, up, q, found[i]) {
      forall k | 0 <= k < |misses| ensures misses[k].slug != slug {
        assert misses[k] in misses;
        var j :| 0 <= j < |found| && found[j] == misses[k];
      }
    } else {
      assert found[i] in misses;
      var k :| 0 <= k < |misses| && misses[k] == found[i];
      assert misses[k].slug == slug;
    }
  }

  lemma SummaryHasJob(
    ev: Evaluator, cache: Cache, up: bool, q: Query, found: seq<JobFacts>, cached: map<string, Brief>, misses: seq<JobFacts>,
    summaries: map<string, Brief>, now: int, slug: string)
    requires misses == Misses(cache, up, q, found)
    requires HoldsHits(cached, cache, up, q, found) && Completes(summaries, cached, ev, q, misses, now)
    requires slug in summaries
    ensures exists i :: 0 <= i < |found| && found[i].slug == slug
  {
    if slug !in cached {
      var i :| 0 <= i < |misses| && misses[i].slug == slug;
      assert misses[i] in misses;
      var k :| 0 <= k < |found| && found[k] == misses[i];
    }
  }

  lemma SummaryOfSlug(
    ev: Evaluator, cache: Cache, up: bool, q: Query, found: seq<JobFacts>, cached: map<string, Brief>, misses: seq<JobFacts>,
    summaries: map<string, Brief>, now: int, slug: string)
    requires DistinctSlugs(found) && misses == Misses(cache, up, q, found)
    requires HoldsHits(cached, cache, up, q, found) && Completes(summaries, cached, ev, q, misses, now)
    ensures var jobs := JobMap(found);
      && (slug in summaries <==> slug in jobs)
      && (slug in jobs ==> summaries[slug] == Answer(ev, cache, up, q, jobs[slug], now))
  {
    JobMapHolds(found);
    var jobs := JobMap(found);
    if slug in jobs {
      var k :| 0 <= k < |found| && found[k] == jobs[slug];
      SummaryOfJob(ev, cache, up, q, found, cached, misses, summaries, now, k);
    }
    if slug in summaries {
      SummaryHasJob(ev, cache, up, q, found, cached, misses, summaries, now, slug);
    }
  }

  lemma SummariesComplete(
    ev: Evaluator, cache: Cache, up: bool, q: Query, found: seq<JobFacts>, cached: map<string, Brief>, misses: seq<JobFacts>,
    summaries: map<string, Brief>, now: int)
    requires DistinctSlugs(found) && misses == Misses(cache, up, q, found)
    requires HoldsHits(cached, cache, up, q, found) && Completes(summaries, cached, ev, q, misses, now)
    ensures summaries == Summaries(ev, cache, up, q, found, now)
  {
    forall slug
      ensures slug in summaries <==> slug in JobMap(found)
      ensures slug in JobMap(found) ==> summaries[slug] == Answer(ev, cache, up, q, JobMap(found)[slug], now)
    {
      SummaryOfSlug(ev, cache, up, q, found, cached, misses, summaries, now, slug);
    }
  }
}
