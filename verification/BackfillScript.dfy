/** The script that renormalises the location restrictions of stored jobs, batch by batch. */
module BackfillScript {
  import opened Ordering
  import opened Normalizer

  /** The provider's raw payload; None where it lists no array. */
  datatype Payload = Payload(locations: Option<seq<Restriction>>, timezones: Option<seq<Timezone>>)

  /** `eligible`: the job has a record of the provider, with the given payload.  The last
      three columns are parts of one JSON column. */
  datatype Job = Job(
    id: nat, eligible: bool, payload: Option<Payload>, codes: seq<string>, labels: seq<string>, timezones: seq<string>,
    scope: Option<Scope>, unresolved: Option<seq<string>>, offsets: Option<seq<int>>, countries: seq<Country>)

  /** Rows by increasing id. */
  ghost predicate Ordered(jobs: seq<Job>) {
    forall i, j :: 0 <= i < j < |jobs| ==> jobs[i].id < jobs[j].id
  }

  predicate Selected(job: Job, after: Option<nat>) {
    job.eligible && (after.Some? ==> job.id > after.value)
  }

  // ---- one job -----------------------------------------------------------------

  function OrEmpty<T>(o: Option<seq<T>>): seq<T> {
    if o.Some? then o.value else []
  }

  function RawLocations(job: Job): seq<Restriction> {
    var given := if job.payload.Some? then OrEmpty(job.payload.value.locations) else [];
    if given == [] then AsNamed(job.labels) else given
  }

  function AsWritten(texts: seq<string>): (tzs: seq<Timezone>)
    ensures |tzs| == |texts| && forall i :: 0 <= i < |texts| ==> tzs[i] == Written(texts[i])
  {
    seq(|texts|, i requires 0 <= i < |texts| => Written(texts[i]))
  }

  function RawTimezones(job: Job): seq<Timezone> {
    var given := if job.payload.Some? then OrEmpty(job.payload.value.timezones) else [];
    if given == [] then AsWritten(job.timezones) else given
  }

  function Shown(env: Env, tzs: seq<Timezone>): (texts: seq<string>)
    ensures |texts| == |tzs|
  {
    seq(|tzs|, i requires 0 <= i < |tzs| => match tzs[i] case Hours(value) => env.show(value) case Written(text) => text)
  }

  function OffsetMinutes(env: Env, tzs: seq<Timezone>): seq<int> {
    Sort(Unique(Offsets(env, tzs)), (a: int, b: int) => a < b)
  }

  /** The job with all its derived columns written. */
  function Renormalized(env: Env, job: Job): Job {
    var parts, tzs := NormalizedLocations(env, RawLocations(job)), RawTimezones(job);
    var texts, offsets := Shown(env, tzs), OffsetMinutes(env, tzs);
    job.(codes := parts.codes, labels := parts.labels, timezones := texts, scope := Some(ScopeOf(parts, texts, offsets)),
         unresolved := Some(parts.unresolved), offsets := Some(offsets), countries := parts.countries)
  }

  /** The raw input: what the payload lists, or else the columns already stored. */
  ghost predicate IsRawInput(job: Job, locations: seq<Restriction>, tzs: seq<Timezone>) {
    && (if job.payload.Some? && job.payload.value.locations.Some? && job.payload.value.locations.value != []
        then locations == job.payload.value.locations.value
        else |locations| == |job.labels| && forall i :: 0 <= i < |locations| ==> locations[i] == Named(job.labels[i]))
    && (if job.payload.Some? && job.payload.value.timezones.Some? && job.payload.value.timezones.value != []
        then tzs == job.payload.value.timezones.value
        else |tzs| == |job.timezones| && forall i :: 0 <= i < |tzs| ==> tzs[i] == Written(job.timezones[i]))
  }

  /** The time zone columns: texts as written, offsets of those that parse, increasing. */
  ghost predicate ReadsZones(env: Env, tzs: seq<Timezone>, texts: seq<string>, offsets: seq<int>) {
    && |texts| == |tzs|
    && (forall i :: 0 <= i < |tzs| ==> texts[i] == match tzs[i] case Hours(value) => env.show(value) case Written(text) => text)
    && Increasing(offsets, (a: int, b: int) => a < b)
    && forall o :: o in offsets <==> exists tz :: tz in tzs && env.offset(tz) == Some(o)
  }

  lemma ZonesAreRead(env: Env, tzs: seq<Timezone>)
    ensures ReadsZones(env, tzs, Shown(env, tzs), OffsetMinutes(env, tzs))
  {
    var listed := Unique(Offsets(env, tzs));
    OffsetsAre(env, tzs);
    UniqueFacts(Offsets(env, tzs));
    SortSorts(listed, (a: int, b: int) => a < b);
    var offsets := OffsetMinutes(env, tzs);
    forall o ensures o in offsets <==> o in listed { assert o in Elems(offsets) <==> o in Elems(listed); }
  }

  /** The job with columns made from the raw input; nothing else about it changes. */
  ghost predicate HasColumns(env: Env, job: Job, out: Job, locations: seq<Restriction>, tzs: seq<Timezone>) {
    && out.unresolved.Some? && out.offsets.Some?
    && var parts := Parts(out.codes, out.labels, out.unresolved.value, out.countries);
       && ReadsAll(env, locations, parts) && ReadsZones(env, tzs, out.timezones, out.offsets.value)
       && out.scope == Some(ScopeOf(parts, out.timezones, out.offsets.value))
       && out.id == job.id && out.eligible == job.eligible && out.payload == job.payload
  }

  lemma WritingColumns(
    env: Env, job: Job, locations: seq<Restriction>, tzs: seq<Timezone>, parts: Parts, texts: seq<string>, offsets: seq<int>)
    requires ReadsAll(env, locations, parts) && ReadsZones(env, tzs, texts, offsets)
    ensures HasColumns(
      env, job,
      job.(codes := parts.codes, labels := parts.labels, timezones := texts, scope := Some(ScopeOf(parts, texts, offsets)),
           unresolved := Some(parts.unresolved), offsets := Some(offsets), countries := parts.countries),
      locations, tzs)
  {
    assert Parts(parts.codes, parts.labels, parts.unresolved, parts.countries) == parts;
  }

  lemma RawInputIs(job: Job)
    ensures IsRawInput(job, RawLocations(job), RawTimezones(job))
  {
  }

  /** Each derived column of the renormalised job is read off the raw input; the others stay. */
  lemma RenormalizedColumns(env: Env, job: Job)
    ensures exists locations, tzs :: IsRawInput(job, locations, tzs) && HasColumns(env, job, Renormalized(env, job), locations, tzs)
  {
    var locations, tzs := RawLocations(job), RawTimezones(job);
    RawInputIs(job);
    NormalizedReadsAll(env, locations);
    ZonesAreRead(env, tzs);
    WritingColumns(env, job, locations, tzs, NormalizedLocations(env, locations), Shown(env, tzs), OffsetMinutes(env, tzs));
  }

  /** The comparison leaves the list of countries out. */
  predicate SameColumns(job: Job, out: Job) {
    && job.codes == out.codes && job.labels == out.labels && job.timezones == out.timezones && job.scope == out.scope
    && OrEmpty(job.unresolved) == OrEmpty(out.unresolved) && OrEmpty(job.offsets) == OrEmpty(out.offsets)
  }

  function Rewritten(env: Env, job: Job): Job {
    var out := Renormalized(env, job);
    if SameColumns(job, out) then job else out
  }

  // ---- the whole table ---------------------------------------------------------

  datatype Metrics = Metrics(
    processed: nat, updated: nat, unmodified: nat, worldwide: nat, countryLimited: nat, timezoneLimited: nat,
    countryAndTimezoneLimited: nat, unresolvedCount: nat, unresolvedLabels: set<string>, lastJobId: Option<nat>)

  const ZERO := Metrics(0, 0, 0, 0, 0, 0, 0, 0, {}, None)

  function Measure(env: Env, m: Metrics, job: Job): Metrics {
    var out := Renormalized(env, job);
    var labels := OrEmpty(out.unresolved);
    m.(processed := m.processed + 1, lastJobId := Some(job.id),
       updated := m.updated + if SameColumns(job, out) then 0 else 1,
       unmodified := m.unmodified + if SameColumns(job, out) then 1 else 0,
       worldwide := m.worldwide + if out.scope == Some(Worldwide) then 1 else 0,
       countryLimited := m.countryLimited + if out.scope == Some(CountryLimited) then 1 else 0,
       timezoneLimited := m.timezoneLimited + if out.scope == Some(TimezoneLimited) then 1 else 0,
       countryAndTimezoneLimited := m.countryAndTimezoneLimited + if out.scope == Some(CountryAndTimezoneLimited) then 1 else 0,
       unresolvedCount := m.unresolvedCount + |labels|,
       unresolvedLabels := m.unresolvedLabels + Elems(labels))
  }

  type Measurer = (Metrics, Job) -> Metrics

  type Rewriter = Job -> Job

  function MeasurerOf(env: Env): Measurer {
    (m: Metrics, job: Job) => Measure(env, m, job)
  }

  function RewriterOf(env: Env): Rewriter {
    (job: Job) => Rewritten(env, job)
  }

  /** Metrics over the first n rows. */
  function Measured(measure: Measurer, jobs: seq<Job>, after: Option<nat>, n: nat): Metrics
    requires n <= |jobs|
  {
    if n == 0 then ZERO
    else
      var before := Measured(measure, jobs, after, n - 1);
      if Selected(jobs[n - 1], after) then measure(before, jobs[n - 1]) else before
  }

  /** The table with the first n rows done. */
  function Done(rewrite: Rewriter, jobs: seq<Job>, after: Option<nat>, n: nat): (out: seq<Job>)
    ensures |out| == |jobs|
    ensures forall i :: 0 <= i < |jobs| ==> out[i] == if i < n && Selected(jobs[i], after) then rewrite(jobs[i]) else jobs[i]
  {
    seq(|jobs|, i requires 0 <= i < |jobs| => if i < n && Selected(jobs[i], after) then rewrite(jobs[i]) else jobs[i])
  }

  /** No row of [lo, hi) is selected. */
  ghost predicate NoneIn(jobs: seq<Job>, after: Option<nat>, lo: nat, hi: nat) {
    forall i :: lo <= i < hi && i < |jobs| ==> !Selected(jobs[i], after)
  }

  /** Row q is the first selected one from position p on. */
  ghost predicate IsNext(jobs: seq<Job>, after: Option<nat>, p: nat, q: nat) {
    p <= q < |jobs| && Selected(jobs[q], after) && NoneIn(jobs, after, p, q)
  }

  /** The batch lists the selected rows from position p on, leaving none out in between. */
  ghost predicate Continues(jobs: seq<Job>, after: Option<nat>, p: nat, batch: seq<nat>)
    decreases |batch|
  {
    batch == [] || (IsNext(jobs, after, p, batch[0]) && Continues(jobs, after, batch[0] + 1, batch[1..]))
  }

  /** Where a batch begun at p ends. */
  function EndOf(batch: seq<nat>, p: nat): nat {
    if batch == [] then p else batch[|batch| - 1] + 1
  }

  /** findMany .. WHERE id > cursor ORDER BY id LIMIT n, as positions from p on. */
  function Batch(jobs: seq<Job>, cursor: Option<nat>, n: nat, p: nat): (batch: seq<nat>)
    requires p <= |jobs|
    decreases |jobs| - p
  {
    if n == 0 || p == |jobs| then []
    else if Selected(jobs[p], cursor) then [p] + Batch(jobs, cursor, n - 1, p + 1)
    else Batch(jobs, cursor, n, p + 1)
  }

  lemma IsNextSkips(jobs: seq<Job>, after: Option<nat>, p: nat, q: nat)
    requires p < |jobs| && !Selected(jobs[p], after) && IsNext(jobs, after, p + 1, q)
    ensures IsNext(jobs, after, p, q)
  {
  }

  lemma {:induction false} BatchContinues(jobs: seq<Job>, cursor: Option<nat>, n: nat, p: nat)
    requires p <= |jobs|
    ensures |Batch(jobs, cursor, n, p)| <= n && Continues(jobs, cursor, p, Batch(jobs, cursor, n, p))
    decreases |jobs| - p
  {
    if n > 0 && p < |jobs| {
      if Selected(jobs[p], cursor) {
        BatchContinues(jobs, cursor, n - 1, p + 1);
        var rest := Batch(jobs, cursor, n - 1, p + 1);
        assert ([p] + rest)[1..] == rest;
      } else {
        BatchContinues(jobs, cursor, n, p + 1);
        var batch := Batch(jobs, cursor, n, p + 1);
        if batch != [] { IsNextSkips(jobs, cursor, p, batch[0]); }
      }
    }
  }

  lemma {:induction false} BatchEnds(jobs: seq<Job>, cursor: Option<nat>, n: nat, p: nat)
    requires p <= |jobs|
    ensures var batch := Batch(jobs, cursor, n, p);
      && p <= EndOf(batch, p) <= |jobs|
      && (batch != [] ==> p < EndOf(batch, p) && Selected(jobs[batch[|batch| - 1]], cursor))
      && (|batch| < n ==> NoneIn(jobs, cursor, EndOf(batch, p), |jobs|))
    decreases |jobs| - p
  {
    if n > 0 && p < |jobs| {
      if Selected(jobs[p], cursor) {
        BatchEnds(jobs, cursor, n - 1, p + 1);
        var rest := Batch(jobs, cursor, n - 1, p + 1);
        assert EndOf([p] + rest, p) == EndOf(rest, p + 1);
      } else {
        BatchEnds(jobs, cursor, n, p + 1);
      }
    }
  }

  lemma {:induction false} SkippingUnselected(measure: Measurer, rewrite: Rewriter, jobs: seq<Job>, after: Option<nat>, m: nat, n: nat)
    requires m <= n <= |jobs| && NoneIn(jobs, after, m, n)
    ensures Measured(measure, jobs, after, n) == Measured(measure, jobs, after, m)
    ensures Done(rewrite, jobs, after, n) == Done(rewrite, jobs, after, m)
    decreases n
  {
    if m < n { SkippingUnselected(measure, rewrite, jobs, after, m, n - 1); }
  }

  datatype Update = Update(position: nat, row: Job)

  function Applied(jobs: seq<Job>, updates: seq<Update>): (out: seq<Job>)
    ensures |out| == |jobs|
  {
    if updates == [] then jobs
    else
      var last, before := updates[|updates| - 1], Applied(jobs, updates[..|updates| - 1]);
      if last.position < |jobs| then before[last.position := last.row] else before
  }

  lemma AppliedSnoc(jobs: seq<Job>, updates: seq<Update>, u: Update)
    requires u.position < |jobs|
    ensures Applied(jobs, updates + [u]) == Applied(jobs, updates)[u.position := u.row]
  {
    assert (updates + [u])[..|updates|] == updates;
  }

  lemma NextOfBatch(jobs: seq<Job>, after: Option<nat>, at: nat, batch: seq<nat>, k: nat)
    requires k < |batch| && Continues(jobs, after, at, batch[k..])
    ensures IsNext(jobs, after, at, batch[k]) && Continues(jobs, after, batch[k] + 1, batch[k + 1..])
    ensures EndOf(batch[k + 1..], batch[k] + 1) == EndOf(batch[k..], at)
  {
    assert batch[k..][1..] == batch[k + 1..] && batch[k..][0] == batch[k];
  }

  /** Doing one more selected row. */
  lemma OneMoreRow(measure: Measurer, rewrite: Rewriter, jobs: seq<Job>, after: Option<nat>, m: nat, q: nat)
    requires IsNext(jobs, after, m, q)
    ensures Measured(measure, jobs, after, q + 1) == measure(Measured(measure, jobs, after, m), jobs[q])
    ensures Done(rewrite, jobs, after, q + 1) == Done(rewrite, jobs, after, m)[q := rewrite(jobs[q])]
    ensures rewrite(jobs[q]) == jobs[q] ==> Done(rewrite, jobs, after, q + 1) == Done(rewrite, jobs, after, m)
  {
    SkippingUnselected(measure, rewrite, jobs, after, m, q);
  }

  /** The table when everything before position p is done. */
  function TableAt(rewrite: Rewriter, jobs0: seq<Job>, after: Option<nat>, p: nat, isExecute: bool): (out: seq<Job>)
    ensures |out| == |jobs0|
  {
    if isExecute then Done(rewrite, jobs0, after, p) else jobs0
  }

  lemma OneMoreUpdate(rewrite: Rewriter, jobs0: seq<Job>, after: Option<nat>, m: nat, q: nat, isExecute: bool)
    requires IsNext(jobs0, after, m, q)
    ensures var row := rewrite(jobs0[q]); var before := TableAt(rewrite, jobs0, after, m, isExecute);
      TableAt(rewrite, jobs0, after, q + 1, isExecute) == if row != jobs0[q] && isExecute then before[q := row] else before
  {
  }

  /** The cursor selects from the half-done table what is still to do. */
  ghost predicate CursorAt(jobs: seq<Job>, after: Option<nat>, cursor: Option<nat>, p: nat) {
    forall i :: 0 <= i < |jobs| ==> (Selected(jobs[i], cursor) <==> Selected(jobs[i], after) && i >= p)
  }

  /** Rewriting leaves alone what rows are found by. */
  ghost predicate KeepsIdentity(rewrite: Rewriter) {
    forall job :: rewrite(job).id == job.id && rewrite(job).eligible == job.eligible
  }

  lemma {:induction false} BatchSkips(jobs: seq<Job>, cursor: Option<nat>, n: nat, i: nat, p: nat)
    requires i <= p <= |jobs| && NoneIn(jobs, cursor, i, p)
    ensures Batch(jobs, cursor, n, i) == Batch(jobs, cursor, n, p)
    decreases p - i
  {
    if i < p { BatchSkips(jobs, cursor, n, i + 1, p); }
  }

  lemma {:induction false} BatchDependsOnSelection(a: seq<Job>, b: seq<Job>, ca: Option<nat>, cb: Option<nat>, n: nat, p: nat)
    requires |a| == |b| && p <= |a| && forall i :: p <= i < |a| ==> (Selected(a[i], ca) <==> Selected(b[i], cb))
    ensures Batch(a, ca, n, p) == Batch(b, cb, n, p)
    decreases |a| - p
  {
    if n > 0 && p < |a| {
      if Selected(a[p], ca) { BatchDependsOnSelection(a, b, ca, cb, n - 1, p + 1); } else { BatchDependsOnSelection(a, b, ca, cb, n, p + 1); }
    }
  }

  /** The next query finds the next selected rows of the original table. */
  lemma NextBatch(rewrite: Rewriter, jobs0: seq<Job>, after: Option<nat>, p: nat, cursor: Option<nat>, n: nat, isExecute: bool)
    requires KeepsIdentity(rewrite) && p <= |jobs0| && CursorAt(jobs0, after, cursor, p)
    ensures Batch(TableAt(rewrite, jobs0, after, p, isExecute), cursor, n, 0) == Batch(jobs0, after, n, p)
  {
    var jobs := TableAt(rewrite, jobs0, after, p, isExecute);
    assert forall i :: 0 <= i < |jobs| ==> (Selected(jobs[i], cursor) <==> Selected(jobs0[i], cursor));
    BatchSkips(jobs, cursor, n, 0, p);
    BatchDependsOnSelection(jobs, jobs0, cursor, after, n, p);
  }

  lemma CursorMoves(jobs: seq<Job>, after: Option<nat>, q: nat)
    requires Ordered(jobs) && q < |jobs| && Selected(jobs[q], after)
    ensures CursorAt(jobs, after, Some(jobs[q].id), q + 1)
  {
    forall i | 0 <= i < |jobs| ensures jobs[i].id > jobs[q].id <==> i > q {}
  }

  /** What holds of metrics and updates when position `at` has been reached. */
  ghost predicate RoundAt(
    measure: Measurer, rewrite: Rewriter, jobs0: seq<Job>, after: Option<nat>, at: nat, isExecute: bool, table: seq<Job>,
    metrics: Metrics, updates: seq<Update>)
  {
    && at <= |jobs0| && metrics == Measured(measure, jobs0, after, at)
    && Applied(table, updates) == TableAt(rewrite, jobs0, after, at, isExecute)
  }

  lemma RoundStep(
    measure: Measurer, rewrite: Rewriter, jobs0: seq<Job>, after: Option<nat>, at: nat, isExecute: bool, table: seq<Job>,
    metrics: Metrics, updates: seq<Update>, q: nat)
    requires RoundAt(measure, rewrite, jobs0, after, at, isExecute, table, metrics, updates)
    requires IsNext(jobs0, after, at, q) && |table| == |jobs0|
    ensures var row := rewrite(jobs0[q]);
      RoundAt(measure, rewrite, jobs0, after, q + 1, isExecute, table, measure(metrics, jobs0[q]),
              if row != jobs0[q] && isExecute then updates + [Update(q, row)] else updates)
  {
    OneMoreRow(measure, rewrite, jobs0, after, at, q);
    OneMoreUpdate(rewrite, jobs0, after, at, q, isExecute);
    AppliedSnoc(table, updates, Update(q, rewrite(jobs0[q])));
  }

  /** Position `at` has been reached after k rows of a batch begun at p. */
  ghost predicate MidBatch(jobs: seq<Job>, after: Option<nat>, batch: seq<nat>, p: nat, at: nat, k: nat)
    requires k <= |batch|
  {
    p <= at && Continues(jobs, after, at, batch[k..]) && EndOf(batch[k..], at) == EndOf(batch, p)
  }

  lemma MidBatchStep(jobs: seq<Job>, after: Option<nat>, batch: seq<nat>, p: nat, at: nat, k: nat)
    requires k < |batch| && MidBatch(jobs, after, batch, p, at, k)
    ensures IsNext(jobs, after, at, batch[k]) && MidBatch(jobs, after, batch, p, batch[k] + 1, k + 1)
  {
    NextOfBatch(jobs, after, at, batch, k);
  }

  /** The loop over one batch: metrics at once, updates collected for its end. */
  method ProcessBatch(
    measure: Measurer, rewrite: Rewriter, table: seq<Job>, batch: seq<nat>, start: Metrics, isExecute: bool,
    ghost jobs0: seq<Job>, ghost after: Option<nat>, ghost p: nat)
    returns (metrics: Metrics, updates: seq<Update>)
    requires p <= |jobs0| && table == TableAt(rewrite, jobs0, after, p, isExecute)
    requires start == Measured(measure, jobs0, after, p) && Continues(jobs0, after, p, batch)
    ensures RoundAt(measure, rewrite, jobs0, after, EndOf(batch, p), isExecute, table, metrics, updates)
  {
    metrics, updates := start, [];
    ghost var at: nat := p;
    assert batch[0..] == batch && batch[|batch|..] == [];
    for k := 0 to |batch|
      invariant MidBatch(jobs0, after, batch, p, at, k)
      invariant RoundAt(measure, rewrite, jobs0, after, at, isExecute, table, metrics, updates)
    {
      var q := batch[k];
      MidBatchStep(jobs0, after, batch, p, at, k);
      RoundStep(measure, rewrite, jobs0, after, at, isExecute, table, metrics, updates, q);
      var job := table[q];
      assert job == jobs0[q];
      var row := rewrite(job);
      metrics := measure(metrics, job);
      updates := if row != job && isExecute then updates + [Update(q, row)] else updates;
      at := q + 1;
    }
  }

  class Backfill {
    var jobs: seq<Job>
    const measure: Measurer
    const rewrite: Rewriter

    constructor (env: Env, jobs: seq<Job>)
      ensures measure == MeasurerOf(env) && rewrite == RewriterOf(env) && this.jobs == jobs
    {
      measure, rewrite, this.jobs := MeasurerOf(env), RewriterOf(env), jobs;
    }

    /** $transaction(updates). */
    method ApplyUpdates(updates: seq<Update>)
      modifies this`jobs
      ensures jobs == Applied(old(jobs), updates)
    {
      ghost var before := jobs;
      for k := 0 to |updates|
        invariant jobs == Applied(before, updates[..k])
      {
        assert updates[..k + 1][..k] == updates[..k];
        if updates[k].position < |jobs| { jobs := jobs[updates[k].position := updates[k].row]; }
      }
      assert updates[..|updates|] == updates;
    }

    /** `runBackfill`.  Table and metrics are those of one pass over all selected rows, for
        every batch size; a dry run measures the same and writes nothing.  A batch size of
        zero does nothing at all. */
    method RunBackfill(isExecute: bool, after: Option<nat>, batchSize: nat) returns (metrics: Metrics)
      requires Ordered(jobs) && KeepsIdentity(rewrite)
      modifies this`jobs
      ensures batchSize > 0 ==> metrics == Measured(measure, old(jobs), after, |old(jobs)|)
      ensures batchSize > 0 && isExecute ==> jobs == Done(rewrite, old(jobs), after, |old(jobs)|)
      ensures batchSize == 0 ==> metrics == ZERO
      ensures batchSize == 0 || !isExecute ==> jobs == old(jobs)
    {
      metrics := ZERO;
      var cursor := after;
      ghost var jobs0, p := jobs, 0;
      assert jobs == TableAt(rewrite, jobs0, after, 0, isExecute);
      while true
        invariant p <= |jobs0| && CursorAt(jobs0, after, cursor, p)
        invariant jobs == TableAt(rewrite, jobs0, after, p, isExecute)
        invariant metrics == Measured(measure, jobs0, after, p)
        invariant batchSize == 0 ==> p == 0
        decreases |jobs0| - p
      {
        var batch := Batch(jobs, cursor, batchSize, 0);
        NextBatch(rewrite, jobs0, after, p, cursor, batchSize, isExecute);
        BatchContinues(jobs0, after, batchSize, p);
        BatchEnds(jobs0, after, batchSize, p);
        if batch == [] {
          if batchSize > 0 { SkippingUnselected(measure, rewrite, jobs0, after, p, |jobs0|); }
          break;
        }
        ghost var last := batch[|batch| - 1];
        var updates;
        metrics, updates := ProcessBatch(measure, rewrite, jobs, batch, metrics, isExecute, jobs0, after, p);
        ApplyUpdates(updates);
        cursor := Some(jobs[batch[|batch| - 1]].id);
        CursorMoves(jobs0, after, last);
        assert jobs[last].id == jobs0[last].id;
        p := EndOf(batch, p);
      }
    }
  }

  // ---- a second pass -----------------------------------------------------------

  lemma RewritingKeepsIdentity(env: Env)
    ensures KeepsIdentity(RewriterOf(env))
  {
  }

  lemma ShownIsWritten(env: Env, texts: seq<string>)
    ensures Shown(env, AsWritten(texts)) == texts
  {
  }

  /** A job that has been renormalised once has nothing left to change: raw input given by
      the provider is the same again, and stored labels are settled. */
  lemma RenormalizingSettles(env: Env, job: Job)
    requires Coherent(env)
    ensures SameColumns(Renormalized(env, job), Renormalized(env, Renormalized(env, job)))
  {
    var once := Renormalized(env, job);
    var given := if job.payload.Some? then OrEmpty(job.payload.value.locations) else [];
    if given == [] { NormalizingTwiceIsNormalizingOnce(env, job.labels); }
    ShownIsWritten(env, job.timezones);
  }

  /** Likewise for the job as the script leaves it. */
  lemma RewritingSettles(env: Env, job: Job)
    requires Coherent(env)
    ensures SameColumns(Rewritten(env, job), Renormalized(env, Rewritten(env, job)))
    ensures Rewritten(env, Rewritten(env, job)) == Rewritten(env, job)
  {
    RenormalizingSettles(env, job);
  }

  /** The measurer counts no update for the row. */
  ghost predicate CountsNoUpdate(measure: Measurer, job: Job) {
    forall m :: measure(m, job).updated == m.updated
  }

  lemma {:induction false} NoUpdates(measure: Measurer, jobs: seq<Job>, after: Option<nat>, n: nat)
    requires n <= |jobs| && forall i :: 0 <= i < |jobs| && Selected(jobs[i], after) ==> CountsNoUpdate(measure, jobs[i])
    ensures Measured(measure, jobs, after, n).updated == 0
    decreases n
  {
    if n > 0 { NoUpdates(measure, jobs, after, n - 1); }
  }

  lemma SettledCountsNoUpdate(env: Env, job: Job)
    requires Coherent(env)
    ensures CountsNoUpdate(MeasurerOf(env), Rewritten(env, job))
  {
    RewritingSettles(env, job);
  }

  /** A second pass over the whole table updates nothing. */
  lemma SecondPassUpdatesNothing(env: Env, jobs: seq<Job>, after: Option<nat>)
    requires Coherent(env)
    ensures Measured(MeasurerOf(env), Done(RewriterOf(env), jobs, after, |jobs|), after, |jobs|).updated == 0
  {
    var once := Done(RewriterOf(env), jobs, after, |jobs|);
    RewritingKeepsIdentity(env);
    forall i | 0 <= i < |jobs| && Selected(once[i], after) ensures CountsNoUpdate(MeasurerOf(env), once[i]) {
      SettledCountsNoUpdate(env, jobs[i]);
    }
    NoUpdates(MeasurerOf(env), once, after, |jobs|);
  }

  lemma SecondPassChangesNothing(env: Env, jobs: seq<Job>, after: Option<nat>)
    requires Coherent(env)
    ensures var rewrite := RewriterOf(env); var once := Done(rewrite, jobs, after, |jobs|);
      Done(rewrite, once, after, |jobs|) == once
  {
    var rewrite := RewriterOf(env);
    var once := Done(rewrite, jobs, after, |jobs|);
    forall i | 0 <= i < |jobs| ensures Done(rewrite, once, after, |jobs|)[i] == once[i] {
      RewritingSettles(env, jobs[i]);
    }
  }

  /** The counts of updated and unmodified rows, and of rows by scope, add up. */
  predicate Balanced(m: Metrics) {
    && m.updated + m.unmodified == m.processed
    && m.worldwide + m.countryLimited + m.timezoneLimited + m.countryAndTimezoneLimited == m.processed
  }

  /** A measurer that counts each row once. */
  ghost predicate CountsOnce(measure: Measurer) {
    forall m, job :: measure(m, job).processed == m.processed + 1 && (Balanced(m) ==> Balanced(measure(m, job)))
  }

  lemma MeasurerCountsOnce(env: Env)
    ensures CountsOnce(MeasurerOf(env))
  {
    forall m, job ensures MeasurerOf(env)(m, job).processed == m.processed + 1 && (Balanced(m) ==> Balanced(MeasurerOf(env)(m, job))) {
      assert MeasurerOf(env)(m, job) == Measure(env, m, job);
    }
  }

  function SelectedBelow(jobs: seq<Job>, after: Option<nat>, n: nat): set<int>
    requires n <= |jobs|
  {
    set i | 0 <= i < n && Selected(jobs[i], after)
  }

  /** Every selected row is processed, once. */
  lemma {:induction false} EverySelectedRowIsProcessed(measure: Measurer, jobs: seq<Job>, after: Option<nat>, n: nat)
    requires CountsOnce(measure) && n <= |jobs|
    ensures var m := Measured(measure, jobs, after, n);
      m.processed == |SelectedBelow(jobs, after, n)| && Balanced(m)
    decreases n
  {
    if n > 0 {
      EverySelectedRowIsProcessed(measure, jobs, after, n - 1);
      assert SelectedBelow(jobs, after, n) == SelectedBelow(jobs, after, n - 1) + if Selected(jobs[n - 1], after) then {n - 1} else {};
    }
  }

  /** What the script reports for the whole table: each row it selects counted once, and
      its counts by outcome and by scope adding up. */
  lemma ReportAccountsForEveryRow(env: Env, jobs: seq<Job>, after: Option<nat>)
    ensures var m := Measured(MeasurerOf(env), jobs, after, |jobs|);
      && m.processed == |SelectedBelow(jobs, after, |jobs|)|
      && m.updated + m.unmodified == m.processed
      && m.worldwide + m.countryLimited + m.timezoneLimited + m.countryAndTimezoneLimited == m.processed
  {
    MeasurerCountsOnce(env);
    EverySelectedRowIsProcessed(MeasurerOf(env), jobs, after, |jobs|);
  }

  /** The selected ones of the first n rows that the test holds of. */
  ghost function Those(jobs: seq<Job>, after: Option<nat>, n: nat, test: Job -> bool): set<int>
    requires n <= |jobs|
  {
    set i | 0 <= i < n && Selected(jobs[i], after) && test(jobs[i])
  }

  lemma ThoseGrow(jobs: seq<Job>, after: Option<nat>, n: nat, test: Job -> bool)
    requires 0 < n <= |jobs|
    ensures |Those(jobs, after, n, test)|
      == |Those(jobs, after, n - 1, test)| + if Selected(jobs[n - 1], after) && test(jobs[n - 1]) then 1 else 0
  {
    assert Those(jobs, after, n, test)
      == Those(jobs, after, n - 1, test) + if Selected(jobs[n - 1], after) && test(jobs[n - 1]) then {n - 1} else {};
  }

  predicate Differs(env: Env, job: Job) {
    !SameColumns(job, Renormalized(env, job))
  }

  predicate EndsIn(env: Env, scope: Scope, job: Job) {
    Renormalized(env, job).scope == Some(scope)
  }

  /** What the counts of the report count. */
  ghost predicate CountsRows(env: Env, jobs: seq<Job>, after: Option<nat>, n: nat, m: Metrics)
    requires n <= |jobs|
  {
    && m.updated == |Those(jobs, after, n, (job: Job) => Differs(env, job))|
    && m.worldwide == |Those(jobs, after, n, (job: Job) => EndsIn(env, Worldwide, job))|
    && m.countryLimited == |Those(jobs, after, n, (job: Job) => EndsIn(env, CountryLimited, job))|
    && m.timezoneLimited == |Those(jobs, after, n, (job: Job) => EndsIn(env, TimezoneLimited, job))|
    && m.countryAndTimezoneLimited == |Those(jobs, after, n, (job: Job) => EndsIn(env, CountryAndTimezoneLimited, job))|
  }

  /** The test holds of some selected row among the first n. */
  ghost predicate SomeSelected(jobs: seq<Job>, after: Option<nat>, n: nat, test: Job -> bool) {
    exists i :: 0 <= i < n && i < |jobs| && Selected(jobs[i], after) && test(jobs[i])
  }

  lemma SomeSelectedGrows(jobs: seq<Job>, after: Option<nat>, n: nat, test: Job -> bool)
    requires 0 < n <= |jobs|
    ensures SomeSelected(jobs, after, n, test)
      <==> SomeSelected(jobs, after, n - 1, test) || (Selected(jobs[n - 1], after) && test(jobs[n - 1]))
  {
    if SomeSelected(jobs, after, n - 1, test) {
      var i :| 0 <= i < n - 1 && Selected(jobs[i], after) && test(jobs[i]);
      assert i < n;
    }
  }

  function LeavesUnresolved(env: Env, text: string): Job -> bool {
    (job: Job) => text in OrEmpty(Renormalized(env, job).unresolved)
  }

  /** The last selected row among the first n. */
  ghost predicate IsLastSelected(jobs: seq<Job>, after: Option<nat>, n: nat, id: nat) {
    exists i: nat :: i < n && i < |jobs| && Selected(jobs[i], after) && jobs[i].id == id && NoneIn(jobs, after, i + 1, n)
  }

  /** What one more selected row adds to the counts. */
  ghost predicate CountsOneMore(m: Metrics, next: Metrics, differs: bool, scope: Scope) {
    && next.updated == m.updated + (if differs then 1 else 0)
    && next.worldwide == m.worldwide + (if scope == Worldwide then 1 else 0)
    && next.countryLimited == m.countryLimited + (if scope == CountryLimited then 1 else 0)
    && next.timezoneLimited == m.timezoneLimited + (if scope == TimezoneLimited then 1 else 0)
    && next.countryAndTimezoneLimited == m.countryAndTimezoneLimited + (if scope == CountryAndTimezoneLimited then 1 else 0)
  }

  /** One more row, which renormalises to `out`, is added to each part of the report. */
  ghost predicate AddsRow(m: Metrics, next: Metrics, job: Job, out: Job) {
    && out.scope.Some? && CountsOneMore(m, next, !SameColumns(job, out), out.scope.value)
    && next.unresolvedLabels == m.unresolvedLabels + Elems(OrEmpty(out.unresolved))
    && next.lastJobId == Some(job.id)
  }

  ghost predicate AddsRows(env: Env, measure: Measurer) {
    forall m, job :: AddsRow(m, measure(m, job), job, Renormalized(env, job))
  }

  lemma MeasureAddsRow(env: Env, m: Metrics, job: Job)
    ensures AddsRow(m, Measure(env, m, job), job, Renormalized(env, job))
  {
    ScopeIsGiven(env, job);
  }

  lemma ScopeIsGiven(env: Env, job: Job)
    ensures Renormalized(env, job).scope.Some?
  {
  }

  lemma MeasurerAddsRows(env: Env)
    ensures AddsRows(env, MeasurerOf(env))
  {
    forall m, job ensures AddsRow(m, MeasurerOf(env)(m, job), job, Renormalized(env, job)) {
      MeasureAddsRow(env, m, job);
    }
  }

  lemma CountsGrow(env: Env, jobs: seq<Job>, after: Option<nat>, n: nat, m: Metrics, next: Metrics)
    requires 0 < n <= |jobs| && CountsRows(env, jobs, after, n - 1, m)
    requires Renormalized(env, jobs[n - 1]).scope.Some?
    requires if Selected(jobs[n - 1], after)
      then CountsOneMore(m, next, Differs(env, jobs[n - 1]), Renormalized(env, jobs[n - 1]).scope.value) else next == m
    ensures CountsRows(env, jobs, after, n, next)
  {
    ThoseGrow(jobs, after, n, (job: Job) => Differs(env, job));
    ThoseGrow(jobs, after, n, (job: Job) => EndsIn(env, Worldwide, job));
    ThoseGrow(jobs, after, n, (job: Job) => EndsIn(env, CountryLimited, job));
    ThoseGrow(jobs, after, n, (job: Job) => EndsIn(env, TimezoneLimited, job));
    ThoseGrow(jobs, after, n, (job: Job) => EndsIn(env, CountryAndTimezoneLimited, job));
  }

  ghost predicate NamesUnresolved(env: Env, jobs: seq<Job>, after: Option<nat>, n: nat, labels: set<string>) {
    forall y :: y in labels <==> SomeSelected(jobs, after, n, LeavesUnresolved(env, y))
  }

  ghost predicate EndsAtLast(jobs: seq<Job>, after: Option<nat>, n: nat, last: Option<nat>) {
    if last.None? then NoneIn(jobs, after, 0, n) else IsLastSelected(jobs, after, n, last.value)
  }

  /** What the report says of the first n rows. */
  ghost predicate ReportsOn(env: Env, jobs: seq<Job>, after: Option<nat>, n: nat, m: Metrics)
    requires n <= |jobs|
  {
    && CountsRows(env, jobs, after, n, m)
    && NamesUnresolved(env, jobs, after, n, m.unresolvedLabels)
    && EndsAtLast(jobs, after, n, m.lastJobId)
  }

  lemma NamesGrow(env: Env, jobs: seq<Job>, after: Option<nat>, n: nat, labels: set<string>, added: set<string>)
    requires 0 < n <= |jobs| && NamesUnresolved(env, jobs, after, n - 1, labels)
    requires added == if Selected(jobs[n - 1], after) then Elems(OrEmpty(Renormalized(env, jobs[n - 1]).unresolved)) else {}
    ensures NamesUnresolved(env, jobs, after, n, labels + added)
  {
    forall y ensures y in labels + added <==> SomeSelected(jobs, after, n, LeavesUnresolved(env, y)) {
      SomeSelectedGrows(jobs, after, n, LeavesUnresolved(env, y));
      assert Selected(jobs[n - 1], after) ==> (LeavesUnresolved(env, y)(jobs[n - 1]) <==> y in added);
    }
  }

  lemma LastGrows(jobs: seq<Job>, after: Option<nat>, n: nat, last: Option<nat>)
    requires 0 < n <= |jobs| && EndsAtLast(jobs, after, n - 1, last)
    ensures EndsAtLast(jobs, after, n, if Selected(jobs[n - 1], after) then Some(jobs[n - 1].id) else last)
  {
    if Selected(jobs[n - 1], after) {
      assert NoneIn(jobs, after, n, n);
    } else if last.Some? {
      var i: nat :| i < n - 1 && Selected(jobs[i], after) && jobs[i].id == last.value && NoneIn(jobs, after, i + 1, n - 1);
      assert NoneIn(jobs, after, i + 1, n);
    }
  }

  lemma ReportSkips(env: Env, jobs: seq<Job>, after: Option<nat>, n: nat, m: Metrics)
    requires 0 < n <= |jobs| && ReportsOn(env, jobs, after, n - 1, m) && !Selected(jobs[n - 1], after)
    ensures ReportsOn(env, jobs, after, n, m)
  {
    ScopeIsGiven(env, jobs[n - 1]);
    CountsGrow(env, jobs, after, n, m, m);
    NamesGrow(env, jobs, after, n, m.unresolvedLabels, {});
    assert m.unresolvedLabels + {} == m.unresolvedLabels;
    LastGrows(jobs, after, n, m.lastJobId);
  }

  lemma ReportGrows(env: Env, jobs: seq<Job>, after: Option<nat>, n: nat, m: Metrics, next: Metrics)
    requires 0 < n <= |jobs| && ReportsOn(env, jobs, after, n - 1, m) && Selected(jobs[n - 1], after)
    requires AddsRow(m, next, jobs[n - 1], Renormalized(env, jobs[n - 1]))
    ensures ReportsOn(env, jobs, after, n, next)
  {
    CountsGrow(env, jobs, after, n, m, next);
    NamesGrow(env, jobs, after, n, m.unresolvedLabels, Elems(OrEmpty(Renormalized(env, jobs[n - 1]).unresolved)));
    LastGrows(jobs, after, n, m.lastJobId);
  }

  lemma NothingToReport(env: Env, jobs: seq<Job>, after: Option<nat>)
    ensures ReportsOn(env, jobs, after, 0, ZERO)
  {
  }

  lemma {:induction false} ReportBy(env: Env, measure: Measurer, jobs: seq<Job>, after: Option<nat>, n: nat)
    requires AddsRows(env, measure) && n <= |jobs|
    ensures ReportsOn(env, jobs, after, n, Measured(measure, jobs, after, n))
    decreases n
  {
    if n == 0 {
      NothingToReport(env, jobs, after);
    } else {
      var m, next, job := Measured(measure, jobs, after, n - 1), Measured(measure, jobs, after, n), jobs[n - 1];
      ReportBy(env, measure, jobs, after, n - 1);
      if Selected(job, after) {
        assert AddsRow(m, measure(m, job), job, Renormalized(env, job));
        ReportGrows(env, jobs, after, n, m, next);
      } else {
        ReportSkips(env, jobs, after, n, m);
      }
    }
  }

  /** The report says how many of the selected rows changed and how many end in each scope,
      which labels stayed unresolved, and which row came last. */
  lemma ReportSaysWhatWasFound(env: Env, jobs: seq<Job>, after: Option<nat>)
    ensures ReportsOn(env, jobs, after, |jobs|, Measured(MeasurerOf(env), jobs, after, |jobs|))
  {
    MeasurerAddsRows(env);
    ReportBy(env, MeasurerOf(env), jobs, after, |jobs|);
  }
}
