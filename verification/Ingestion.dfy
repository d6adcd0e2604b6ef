/** Provider ingestion: persisting one canonical job, and the page loop around it. */
module Ingestion {
  import opened Ordering

  datatype Location = Location(slug: string, alpha2: string, name: string)

  datatype Salary = Salary(min: Option<int>, max: Option<int>, currency: Option<string>, period: Option<string>)

  /** `content` stands for the columns copied through unchanged: description, skills,
      work mode, remote restrictions, fingerprint, search document and the like. */
  datatype CanonicalJob = CanonicalJob(
    externalId: string, slug: string, title: string, content: string, companySlug: string, companyName: string,
    companyLogo: Option<string>, contentHash: string, sourceUrl: string, applicationUrl: string, raw: string,
    publishedAt: Option<int>, providerExpiresAt: Option<int>, deadlineAt: Option<int>, salary: Option<Salary>,
    locations: seq<Location>)

  // ---- the tables, as rows under their unique keys ------------------------------

  datatype Key =
    | SourceKey(slug: string)
    | CompanyKey(slug: string)
    | JobKey(slug: string)
    | DeadlineKey(slug: string)
    | ProviderKey(provider: string, externalId: string)
    | SalaryKey(job: string, source: string)
    | JobLocationsKey(job: string)
    | LocationKey(slug: string)

  /** Deadline metadata is a column of the job that a save may leave alone.  The columns
      `lastSeenAt` and `observedState` are not part of the rows. */
  datatype Row =
    | SourceRow(name: string)
    | CompanyRow(canonicalName: string, logo: Option<string>)
    | JobRow(title: string, content: string, contentHash: string, active: bool, publishedAt: Option<int>,
             providerExpiresAt: Option<int>, deadlineAt: Option<int>, expiredAt: Option<int>, company: string, source: string)
    | DeadlineRow(deadlineType: string)
    | ProviderRow(job: string, company: string, source: string, sourceUrl: string, applicationUrl: string, raw: string, hash: string)
    | SalaryRow(salary: Option<Salary>)
    | JobLocationsRow(locations: set<string>)
    | LocationRow(alpha2: string, name: string)

  type Rows = map<Key, Row>

  /** `events` lists the jobs of the JOB_CREATED outbox rows, oldest first. */
  datatype Store = Store(rows: Rows, events: seq<string>)

  datatype Outcome = Created | Updated | Unchanged | Expired

  const HIMALAYAS := "himalayas.guid"

  /** `slugOf` is the slug made from any other provider's key. */
  function SourceSlug(provider: string, slugOf: string -> string): string {
    if provider == HIMALAYAS then "himalayas" else slugOf(provider)
  }

  function SourceName(provider: string): string {
    if provider == HIMALAYAS then "Himalayas" else provider
  }

  predicate IsExpired(job: CanonicalJob, now: int) {
    job.providerExpiresAt.Some? && job.providerExpiresAt.value < now
  }

  function OutcomeOf(existingHash: Option<string>, hash: string, expired: bool): Outcome {
    if expired then Expired
    else if existingHash.None? then Created
    else if existingHash.value == hash then Unchanged
    else Updated
  }

  function KnownHash(rows: Rows, provider: string, job: CanonicalJob): Option<string> {
    var key := ProviderKey(provider, job.externalId);
    if key in rows then (if rows[key].ProviderRow? then Some(rows[key].hash) else Some("")) else None
  }

  /** A location listed twice violates the primary key of the job's locations, and the
      transaction fails as a whole. */
  predicate RepeatsLocation(job: CanonicalJob) {
    exists i, j :: 0 <= i < j < |job.locations| && job.locations[i].slug == job.locations[j].slug
  }

  function LocationRows(ls: seq<Location>): Rows {
    if ls == [] then map[]
    else LocationRows(ls[..|ls| - 1])[LocationKey(ls[|ls| - 1].slug) := LocationRow(ls[|ls| - 1].alpha2, ls[|ls| - 1].name)]
  }

  function LocationSlugs(ls: seq<Location>): set<string> {
    set i | 0 <= i < |ls| :: ls[i].slug
  }

  function JobRowOf(job: CanonicalJob, source: string, now: int): Row {
    var expired := IsExpired(job, now);
    JobRow(job.title, job.content, job.contentHash, !expired, job.publishedAt, job.providerExpiresAt, job.deadlineAt,
           if expired then job.providerExpiresAt else None, job.companySlug, source)
  }

  /** Undefined when neither date is given, which leaves the column as it is. */
  function DeadlineRows(job: CanonicalJob): Rows {
    if job.deadlineAt.Some? then map[DeadlineKey(job.slug) := DeadlineRow("application_deadline")]
    else if job.providerExpiresAt.Some? then map[DeadlineKey(job.slug) := DeadlineRow("provider_expiry")]
    else map[]
  }

  /** The writes made before the locations. */
  function JobWrites(provider: string, source: string, job: CanonicalJob, now: int): Rows {
    (map[][SourceKey(source) := SourceRow(SourceName(provider))]
          [CompanyKey(job.companySlug) := CompanyRow(job.companyName, job.companyLogo)]
          [JobKey(job.slug) := JobRowOf(job, source, now)]
     + DeadlineRows(job))
    [ProviderKey(provider, job.externalId) :=
       ProviderRow(job.slug, job.companySlug, source, job.sourceUrl, job.applicationUrl, job.raw, job.contentHash)]
    [SalaryKey(job.slug, source) := SalaryRow(job.salary)]
  }

  /** All rows a save leaves behind, whatever was there before. */
  function Writes(provider: string, source: string, job: CanonicalJob, now: int): Rows {
    JobWrites(provider, source, job, now)
    + LocationRows(job.locations)
    + map[JobLocationsKey(job.slug) := JobLocationsRow(LocationSlugs(job.locations))]
  }

  function PersistOutcome(s: Store, provider: string, job: CanonicalJob, now: int): Outcome {
    OutcomeOf(KnownHash(s.rows, provider, job), job.contentHash, IsExpired(job, now))
  }

  /** A save: rows override rows, and a first, unexpired save announces the job. */
  function Persist(s: Store, provider: string, source: string, job: CanonicalJob, now: int): Store {
    if RepeatsLocation(job) then s
    else Store(
      s.rows + Writes(provider, source, job, now),
      s.events + if PersistOutcome(s, provider, job, now) == Created then [job.slug] else [])
  }

  // ---- at most one announcement per provider record -----------------------------

  datatype Call = Call(provider: string, job: CanonicalJob, now: int)

  function CallKey(c: Call): Key {
    ProviderKey(c.provider, c.job.externalId)
  }

  function PersistCall(s: Store, slugOf: string -> string, c: Call): Store {
    Persist(s, c.provider, SourceSlug(c.provider, slugOf), c.job, c.now)
  }

  predicate Announces(s: Store, c: Call) {
    !RepeatsLocation(c.job) && PersistOutcome(s, c.provider, c.job, c.now) == Created
  }

  function PersistAll(s: Store, slugOf: string -> string, calls: seq<Call>): Store
    decreases |calls|
  {
    if calls == [] then s else PersistAll(PersistCall(s, slugOf, calls[0]), slugOf, calls[1..])
  }

  /** The JOB_CREATED events that saves of one provider record have caused. */
  function Announcements(s: Store, slugOf: string -> string, calls: seq<Call>, key: Key): nat
    decreases |calls|
  {
    if calls == [] then 0
    else
      (if CallKey(calls[0]) == key && Announces(s, calls[0]) then 1 else 0)
      + Announcements(PersistCall(s, slugOf, calls[0]), slugOf, calls[1..], key)
  }

  /** Whether the first save of the record that goes through finds it unexpired. */
  function FirstIsUnexpired(calls: seq<Call>, key: Key): bool
    decreases |calls|
  {
    if calls == [] then false
    else if CallKey(calls[0]) == key && !RepeatsLocation(calls[0].job) then !IsExpired(calls[0].job, calls[0].now)
    else FirstIsUnexpired(calls[1..], key)
  }

  lemma {:induction false} LocationRowsHoldLocations(ls: seq<Location>)
    ensures forall key :: key in LocationRows(ls) ==> key.LocationKey?
    decreases |ls|
  {
    if ls != [] { LocationRowsHoldLocations(ls[..|ls| - 1]); }
  }

  lemma WritesTouchOneProviderRecord(c: Call, source: string, key: Key)
    requires key.ProviderKey?
    ensures key in Writes(c.provider, source, c.job, c.now) <==> key == CallKey(c)
  {
    LocationRowsHoldLocations(c.job.locations);
  }

  /** Over any sequence of saves, by any providers at any times, a provider record new to
      the store is announced exactly once if its first save was unexpired, and never
      otherwise; one already known is never announced again. */
  lemma {:induction false} AnnouncedExactlyOnce(s: Store, slugOf: string -> string, calls: seq<Call>, key: Key)
    requires key.ProviderKey?
    ensures Announcements(s, slugOf, calls, key) == (if key !in s.rows && FirstIsUnexpired(calls, key) then 1 else 0)
    decreases |calls|
  {
    if calls != [] {
      var c := calls[0];
      WritesTouchOneProviderRecord(c, SourceSlug(c.provider, slugOf), key);
      AnnouncedExactlyOnce(PersistCall(s, slugOf, c), slugOf, calls[1..], key);
    }
  }

  // ---- folding the saves of a feed ----------------------------------------------

  /** A record of a provider page; Invalid failed validation or normalisation. */
  datatype Record = Invalid | Valid(job: CanonicalJob)

  /** How the saves of one run are made: one provider, and a clock that stands still. */
  datatype Setting = Setting(provider: string, source: string, now: int)

  predicate Effective(r: Record) {
    r.Valid? && !RepeatsLocation(r.job)
  }

  function Save(s: Store, setting: Setting, r: Record): Store {
    if r.Valid? then Persist(s, setting.provider, setting.source, r.job, setting.now) else s
  }

  function SaveAll(s: Store, setting: Setting, rs: seq<Record>): Store
    decreases |rs|
  {
    if rs == [] then s else Save(SaveAll(s, setting, rs[..|rs| - 1]), setting, rs[|rs| - 1])
  }

  lemma {:induction false} SaveAllAppend(s: Store, setting: Setting, a: seq<Record>, b: seq<Record>)
    ensures SaveAll(s, setting, a + b) == SaveAll(SaveAll(s, setting, a), setting, b)
    decreases |b|
  {
    if b == [] {
      assert a + b == a;
    } else {
      assert (a + b)[..|a + b| - 1] == a + b[..|b| - 1];
      SaveAllAppend(s, setting, a, b[..|b| - 1]);
    }
  }

  // ---- the service -------------------------------------------------------------

  datatype Mode = Backfill | Incremental | Smoke

  datatype Page = Page(records: seq<Record>, next: Option<string>, terminal: bool, failures: nat)

  /** What the provider answers for a cursor. */
  datatype Fetch = Throws | Got(page: Page)

  type Feed = Option<string> -> Fetch

  datatype StopReason = Disabled | PageLimit | ProviderError | TerminalCursor | UnchangedThreshold | Exception

  datatype Counters = Counters(
    pagesFetched: nat, pagesCompleted: nat, fetched: nat, accepted: nat, rejected: nat,
    created: nat, updated: nat, unmodified: nat, expired: nat)

  /** `!cursor`: null and the empty string end a run. */
  predicate NoCursor(cursor: Option<string>) {
    cursor.None? || cursor.value == ""
  }

  function PageAt(feed: Feed, cursor: Option<string>): Page {
    if feed(cursor).Got? then feed(cursor).page else Page([], cursor, false, 0)
  }

  /** The cursor n pages further on, and the records of those n pages. */
  function CursorAfter(feed: Feed, cursor: Option<string>, n: nat): Option<string> {
    if n == 0 then cursor else PageAt(feed, CursorAfter(feed, cursor, n - 1)).next
  }

  function RecordsAlong(feed: Feed, cursor: Option<string>, n: nat): seq<Record> {
    if n == 0 then [] else RecordsAlong(feed, cursor, n - 1) + PageAt(feed, CursorAfter(feed, cursor, n - 1)).records
  }

  /** The run of unchanged outcomes at the end. */
  function TrailingUnchanged(outcomes: seq<Outcome>): nat {
    if outcomes == [] || outcomes[|outcomes| - 1] != Unchanged then 0 else 1 + TrailingUnchanged(outcomes[..|outcomes| - 1])
  }

  function CountOf(outcomes: seq<Outcome>, o: Outcome): nat {
    if outcomes == [] then 0 else CountOf(outcomes[..|outcomes| - 1], o) + if outcomes[|outcomes| - 1] == o then 1 else 0
  }

  /** Outcomes of the records accepted so far; a run without persistence accepts every
      usable record as unchanged. */
  function Accepted(s: Store, setting: Setting, persist: bool, rs: seq<Record>): seq<Outcome>
    decreases |rs|
  {
    if rs == [] then []
    else
      var front, r := rs[..|rs| - 1], rs[|rs| - 1];
      var before := if persist then SaveAll(s, setting, front) else s;
      Accepted(s, setting, persist, front) +
      (if r.Invalid? then []
       else if !persist then [Unchanged]
       else if RepeatsLocation(r.job) then []
       else [PersistOutcome(before, setting.provider, r.job, setting.now)])
  }

  /** The counters say what happened, record by record. */
  ghost predicate Tallies(c: Counters, outcomes: seq<Outcome>, records: nat) {
    && c.fetched == records && c.accepted == |outcomes| && c.rejected == records - |outcomes|
    && c.created == CountOf(outcomes, Created) && c.updated == CountOf(outcomes, Updated)
    && c.unmodified == CountOf(outcomes, Unchanged) && c.expired == CountOf(outcomes, Expired)
  }

  lemma {:induction false} CountsAddUp(outcomes: seq<Outcome>)
    ensures CountOf(outcomes, Created) + CountOf(outcomes, Updated) + CountOf(outcomes, Unchanged) + CountOf(outcomes, Expired) == |outcomes|
    decreases |outcomes|
  {
    if outcomes != [] { CountsAddUp(outcomes[..|outcomes| - 1]); }
  }

  /** fetched = accepted + rejected and accepted = created + updated + unmodified + expired. */
  lemma TalliesBalance(c: Counters, outcomes: seq<Outcome>, records: nat)
    requires Tallies(c, outcomes, records)
    ensures c.fetched == c.accepted + c.rejected
    ensures c.accepted == c.created + c.updated + c.unmodified + c.expired
  {
    CountsAddUp(outcomes);
  }

  lemma OutcomesSnoc(outcomes: seq<Outcome>, o: Outcome)
    ensures forall x :: CountOf(outcomes + [o], x) == CountOf(outcomes, x) + if o == x then 1 else 0
    ensures TrailingUnchanged(outcomes + [o]) == if o == Unchanged then TrailingUnchanged(outcomes) + 1 else 0
  {
    assert (outcomes + [o])[..|outcomes|] == outcomes;
  }

  lemma UpdateOfUnion(rows: Rows, m: Rows, k: Key, v: Row)
    ensures (rows + m)[k := v] == rows + m[k := v]
  {
  }

  /** The upserts of source, company, job, provider record and salary, in order. */
  method SaveJobRows(rows: Rows, provider: string, source: string, job: CanonicalJob, now: int) returns (tx: Rows)
    ensures tx == rows + JobWrites(provider, source, job, now)
  {
    ghost var m: Rows := map[];
    tx := rows;
    UpdateOfUnion(rows, m, SourceKey(source), SourceRow(SourceName(provider)));
    tx, m := tx[SourceKey(source) := SourceRow(SourceName(provider))], m[SourceKey(source) := SourceRow(SourceName(provider))];
    var company := CompanyRow(job.companyName, job.companyLogo);
    UpdateOfUnion(rows, m, CompanyKey(job.companySlug), company);
    tx, m := tx[CompanyKey(job.companySlug) := company], m[CompanyKey(job.companySlug) := company];
    var row := JobRowOf(job, source, now);
    UpdateOfUnion(rows, m, JobKey(job.slug), row);
    tx, m := tx[JobKey(job.slug) := row], m[JobKey(job.slug) := row];
    if job.deadlineAt.Some? {
      UpdateOfUnion(rows, m, DeadlineKey(job.slug), DeadlineRow("application_deadline"));
      tx := tx[DeadlineKey(job.slug) := DeadlineRow("application_deadline")];
    } else if job.providerExpiresAt.Some? {
      UpdateOfUnion(rows, m, DeadlineKey(job.slug), DeadlineRow("provider_expiry"));
      tx := tx[DeadlineKey(job.slug) := DeadlineRow("provider_expiry")];
    }
    m := m + DeadlineRows(job);
    assert tx == rows + m;
    var record := ProviderRow(job.slug, job.companySlug, source, job.sourceUrl, job.applicationUrl, job.raw, job.contentHash);
    UpdateOfUnion(rows, m, ProviderKey(provider, job.externalId), record);
    tx, m := tx[ProviderKey(provider, job.externalId) := record], m[ProviderKey(provider, job.externalId) := record];
    UpdateOfUnion(rows, m, SalaryKey(job.slug, source), SalaryRow(job.salary));
    tx, m := tx[SalaryKey(job.slug, source) := SalaryRow(job.salary)], m[SalaryKey(job.slug, source) := SalaryRow(job.salary)];
  }

  lemma WritesStepByStep(rows: Rows, provider: string, source: string, job: CanonicalJob, now: int, tx: Rows)
    requires tx == rows + JobWrites(provider, source, job, now)
    ensures (tx + LocationRows(job.locations))[JobLocationsKey(job.slug) := JobLocationsRow(LocationSlugs(job.locations))]
      == rows + Writes(provider, source, job, now)
  {
  }

  /** The loop over the countries of a job; None when one is linked twice. */
  method LinkLocations(rows: Rows, locations: seq<Location>) returns (out: Option<Rows>)
    ensures out.None? <==> exists i, j :: 0 <= i < j < |locations| && locations[i].slug == locations[j].slug
    ensures out.Some? ==> out.value == rows + LocationRows(locations)
  {
    var tx := rows;
    var linked: set<string> := {};
    for k := 0 to |locations|
      invariant tx == rows + LocationRows(locations[..k])
      invariant linked == LocationSlugs(locations[..k])
      invariant forall i, j :: 0 <= i < j < k ==> locations[i].slug != locations[j].slug
    {
      var location := locations[k];
      assert locations[..k + 1][..k] == locations[..k];
      LocationSlugsSnoc(locations, k);
      if location.slug in linked { return None; }
      tx := tx[LocationKey(location.slug) := LocationRow(location.alpha2, location.name)];
      linked := linked + {location.slug};
    }
    assert locations[..|locations|] == locations;
    out := Some(tx);
  }

  /** The provider record of the job has this row. */
  predicate StoresRecord(rows: Rows, provider: string, job: CanonicalJob, row: Row) {
    var key := ProviderKey(provider, job.externalId);
    key in rows && rows[key] == row && row.ProviderRow?
  }

  /** Column by column: the rows of the job and its locations hold what the record says,
      deadline metadata if it gives a date. */
  ghost predicate HoldsJob(after: Rows, provider: string, source: string, job: CanonicalJob, now: int) {
    var expired := job.providerExpiresAt.Some? && job.providerExpiresAt.value < now;
    && HoldsAt(after, SourceKey(source), SourceRow(if provider == HIMALAYAS then "Himalayas" else provider))
    && HoldsAt(after, CompanyKey(job.companySlug), CompanyRow(job.companyName, job.companyLogo))
    && HoldsAt(after, JobKey(job.slug), JobRow(
         job.title, job.content, job.contentHash, !expired, job.publishedAt, job.providerExpiresAt, job.deadlineAt,
         if expired then job.providerExpiresAt else None, job.companySlug, source))
    && HoldsAt(after, ProviderKey(provider, job.externalId), ProviderRow(
         job.slug, job.companySlug, source, job.sourceUrl, job.applicationUrl, job.raw, job.contentHash))
    && HoldsAt(after, SalaryKey(job.slug, source), SalaryRow(job.salary))
    && (job.deadlineAt.Some? ==> HoldsAt(after, DeadlineKey(job.slug), DeadlineRow("application_deadline")))
    && (job.deadlineAt.None? && job.providerExpiresAt.Some? ==> HoldsAt(after, DeadlineKey(job.slug), DeadlineRow("provider_expiry")))
  }

  ghost predicate HoldsLocations(after: Rows, job: CanonicalJob) {
    && HoldsAt(after, JobLocationsKey(job.slug), JobLocationsRow(set i | 0 <= i < |job.locations| :: job.locations[i].slug))
    && forall i :: 0 <= i < |job.locations| ==>
      HoldsAt(after, LocationKey(job.locations[i].slug), LocationRow(job.locations[i].alpha2, job.locations[i].name))
  }

  /** No row that a save of the job does not concern has changed. */
  ghost predicate OnlyConcerns(before: Rows, after: Rows, provider: string, source: string, job: CanonicalJob) {
    forall key :: !Concerns(key, provider, source, job) ==>
      (key in after <==> key in before) && (key in after ==> after[key] == before[key])
  }

  predicate HoldsAt(rows: Rows, key: Key, row: Row) {
    key in rows && rows[key] == row
  }

  /** The rows a save of the job may change. */
  predicate Concerns(key: Key, provider: string, source: string, job: CanonicalJob) {
    match key
    case SourceKey(slug) => slug == source
    case CompanyKey(slug) => slug == job.companySlug
    case JobKey(slug) => slug == job.slug
    case DeadlineKey(slug) => slug == job.slug && (job.deadlineAt.Some? || job.providerExpiresAt.Some?)
    case ProviderKey(p, externalId) => p == provider && externalId == job.externalId
    case SalaryKey(slug, src) => slug == job.slug && src == source
    case JobLocationsKey(slug) => slug == job.slug
    case LocationKey(slug) => exists i :: 0 <= i < |job.locations| && job.locations[i].slug == slug
  }

  lemma {:induction false} LocationRowIs(ls: seq<Location>, i: nat)
    requires forall a, b :: 0 <= a < b < |ls| ==> ls[a].slug != ls[b].slug
    requires i < |ls|
    ensures HoldsAt(LocationRows(ls), LocationKey(ls[i].slug), LocationRow(ls[i].alpha2, ls[i].name))
    decreases |ls|
  {
    var front := ls[..|ls| - 1];
    if i < |front| {
      LocationRowIs(front, i);
      assert front[i] == ls[i] && ls[|ls| - 1].slug != ls[i].slug;
    }
  }

  lemma {:induction false} LocationRowsOnly(ls: seq<Location>, key: Key)
    requires key in LocationRows(ls)
    ensures key.LocationKey? && exists i :: 0 <= i < |ls| && ls[i].slug == key.slug
    decreases |ls|
  {
    var front := ls[..|ls| - 1];
    if key in LocationRows(front) {
      LocationRowsOnly(front, key);
      var i :| 0 <= i < |front| && front[i].slug == key.slug;
      assert ls[i].slug == key.slug;
    } else {
      assert ls[|ls| - 1].slug == key.slug;
    }
  }

  lemma JobWritesAre(provider: string, source: string, job: CanonicalJob, now: int)
    ensures HoldsJob(JobWrites(provider, source, job, now), provider, source, job, now)
  {
  }

  lemma JobWritesOnly(provider: string, source: string, job: CanonicalJob, now: int, key: Key)
    requires key in JobWrites(provider, source, job, now)
    ensures Concerns(key, provider, source, job) && !key.LocationKey? && !key.JobLocationsKey?
  {
  }

  /** Rows that are left alone by later writes are held still. */
  lemma OverridingKeepsJob(rows: Rows, w: Rows, provider: string, source: string, job: CanonicalJob, now: int)
    requires HoldsJob(rows, provider, source, job, now)
    requires forall key :: key in w ==> key.LocationKey? || key.JobLocationsKey?
    ensures HoldsJob(rows + w, provider, source, job, now)
  {
  }

  lemma OverriddenHoldsJob(rows: Rows, w: Rows, provider: string, source: string, job: CanonicalJob, now: int)
    requires HoldsJob(w, provider, source, job, now)
    ensures HoldsJob(rows + w, provider, source, job, now)
  {
  }

  lemma OverridingConcerned(rows: Rows, w: Rows, provider: string, source: string, job: CanonicalJob)
    requires forall key :: key in w ==> Concerns(key, provider, source, job)
    ensures OnlyConcerns(rows, rows + w, provider, source, job)
  {
    forall key | !Concerns(key, provider, source, job)
      ensures (key in rows + w <==> key in rows) && (key in rows + w ==> (rows + w)[key] == rows[key])
    {
      assert key !in w;
    }
  }

  lemma WritesHoldLocations(rows: Rows, provider: string, source: string, job: CanonicalJob, now: int)
    requires !RepeatsLocation(job)
    ensures HoldsLocations(rows + Writes(provider, source, job, now), job)
  {
    var w := Writes(provider, source, job, now);
    forall i | 0 <= i < |job.locations|
      ensures HoldsAt(w, LocationKey(job.locations[i].slug), LocationRow(job.locations[i].alpha2, job.locations[i].name))
    {
      LocationRowIs(job.locations, i);
    }
  }

  lemma WritesConcernJob(provider: string, source: string, job: CanonicalJob, now: int, key: Key)
    requires key in Writes(provider, source, job, now)
    ensures Concerns(key, provider, source, job)
  {
    if key in LocationRows(job.locations) {
      LocationRowsOnly(job.locations, key);
    } else if key in JobWrites(provider, source, job, now) {
      JobWritesOnly(provider, source, job, now, key);
    }
  }

  lemma WritesHoldJob(rows: Rows, provider: string, source: string, job: CanonicalJob, now: int)
    requires !RepeatsLocation(job)
    ensures var out := rows + Writes(provider, source, job, now);
      HoldsJob(out, provider, source, job, now) && HoldsLocations(out, job) && OnlyConcerns(rows, out, provider, source, job)
  {
    var jobs, locations := JobWrites(provider, source, job, now), LocationRows(job.locations);
    var links: Rows := map[JobLocationsKey(job.slug) := JobLocationsRow(LocationSlugs(job.locations))];
    JobWritesAre(provider, source, job, now);
    LocationRowsHoldLocations(job.locations);
    OverridingKeepsJob(jobs, locations, provider, source, job, now);
    OverridingKeepsJob(jobs + locations, links, provider, source, job, now);
    OverriddenHoldsJob(rows, jobs + locations + links, provider, source, job, now);
    WritesHoldLocations(rows, provider, source, job, now);
    forall key | key in Writes(provider, source, job, now) ensures Concerns(key, provider, source, job) {
      WritesConcernJob(provider, source, job, now, key);
    }
    OverridingConcerned(rows, Writes(provider, source, job, now), provider, source, job);
  }

  /** The outcome of a save that goes through, by what is stored and what the record says. */
  lemma OutcomesMean(s: Store, provider: string, job: CanonicalJob, now: int)
    ensures var outcome, unexpired := PersistOutcome(s, provider, job, now), (job.providerExpiresAt.Some? ==> job.providerExpiresAt.value >= now);
      && (outcome == Expired <==> !unexpired)
      && (outcome == Created <==> unexpired && ProviderKey(provider, job.externalId) !in s.rows)
      && forall row :: StoresRecord(s.rows, provider, job, row) ==>
        && (outcome == Unchanged <==> unexpired && row.hash == job.contentHash)
        && (outcome == Updated <==> unexpired && row.hash != job.contentHash)
  {
  }

  /** What a save does and answers, by what was stored and what the record says.  Nothing
      happens if a location repeats.  Otherwise an expired record is expired; of the others
      a new one is created and announced, one stored with the same content hash is
      unchanged, one stored with another is updated; and the rows hold the record. */
  ghost predicate IsSave(
    before: Store, after: Store, provider: string, source: string, job: CanonicalJob, now: int, outcome: Option<Outcome>)
  {
    var unexpired := job.providerExpiresAt.Some? ==> job.providerExpiresAt.value >= now;
    && (outcome.None? <==> exists i, j :: 0 <= i < j < |job.locations| && job.locations[i].slug == job.locations[j].slug)
    && (outcome.None? ==> after == before)
    && (outcome.Some? ==>
         && (outcome == Some(Expired) <==> !unexpired)
         && (outcome == Some(Created) <==> unexpired && ProviderKey(provider, job.externalId) !in before.rows)
         && (forall row :: StoresRecord(before.rows, provider, job, row) ==>
              && (outcome == Some(Unchanged) <==> unexpired && row.hash == job.contentHash)
              && (outcome == Some(Updated) <==> unexpired && row.hash != job.contentHash))
         && HoldsJob(after.rows, provider, source, job, now) && HoldsLocations(after.rows, job)
         && OnlyConcerns(before.rows, after.rows, provider, source, job)
         && after.events == before.events + if outcome == Some(Created) then [job.slug] else [])
  }

  lemma PersistIsSave(s: Store, provider: string, source: string, job: CanonicalJob, now: int)
    ensures IsSave(
      s, Persist(s, provider, source, job, now), provider, source, job, now,
      if RepeatsLocation(job) then None else Some(PersistOutcome(s, provider, job, now)))
  {
    OutcomesMean(s, provider, job, now);
    if !RepeatsLocation(job) { WritesHoldJob(s.rows, provider, source, job, now); }
  }

  // ---- records that bring nothing new ------------------------------------------

  /** The record is usable, unexpired, and stored with the content it has. */
  ghost predicate BringsNothingNew(s: Store, setting: Setting, r: Record) {
    && r.Valid? && !RepeatsLocation(r.job)
    && (r.job.providerExpiresAt.Some? ==> r.job.providerExpiresAt.value >= setting.now)
    && exists row :: StoresRecord(s.rows, setting.provider, r.job, row) && row.hash == r.job.contentHash
  }

  /** Saving any record leaves it stored with its content. */
  lemma SavedIsStored(s: Store, setting: Setting, r: Record)
    requires Effective(r)
    ensures exists row :: StoresRecord(Save(s, setting, r).rows, setting.provider, r.job, row) && row.hash == r.job.contentHash
  {
    LocationRowsHoldLocations(r.job.locations);
    var row := ProviderRow(r.job.slug, r.job.companySlug, setting.source, r.job.sourceUrl, r.job.applicationUrl, r.job.raw, r.job.contentHash);
    assert StoresRecord(Save(s, setting, r).rows, setting.provider, r.job, row);
  }

  /** A record saved twice in a row is unchanged the second time, a record saved with other
      content is updated, as long as it has not expired. */
  lemma SavedAgainIsUnchanged(s: Store, setting: Setting, r: Record, again: CanonicalJob, now: int)
    requires Effective(r) && again.externalId == r.job.externalId && !IsExpired(again, now)
    ensures PersistOutcome(Save(s, setting, r), setting.provider, again, now)
      == if again.contentHash == r.job.contentHash then Unchanged else Updated
  {
    SavedIsStored(s, setting, r);
  }

  lemma SavingKeepsOldNews(s: Store, setting: Setting, r: Record, other: Record)
    requires BringsNothingNew(s, setting, r) && BringsNothingNew(s, setting, other)
    ensures BringsNothingNew(Save(s, setting, r), setting, other)
  {
    SavedIsStored(s, setting, r);
    WritesTouchOneProviderRecord(
      Call(setting.provider, r.job, setting.now), setting.source, ProviderKey(setting.provider, other.job.externalId));
    if r.job.externalId != other.job.externalId {
      var row :| StoresRecord(s.rows, setting.provider, other.job, row) && row.hash == other.job.contentHash;
      assert StoresRecord(Save(s, setting, r).rows, setting.provider, other.job, row);
    }
  }

  lemma {:induction false} OldNewsStaysOld(s: Store, setting: Setting, rs: seq<Record>, r: Record)
    requires forall x :: x in rs ==> BringsNothingNew(s, setting, x)
    requires BringsNothingNew(s, setting, r)
    ensures BringsNothingNew(SaveAll(s, setting, rs), setting, r)
    decreases |rs|
  {
    if rs != [] {
      var front, last := rs[..|rs| - 1], rs[|rs| - 1];
      assert last in rs && forall x :: x in front ==> x in rs;
      OldNewsStaysOld(s, setting, front, r);
      OldNewsStaysOld(s, setting, front, last);
      SavingKeepsOldNews(SaveAll(s, setting, front), setting, last, r);
    }
  }

  lemma {:induction false} OldNewsIsUnchanged(s: Store, setting: Setting, persist: bool, rs: seq<Record>)
    requires forall x :: x in rs ==> BringsNothingNew(s, setting, x)
    ensures TrailingUnchanged(Accepted(s, setting, persist, rs)) == |rs|
    decreases |rs|
  {
    if rs != [] {
      var front, r := rs[..|rs| - 1], rs[|rs| - 1];
      assert r in rs && forall x :: x in front ==> x in rs;
      OldNewsIsUnchanged(s, setting, persist, front);
      OldNewsStaysOld(s, setting, front, r);
      OutcomesSnoc(Accepted(s, setting, persist, front), Unchanged);
    }
  }

  /** How one run is set up. */
  datatype Options = Options(mode: Mode, persist: bool, pageLimit: nat, restart: bool, threshold: nat)

  function CheckpointMode(mode: Mode): Mode {
    if mode == Backfill then Backfill else Incremental
  }

  type Checkpoints = map<(string, Mode), Option<string>>

  /** Only a backfill that is not restarted resumes. */
  function StartCursor(checkpoints: Checkpoints, provider: string, o: Options): Option<string> {
    var key := (provider, CheckpointMode(o.mode));
    if o.mode == Backfill && !o.restart && key in checkpoints then checkpoints[key] else None
  }

  function StoreAfter(s: Store, setting: Setting, persist: bool, rs: seq<Record>): Store {
    if persist then SaveAll(s, setting, rs) else s
  }

  predicate AtTerminal(feed: Feed, start: Option<string>, n: nat)
    requires n > 0
  {
    PageAt(feed, CursorAfter(feed, start, n - 1)).terminal || NoCursor(CursorAfter(feed, start, n))
  }

  /** Whether a run that has completed n pages has found nothing new for long enough. */
  predicate AtThreshold(s: Store, setting: Setting, o: Options, feed: Feed, start: Option<string>, n: nat) {
    o.mode == Incremental && TrailingUnchanged(Accepted(s, setting, o.persist, RecordsAlong(feed, start, n))) >= o.threshold
  }

  /** After n completed pages: the store, the counters and the running count. */
  ghost predicate Along(
    s0: Store, feed: Feed, start: Option<string>, setting: Setting, o: Options, n: nat, c: Counters, run: nat, s: Store)
  {
    var rs := RecordsAlong(feed, start, n);
    && s == StoreAfter(s0, setting, o.persist, rs)
    && Tallies(c, Accepted(s0, setting, o.persist, rs), |rs|)
    && run == TrailingUnchanged(Accepted(s0, setting, o.persist, rs))
  }

  /** No stop condition was met after any of the first n pages. */
  ghost predicate WentOn(s0: Store, feed: Feed, start: Option<string>, setting: Setting, o: Options, n: nat) {
    forall m :: 0 < m <= n ==> !AtTerminal(feed, start, m) && !AtThreshold(s0, setting, o, feed, start, m)
  }

  /** A page that was fetched but brought failures and no records at all. */
  predicate Failed(feed: Feed, cursor: Option<string>) {
    feed(cursor).Got? && feed(cursor).page.records == [] && feed(cursor).page.failures > 0
  }

  predicate Fine(feed: Feed, cursor: Option<string>) {
    feed(cursor).Got? && !Failed(feed, cursor)
  }

  /** The first n pages could be processed. */
  ghost predicate FineSoFar(feed: Feed, start: Option<string>, n: nat) {
    forall k :: 0 <= k < n ==> Fine(feed, CursorAfter(feed, start, k))
  }

  lemma OneMoreIsFine(feed: Feed, start: Option<string>, n: nat)
    requires FineSoFar(feed, start, n) && Fine(feed, CursorAfter(feed, start, n))
    ensures FineSoFar(feed, start, n + 1)
  {
  }

  /** A run's result, from the feed, the options and what was stored before. */
  ghost predicate RunResult(
    s0: Store, before: Checkpoints, feed: Feed, setting: Setting, o: Options, stop: StopReason, c: Counters, s: Store, after: Checkpoints)
  {
    var start, n := StartCursor(before, setting.provider, o), c.pagesCompleted;
    var rs := RecordsAlong(feed, start, n);
    && s == StoreAfter(s0, setting, o.persist, rs)
    && Tallies(c, Accepted(s0, setting, o.persist, rs), |rs|)
    && after == (if n == 0 then before else before[(setting.provider, CheckpointMode(o.mode)) := CursorAfter(feed, start, n)])
    && n <= c.pagesFetched <= o.pageLimit
    && c.pagesFetched == (if stop == ProviderError then n + 1 else n)
    && stop != Disabled
    && FineSoFar(feed, start, n)
    && (n > 0 ==> WentOn(s0, feed, start, setting, o, n - 1))
    && (stop == TerminalCursor <==> n > 0 && AtTerminal(feed, start, n))
    && (stop == UnchangedThreshold <==> n > 0 && !AtTerminal(feed, start, n) && AtThreshold(s0, setting, o, feed, start, n))
    && (stop == PageLimit <==> n == o.pageLimit && WentOn(s0, feed, start, setting, o, n))
    && (stop == ProviderError <==>
         n < o.pageLimit && WentOn(s0, feed, start, setting, o, n) && Failed(feed, CursorAfter(feed, start, n)))
    && (stop == Exception <==>
         n < o.pageLimit && WentOn(s0, feed, start, setting, o, n) && feed(CursorAfter(feed, start, n)).Throws?)
  }

  const ZERO := Counters(0, 0, 0, 0, 0, 0, 0, 0, 0)

  /** Counting one record: None was rejected. */
  method TallyOne(counters: Counters, run: nat, outcome: Option<Outcome>, ghost outcomes: seq<Outcome>, ghost n: nat)
    returns (c: Counters, consecutiveUnchanged: nat)
    requires Tallies(counters, outcomes, n) && run == TrailingUnchanged(outcomes)
    ensures var all := if outcome.None? then outcomes else outcomes + [outcome.value];
      Tallies(c, all, n + 1) && consecutiveUnchanged == TrailingUnchanged(all)
    ensures c.pagesFetched == counters.pagesFetched && c.pagesCompleted == counters.pagesCompleted
  {
    c, consecutiveUnchanged := counters.(fetched := counters.fetched + 1), run;
    if outcome.None? {
      c := c.(rejected := c.rejected + 1);
      return;
    }
    OutcomesSnoc(outcomes, outcome.value);
    c := c.(accepted := c.accepted + 1);
    match outcome.value {
      case Created => c, consecutiveUnchanged := c.(created := c.created + 1), 0;
      case Updated => c, consecutiveUnchanged := c.(updated := c.updated + 1), 0;
      case Expired => c, consecutiveUnchanged := c.(expired := c.expired + 1), 0;
      case Unchanged => c, consecutiveUnchanged := c.(unmodified := c.unmodified + 1), consecutiveUnchanged + 1;
    }
  }

  class IngestionService {
    var rows: Rows
    var events: seq<string>
    var checkpoints: Checkpoints

    constructor ()
      ensures rows == map[] && events == [] && checkpoints == map[]
    {
      rows, events, checkpoints := map[], [], map[];
    }

    ghost function Contents(): Store
      reads this`rows, this`events
    {
      Store(rows, events)
    }

    /** `persist`: one transaction; None when it throws, and then nothing is kept. */
    method PersistJob(provider: string, source: string, job: CanonicalJob, now: int) returns (outcome: Option<Outcome>)
      modifies this`rows, this`events
      ensures Contents() == Persist(old(Contents()), provider, source, job, now)
      ensures outcome == if RepeatsLocation(job) then None else Some(PersistOutcome(old(Contents()), provider, job, now))
      ensures IsSave(old(Contents()), Contents(), provider, source, job, now, outcome)
    {
      PersistIsSave(Contents(), provider, source, job, now);
      var existing := KnownHash(rows, provider, job);
      var expired := job.providerExpiresAt.Some? && job.providerExpiresAt.value < now;
      var result := if existing.Some?
        then (if existing.value == job.contentHash then (if expired then Expired else Unchanged) else if expired then Expired else Updated)
        else if expired then Expired else Created;
      var tx := SaveJobRows(rows, provider, source, job, now);
      WritesStepByStep(rows, provider, source, job, now, tx);
      var located := LinkLocations(tx, job.locations);
      if located.None? { return None; }
      rows := located.value[JobLocationsKey(job.slug) := JobLocationsRow(LocationSlugs(job.locations))];
      if result == Created { events := events + [job.slug]; }
      outcome := Some(result);
    }

    /** The loop over the records of one page; `before` are the records of earlier pages. */
    method IngestRecords(setting: Setting, persist: bool, records: seq<Record>, counters: Counters, run: nat,
                         ghost s0: Store, ghost before: seq<Record>)
      returns (c: Counters, consecutiveUnchanged: nat)
      requires Contents() == StoreAfter(s0, setting, persist, before)
      requires Tallies(counters, Accepted(s0, setting, persist, before), |before|)
      requires run == TrailingUnchanged(Accepted(s0, setting, persist, before))
      modifies this`rows, this`events
      ensures Contents() == StoreAfter(s0, setting, persist, before + records)
      ensures Tallies(c, Accepted(s0, setting, persist, before + records), |before + records|)
      ensures consecutiveUnchanged == TrailingUnchanged(Accepted(s0, setting, persist, before + records))
      ensures c.pagesFetched == counters.pagesFetched && c.pagesCompleted == counters.pagesCompleted
    {
      c, consecutiveUnchanged := counters, run;
      assert before + records[..0] == before;
      for k := 0 to |records|
        invariant Contents() == StoreAfter(s0, setting, persist, before + records[..k])
        invariant Tallies(c, Accepted(s0, setting, persist, before + records[..k]), |before| + k)
        invariant consecutiveUnchanged == TrailingUnchanged(Accepted(s0, setting, persist, before + records[..k]))
        invariant c.pagesFetched == counters.pagesFetched && c.pagesCompleted == counters.pagesCompleted
      {
        var input := records[k];
        ghost var front, outcomes := before + records[..k], Accepted(s0, setting, persist, before + records[..k]);
        assert before + records[..k + 1] == front + [input];
        AcceptedSnoc(s0, setting, persist, front, input);
        var outcome := if input.Invalid? then None else Some(Unchanged);
        if input.Valid? && persist { outcome := PersistJob(setting.provider, setting.source, input.job, setting.now); }
        c, consecutiveUnchanged := TallyOne(c, consecutiveUnchanged, outcome, outcomes, |before| + k);
      }
      assert records[..|records|] == records;
    }

    /** One page that was fetched: its records, then the checkpoint. */
    method CompletePage(feed: Feed, setting: Setting, o: Options, cursor: Option<string>, page: Page, counters: Counters, run: nat,
                        ghost s0: Store, ghost start: Option<string>, ghost n: nat)
      returns (c: Counters, consecutiveUnchanged: nat)
      requires Along(s0, feed, start, setting, o, n, counters, run, Contents())
      requires cursor == CursorAfter(feed, start, n) && feed(cursor) == Got(page)
      modifies this
      ensures Along(s0, feed, start, setting, o, n + 1, c, consecutiveUnchanged, Contents())
      ensures checkpoints == old(checkpoints)[(setting.provider, CheckpointMode(o.mode)) := page.next]
      ensures c.pagesFetched == counters.pagesFetched && c.pagesCompleted == counters.pagesCompleted + 1
      ensures page.next == CursorAfter(feed, start, n + 1)
    {
      c, consecutiveUnchanged := IngestRecords(setting, o.persist, page.records, counters, run, s0, RecordsAlong(feed, start, n));
      c := c.(pagesCompleted := c.pagesCompleted + 1);
      checkpoints := checkpoints[(setting.provider, CheckpointMode(o.mode)) := page.next];
    }

    /** `ingest`: store, counters, checkpoint and stop reason are those of the pages along
        the cursors from the start. */
    method Ingest(feed: Feed, enabled: bool, setting: Setting, o: Options) returns (stop: StopReason, c: Counters)
      modifies this
      ensures !enabled ==> stop == Disabled && c == ZERO && Contents() == old(Contents()) && checkpoints == old(checkpoints)
      ensures enabled ==> stop != Disabled
      ensures enabled ==> RunResult(old(Contents()), old(checkpoints), feed, setting, o, stop, c, Contents(), checkpoints)
    {
      c := ZERO;
      if !enabled { return Disabled, c; }
      var cursor := StartCursor(checkpoints, setting.provider, o);
      ghost var s0, before := Contents(), checkpoints;
      var consecutiveUnchanged: nat := 0;
      for page := 0 to o.pageLimit
        invariant GoingOn(s0, before, feed, setting, o, page, cursor, c, consecutiveUnchanged, Contents(), checkpoints)
      {
        var ended: Option<StopReason>;
        ended, cursor, c, consecutiveUnchanged := RunPage(feed, setting, o, cursor, c, consecutiveUnchanged, s0, before, page);
        if ended.Some? { return ended.value, c; }
      }
      Concludes(s0, before, feed, setting, o, PageLimit, c, consecutiveUnchanged, Contents());
      stop := PageLimit;
    }

    /** One round of the page loop. */
    method RunPage(feed: Feed, setting: Setting, o: Options, cursor: Option<string>, counters: Counters, run: nat,
                   ghost s0: Store, ghost before: Checkpoints, ghost n: nat)
      returns (ended: Option<StopReason>, next: Option<string>, c: Counters, consecutiveUnchanged: nat)
      requires n < o.pageLimit && GoingOn(s0, before, feed, setting, o, n, cursor, counters, run, Contents(), checkpoints)
      modifies this
      ensures ended.Some? ==>
        ended.value != Disabled && RunResult(s0, before, feed, setting, o, ended.value, c, Contents(), checkpoints)
      ensures ended.None? ==>
        GoingOn(s0, before, feed, setting, o, n + 1, next, c, consecutiveUnchanged, Contents(), checkpoints)
    {
      c, consecutiveUnchanged, next := counters, run, cursor;
      var fetch := feed(cursor);
      if fetch.Throws? {
        Concludes(s0, before, feed, setting, o, Exception, c, run, Contents());
        return Some(Exception), next, c, consecutiveUnchanged;
      }
      c := c.(pagesFetched := c.pagesFetched + 1);
      if fetch.page.records == [] && fetch.page.failures > 0 {
        Concludes(s0, before, feed, setting, o, ProviderError, c, run, Contents());
        return Some(ProviderError), next, c, consecutiveUnchanged;
      }
      ended, c, consecutiveUnchanged := FinishPage(feed, setting, o, cursor, fetch.page, c, run, s0, before, n);
      next := fetch.page.next;
    }

    /** A fetched page: its records and checkpoint, and whether to stop after it. */
    method FinishPage(feed: Feed, setting: Setting, o: Options, cursor: Option<string>, page: Page, counters: Counters, run: nat,
                      ghost s0: Store, ghost before: Checkpoints, ghost n: nat)
      returns (ended: Option<StopReason>, c: Counters, consecutiveUnchanged: nat)
      requires n < o.pageLimit && feed(cursor) == Got(page) && !Failed(feed, cursor)
      requires GoingOn(s0, before, feed, setting, o, n, cursor, counters.(pagesFetched := n), run, Contents(), checkpoints)
      requires counters.pagesFetched == n + 1
      modifies this
      ensures ended.Some? ==>
        ended.value != Disabled && RunResult(s0, before, feed, setting, o, ended.value, c, Contents(), checkpoints)
      ensures ended.None? ==>
        GoingOn(s0, before, feed, setting, o, n + 1, page.next, c, consecutiveUnchanged, Contents(), checkpoints)
    {
      ghost var start := StartCursor(before, setting.provider, o);
      c, consecutiveUnchanged := CompletePage(feed, setting, o, cursor, page, counters, run, s0, start, n);
      CheckpointsOverride(before, setting, o, n, cursor, page.next);
      OneMoreIsFine(feed, start, n);
      AssessStop(s0, before, feed, start, setting, o, n + 1, cursor, page, c, consecutiveUnchanged, Contents());
      ended := if page.terminal || NoCursor(page.next) then Some(TerminalCursor)
        else if o.mode == Incremental && consecutiveUnchanged >= o.threshold then Some(UnchangedThreshold)
        else None;
    }
  }

  /** The page loop's invariant. */
  ghost predicate GoingOn(
    s0: Store, before: Checkpoints, feed: Feed, setting: Setting, o: Options, n: nat, cursor: Option<string>,
    c: Counters, run: nat, s: Store, after: Checkpoints)
  {
    var start := StartCursor(before, setting.provider, o);
    && c.pagesCompleted == c.pagesFetched == n
    && cursor == CursorAfter(feed, start, n)
    && Along(s0, feed, start, setting, o, n, c, run, s)
    && after == CheckpointsAfter(before, setting, o, n, cursor)
    && WentOn(s0, feed, start, setting, o, n) && FineSoFar(feed, start, n)
  }

  function CheckpointsAfter(before: Checkpoints, setting: Setting, o: Options, n: nat, cursor: Option<string>): Checkpoints {
    if n == 0 then before else before[(setting.provider, CheckpointMode(o.mode)) := cursor]
  }

  lemma CheckpointsOverride(before: Checkpoints, setting: Setting, o: Options, n: nat, cursor: Option<string>, next: Option<string>)
    ensures CheckpointsAfter(before, setting, o, n, cursor)[(setting.provider, CheckpointMode(o.mode)) := next]
      == CheckpointsAfter(before, setting, o, n + 1, next)
  {
  }

  /** After a completed page: the result when the run stops here, or that it goes on. */
  lemma AssessStop(
    s0: Store, before: Checkpoints, feed: Feed, start: Option<string>, setting: Setting, o: Options, n: nat,
    cursor: Option<string>, page: Page, c: Counters, run: nat, s: Store)
    requires start == StartCursor(before, setting.provider, o)
    requires n > 0 && Along(s0, feed, start, setting, o, n, c, run, s) && WentOn(s0, feed, start, setting, o, n - 1)
    requires cursor == CursorAfter(feed, start, n - 1) && feed(cursor) == Got(page) && FineSoFar(feed, start, n)
    requires c.pagesFetched == c.pagesCompleted == n <= o.pageLimit
    ensures var terminal := page.terminal || NoCursor(page.next);
      var threshold := o.mode == Incremental && run >= o.threshold;
      var after := CheckpointsAfter(before, setting, o, n, page.next);
      && (terminal ==> RunResult(s0, before, feed, setting, o, TerminalCursor, c, s, after))
      && (!terminal && threshold ==> RunResult(s0, before, feed, setting, o, UnchangedThreshold, c, s, after))
      && (!terminal && !threshold ==> GoingOn(s0, before, feed, setting, o, n, page.next, c, run, s, after))
  {
    assert CursorAfter(feed, start, n) == page.next;
    assert AtTerminal(feed, start, n) <==> page.terminal || NoCursor(page.next);
    assert AtThreshold(s0, setting, o, feed, start, n) <==> o.mode == Incremental && run >= o.threshold;
  }

  /** The ways to stop before a page is completed. */
  lemma Concludes(
    s0: Store, before: Checkpoints, feed: Feed, setting: Setting, o: Options, stop: StopReason, c: Counters, run: nat, s: Store)
    requires var start, n := StartCursor(before, setting.provider, o), c.pagesCompleted;
      && Along(s0, feed, start, setting, o, n, c, run, s) && WentOn(s0, feed, start, setting, o, n)
      && FineSoFar(feed, start, n)
      && n <= o.pageLimit && c.pagesFetched == (if stop == ProviderError then n + 1 else n)
      && match stop
         case PageLimit => n == o.pageLimit
         case ProviderError => n < o.pageLimit && Failed(feed, CursorAfter(feed, start, n))
         case Exception => n < o.pageLimit && feed(CursorAfter(feed, start, n)).Throws?
         case _ => false
    ensures var start, n := StartCursor(before, setting.provider, o), c.pagesCompleted;
      RunResult(s0, before, feed, setting, o, stop, c, s, CheckpointsAfter(before, setting, o, n, CursorAfter(feed, start, n)))
  {
  }

  /** Of two results of one run, neither stops after fewer pages: whatever stopped it there
      would have stopped the other. */
  lemma StopsNoEarlier(
    s0: Store, before: Checkpoints, feed: Feed, setting: Setting, o: Options,
    stop: StopReason, c: Counters, s: Store, after: Checkpoints,
    stop2: StopReason, c2: Counters, s2: Store, after2: Checkpoints)
    requires RunResult(s0, before, feed, setting, o, stop, c, s, after)
    requires RunResult(s0, before, feed, setting, o, stop2, c2, s2, after2)
    ensures c.pagesCompleted >= c2.pagesCompleted
  {
    var start, n, n2 := StartCursor(before, setting.provider, o), c.pagesCompleted, c2.pagesCompleted;
    assert n < n2 ==> Fine(feed, CursorAfter(feed, start, n));
    assert n < n2 ==> WentOn(s0, feed, start, setting, o, n);
  }

  /** Feed, options and what was stored before leave a run one result only: one stop reason,
      one set of counters, one store, one checkpoint. */
  lemma RunIsDetermined(
    s0: Store, before: Checkpoints, feed: Feed, setting: Setting, o: Options,
    stop: StopReason, c: Counters, s: Store, after: Checkpoints,
    stop2: StopReason, c2: Counters, s2: Store, after2: Checkpoints)
    requires RunResult(s0, before, feed, setting, o, stop, c, s, after)
    requires RunResult(s0, before, feed, setting, o, stop2, c2, s2, after2)
    ensures stop == stop2 && c == c2 && s == s2 && after == after2
  {
    StopsNoEarlier(s0, before, feed, setting, o, stop, c, s, after, stop2, c2, s2, after2);
    StopsNoEarlier(s0, before, feed, setting, o, stop2, c2, s2, after2, stop, c, s, after);
  }

  lemma {:induction false} RecordsGrow(feed: Feed, start: Option<string>, m: nat, n: nat)
    requires m <= n
    ensures RecordsAlong(feed, start, m) <= RecordsAlong(feed, start, n)
    decreases n
  {
    if m < n { RecordsGrow(feed, start, m, n - 1); }
  }

  /** An incremental run over records that bring nothing new stops at its threshold, at the
      latest after the page by which there are enough of them, unless a terminal page or a
      page that cannot be processed comes first. */
  lemma NothingNewStopsAtThreshold(
    s0: Store, before: Checkpoints, feed: Feed, setting: Setting, o: Options,
    stop: StopReason, c: Counters, s: Store, after: Checkpoints, n: nat)
    requires RunResult(s0, before, feed, setting, o, stop, c, s, after) && o.mode == Incremental
    requires 0 < n <= o.pageLimit
    requires var start := StartCursor(before, setting.provider, o);
      && FineSoFar(feed, start, n) && (forall m :: 0 < m <= n ==> !AtTerminal(feed, start, m))
      && |RecordsAlong(feed, start, n)| >= o.threshold
      && forall r :: r in RecordsAlong(feed, start, n) ==> BringsNothingNew(s0, setting, r)
    ensures stop == UnchangedThreshold && c.pagesCompleted <= n
    ensures o.persist ==> c.unmodified == c.fetched && c.created == c.updated == c.expired == c.rejected == 0
  {
    var start, k := StartCursor(before, setting.provider, o), c.pagesCompleted;
    OldNewsIsUnchanged(s0, setting, o.persist, RecordsAlong(feed, start, n));
    assert AtThreshold(s0, setting, o, feed, start, n);
    RecordsGrow(feed, start, k, n);
    forall r | r in RecordsAlong(feed, start, k) ensures BringsNothingNew(s0, setting, r) {
      assert r in RecordsAlong(feed, start, n);
    }
    OldNewsIsUnchanged(s0, setting, o.persist, RecordsAlong(feed, start, k));
    AllUnchangedCounts(Accepted(s0, setting, o.persist, RecordsAlong(feed, start, k)), |RecordsAlong(feed, start, k)|);
    AcceptedAtMostAll(s0, setting, o.persist, RecordsAlong(feed, start, k));
  }

  lemma {:induction false} AcceptedAtMostAll(s: Store, setting: Setting, persist: bool, rs: seq<Record>)
    ensures |Accepted(s, setting, persist, rs)| <= |rs|
    decreases |rs|
  {
    if rs != [] { AcceptedAtMostAll(s, setting, persist, rs[..|rs| - 1]); }
  }

  lemma {:induction false} AllUnchangedCounts(outcomes: seq<Outcome>, n: nat)
    requires TrailingUnchanged(outcomes) == n
    ensures n <= |outcomes| && CountOf(outcomes, Unchanged) >= n
    ensures n == |outcomes| ==> forall o :: CountOf(outcomes, o) == if o == Unchanged then n else 0
    decreases |outcomes|
  {
    if n > 0 { AllUnchangedCounts(outcomes[..|outcomes| - 1], n - 1); }
  }

  /** A record that does bring something new starts the count again: with one last on a page
      the run does not stop at its threshold there. */
  lemma NewsPostponesTheThreshold(s0: Store, feed: Feed, start: Option<string>, setting: Setting, o: Options, n: nat)
    requires o.threshold > 0 && o.persist && RecordsAlong(feed, start, n) != []
    requires var rs := RecordsAlong(feed, start, n);
      var r, stored := rs[|rs| - 1], SaveAll(s0, setting, rs[..|rs| - 1]);
      && Effective(r) && !BringsNothingNew(stored, setting, r)
      && forall key: Key :: key.ProviderKey? && key in stored.rows ==> stored.rows[key].ProviderRow?
    ensures !AtThreshold(s0, setting, o, feed, start, n)
  {
    var rs := RecordsAlong(feed, start, n);
    var front, r := rs[..|rs| - 1], rs[|rs| - 1];
    var stored := SaveAll(s0, setting, front);
    var key := ProviderKey(setting.provider, r.job.externalId);
    assert key in stored.rows ==> StoresRecord(stored.rows, setting.provider, r.job, stored.rows[key]);
    OutcomesSnoc(Accepted(s0, setting, true, front), PersistOutcome(stored, setting.provider, r.job, setting.now));
  }

  lemma AcceptedSnoc(s: Store, setting: Setting, persist: bool, front: seq<Record>, r: Record)
    ensures SaveAll(s, setting, front + [r]) == Save(SaveAll(s, setting, front), setting, r)
    ensures Accepted(s, setting, persist, front + [r]) ==
      if r.Invalid? || (persist && RepeatsLocation(r.job)) then Accepted(s, setting, persist, front)
      else if !persist then Accepted(s, setting, persist, front) + [Unchanged]
      else Accepted(s, setting, persist, front) + [PersistOutcome(SaveAll(s, setting, front), setting.provider, r.job, setting.now)]
  {
    assert (front + [r])[..|front|] == front;
  }

  lemma LocationSlugsSnoc(ls: seq<Location>, k: nat)
    requires k < |ls|
    ensures LocationSlugs(ls[..k + 1]) == LocationSlugs(ls[..k]) + {ls[k].slug}
    ensures ls[k].slug in LocationSlugs(ls[..k]) <==> exists i :: 0 <= i < k && ls[i].slug == ls[k].slug
  {
    var a, b := ls[..k], ls[..k + 1];
    forall x | x in LocationSlugs(b) ensures x in LocationSlugs(a) + {ls[k].slug} {
      var i :| 0 <= i < |b| && b[i].slug == x;
      if i < k { assert a[i].slug == x; }
    }
    forall x | x in LocationSlugs(a) ensures x in LocationSlugs(b) {
      var i :| 0 <= i < |a| && a[i].slug == x;
      assert b[i].slug == x;
    }
    assert b[k].slug == ls[k].slug;
    if i :| 0 <= i < k && ls[i].slug == ls[k].slug { assert a[i].slug == ls[k].slug; }
  }
}
