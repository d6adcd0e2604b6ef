/** The match brief evaluator: five dimensions and the alignment status they add up to.

    What is done with text alone (trimming, title normalisation, pattern tests) comes in as
    functions. */
module MatchEvaluator {
  import opened Ordering

  datatype Seniority = Entry | Junior | Mid | Senior | Lead | Manager | Executive

  /** The candidate's scale has two more levels than the comparison. */
  datatype CandidateSeniority = Level(level: Seniority) | Principal | Director

  datatype WorkMode = Remote | Hybrid | Onsite | UnknownMode

  datatype RemotePreference = RemoteOnly | PreferHybrid | PreferOnsite | OpenToAny

  datatype Period = Annual | Monthly | Hourly

  datatype EmploymentType = FullTime | PartTime | Contract | Internship | Temporary

  datatype CandidateFacts = CandidateFacts(
    titles: seq<string>, seniority: Option<CandidateSeniority>, remotePreference: Option<RemotePreference>,
    employmentTypes: seq<EmploymentType>, minSalary: Option<int>, maxSalary: Option<int>,
    currency: Option<string>, period: Option<Period>)

  const NO_FACTS := CandidateFacts([], None, None, [], None, None, None, None)

  datatype Salary = Salary(min: Option<int>, max: Option<int>, currency: Option<string>, period: Option<string>)

  datatype JobFacts = JobFacts(
    id: nat, slug: string, title: string, seniority: Option<string>, employmentType: Option<string>,
    workMode: WorkMode, salary: Option<Salary>)

  /** The payload that is hashed; SHA-256 is taken to be injective on it. */
  datatype Version = Version(
    title: string, seniority: Option<string>, employmentType: Option<string>, workMode: WorkMode, salary: Option<Salary>)

  function ComputeJobMatchVersion(job: JobFacts): Version {
    Version(job.title, job.seniority, job.employmentType, job.workMode, job.salary)
  }

  datatype Text = Text(
    trim: string -> string, normalizeTitle: string -> string, partialTitle: (string, string) -> bool,
    upper: string -> string, jobLevels: string -> seq<Seniority>, jobType: string -> Option<EmploymentType>,
    salaryPeriod: string -> Option<Period>)

  datatype Dimension = Title | SeniorityLevel | Employment | Mode | Compensation

  datatype DimensionState = Match | Partial | Gap | Unknown

  datatype Finding = Finding(dimension: Dimension, status: DimensionState, reason: string)

  // ---- the five dimensions -----------------------------------------------------

  function EvaluateTitle(text: Text, c: CandidateFacts, job: JobFacts): Finding {
    var targets := Filter(Trimmed(text, c.titles), (t: string) => t != "");
    if |targets| == 0 then Finding(Title, Unknown, "TITLE_CANDIDATE_MISSING")
    else if text.trim(job.title) == "" then Finding(Title, Unknown, "TITLE_JOB_MISSING")
    else if exists t :: t in targets && text.normalizeTitle(t) == text.normalizeTitle(job.title) then
      Finding(Title, Match, "TITLE_EXACT_MATCH")
    else if exists t :: t in targets && text.partialTitle(t, job.title) then
      Finding(Title, Partial, "TITLE_CONTROLLED_PARTIAL_MATCH")
    else Finding(Title, Gap, "TITLE_KNOWN_MISMATCH")
  }

  function Trimmed(text: Text, titles: seq<string>): seq<string> {
    seq(|titles|, i requires 0 <= i < |titles| => text.trim(titles[i]))
  }

  function SeniorityRank(s: Seniority): int {
    match s
    case Entry => 1
    case Junior => 2
    case Mid => 3
    case Senior => 4
    case Lead => 5
    case Manager => 6
    case Executive => 7
  }

  function MapCandidateSeniority(s: CandidateSeniority): Seniority {
    match s
    case Principal => Lead
    case Director => Manager
    case Level(level) => level
  }

  predicate Given(text: Option<string>) {
    text.Some? && text.value != ""
  }

  function EvaluateSeniority(text: Text, c: CandidateFacts, job: JobFacts): Finding {
    var levels := if Given(job.seniority) then text.jobLevels(text.upper(job.seniority.value)) else [];
    if c.seniority.None? then Finding(SeniorityLevel, Unknown, "SENIORITY_CANDIDATE_MISSING")
    else if |levels| == 0 then Finding(SeniorityLevel, Unknown, "SENIORITY_JOB_MISSING")
    else
      var own := MapCandidateSeniority(c.seniority.value);
      if own in levels then Finding(SeniorityLevel, Match, "SENIORITY_EXACT_MATCH")
      else if exists l :: l in levels && (SeniorityRank(l) - SeniorityRank(own) == 1 || SeniorityRank(own) - SeniorityRank(l) == 1) then
        Finding(SeniorityLevel, Partial, "SENIORITY_ADJACENT_PARTIAL")
      else Finding(SeniorityLevel, Gap, "SENIORITY_CONFIRMED_GAP")
  }

  function EvaluateEmploymentType(text: Text, c: CandidateFacts, job: JobFacts): Finding {
    var jobType := if Given(job.employmentType) then text.jobType(job.employmentType.value) else None;
    if |c.employmentTypes| == 0 then Finding(Employment, Unknown, "EMPLOYMENT_TYPE_CANDIDATE_MISSING")
    else if jobType.None? then Finding(Employment, Unknown, "EMPLOYMENT_TYPE_JOB_MISSING")
    else if jobType.value in c.employmentTypes then Finding(Employment, Match, "EMPLOYMENT_TYPE_MATCH")
    else Finding(Employment, Gap, "EMPLOYMENT_TYPE_EXCLUDED")
  }

  function AcceptedWorkModes(p: RemotePreference): set<WorkMode> {
    match p
    case OpenToAny => {Remote, Hybrid, Onsite}
    case RemoteOnly => {Remote}
    case PreferHybrid => {Hybrid, Remote}
    case PreferOnsite => {Onsite}
  }

  function EvaluateWorkMode(c: CandidateFacts, job: JobFacts): Finding {
    if c.remotePreference.None? then Finding(Mode, Unknown, "WORK_MODE_CANDIDATE_MISSING")
    else if job.workMode == UnknownMode then Finding(Mode, Unknown, "WORK_MODE_JOB_MISSING")
    else if job.workMode in AcceptedWorkModes(c.remotePreference.value) then Finding(Mode, Match, "WORK_MODE_MATCH")
    else Finding(Mode, Gap, "WORK_MODE_EXCLUDED")
  }

  /** The comparison proper, once currency and period agree. */
  function CompareSalaries(candMin: Option<int>, candMax: Option<int>, jobMin: Option<int>, jobMax: Option<int>): Finding {
    if candMin.Some? && jobMax.Some? && jobMax.value < candMin.value then
      Finding(Compensation, Gap, "COMPENSATION_BELOW_MINIMUM")
    else if candMin.Some? && (jobMin.None? || jobMin.value < candMin.value) && (jobMax.None? || jobMax.value >= candMin.value) then
      Finding(Compensation, Partial, "COMPENSATION_PARTIAL_OVERLAP")
    else if candMax.Some? && jobMin.Some? && jobMin.value > candMax.value then
      Finding(Compensation, Partial, "COMPENSATION_PARTIAL_OVERLAP")
    else Finding(Compensation, Match, "COMPENSATION_MATCH")
  }

  function EvaluateCompensation(text: Text, c: CandidateFacts, job: JobFacts): Finding {
    if c.minSalary.None? && c.maxSalary.None? then Finding(Compensation, Unknown, "COMPENSATION_CANDIDATE_MISSING")
    else if job.salary.None? || (job.salary.value.min.None? && job.salary.value.max.None?) then
      Finding(Compensation, Unknown, "COMPENSATION_MISSING")
    else
      var s := job.salary.value;
      if !Given(c.currency) || !Given(s.currency) || text.upper(c.currency.value) != text.upper(s.currency.value) then
        Finding(Compensation, Unknown, "COMPENSATION_CURRENCY_MISMATCH")
      else if c.period.None? || !Given(s.period) || text.salaryPeriod(s.period.value) != c.period then
        Finding(Compensation, Unknown, "COMPENSATION_PERIOD_MISMATCH")
      else CompareSalaries(c.minSalary, c.maxSalary, s.min, s.max)
  }

  // ---- the brief ---------------------------------------------------------------

  datatype Status = StrongAlignment | PartialAlignment | LimitedAlignment | NotCalculated

  datatype Brief = Brief(
    jobSlug: string, status: Status, coveragePercent: int, comparable: nat, primaryReason: string,
    strengths: seq<Finding>, gaps: seq<Finding>, unknowns: seq<Finding>,
    profileRevision: nat, version: Version, calculatedAt: int, dimensions: seq<Finding>)

  function Count(fs: seq<Finding>, s: DimensionState): nat {
    if fs == [] then 0 else (if fs[0].status == s then 1 else 0) + Count(fs[1..], s)
  }

  function StatusFrom(matches: nat, partials: nat, gaps: nat): Status {
    if matches + partials + gaps < 2 then NotCalculated
    else if gaps >= 2 || (gaps == 1 && matches == 0) then LimitedAlignment
    else if gaps == 0 && matches >= 2 && partials <= 1 then StrongAlignment
    else PartialAlignment
  }

  function StatusOf(fs: seq<Finding>): Status {
    StatusFrom(Count(fs, Match), Count(fs, Partial), Count(fs, Gap))
  }

  /** Math.round(part / whole * 100) on non-negative numbers. */
  function RoundedPercent(part: nat, whole: nat): int {
    if whole == 0 then 0 else (200 * part + whole) / (2 * whole)
  }

  function FirstReason(fs: seq<Finding>, s: DimensionState): Option<string> {
    if fs == [] then None else if fs[0].status == s then Some(fs[0].reason) else FirstReason(fs[1..], s)
  }

  function PrimaryReason(fs: seq<Finding>): string {
    if FirstReason(fs, Gap).Some? then FirstReason(fs, Gap).value
    else if FirstReason(fs, Match).Some? then FirstReason(fs, Match).value
    else if FirstReason(fs, Partial).Some? then FirstReason(fs, Partial).value
    else if FirstReason(fs, Unknown).Some? then FirstReason(fs, Unknown).value
    else "INSUFFICIENT_COMPARABLE_DIMENSIONS"
  }

  function Dimensions(text: Text, c: CandidateFacts, job: JobFacts): (fs: seq<Finding>)
    ensures |fs| == 5
  {
    [EvaluateTitle(text, c, job), EvaluateSeniority(text, c, job), EvaluateEmploymentType(text, c, job),
     EvaluateWorkMode(c, job), EvaluateCompensation(text, c, job)]
  }

  function Evaluate(text: Text, c: CandidateFacts, revision: nat, job: JobFacts, now: int): Brief {
    var fs := Dimensions(text, c, job);
    var status := StatusOf(fs);
    var comparable := Count(fs, Match) + Count(fs, Partial) + Count(fs, Gap);
    Brief(
      job.slug, status, RoundedPercent(comparable, comparable + Count(fs, Unknown)), comparable,
      if status == NotCalculated then "INSUFFICIENT_COMPARABLE_DIMENSIONS" else PrimaryReason(fs),
      TakeUpTo(Filter(fs, (f: Finding) => f.status == Match || f.status == Partial), 3),
      TakeUpTo(Filter(fs, (f: Finding) => f.status == Gap), 3),
      TakeUpTo(Filter(fs, (f: Finding) => f.status == Unknown), 3),
      revision, ComputeJobMatchVersion(job), now, fs)
  }

  function Summarize(b: Brief): Brief {
    b.(dimensions := [])
  }

  // ---- what the verdicts mean --------------------------------------------------

  /** Some target title, blanks aside, satisfies the test. */
  ghost predicate SomeTitle(text: Text, c: CandidateFacts, test: string -> bool) {
    exists i :: 0 <= i < |c.titles| && text.trim(c.titles[i]) != "" && test(text.trim(c.titles[i]))
  }

  /** The same normalised title is a match, a controlled pattern a partial one; without a
      target title or a job title there is nothing to compare. */
  lemma TitleVerdict(text: Text, c: CandidateFacts, job: JobFacts)
    ensures var f := EvaluateTitle(text, c, job);
      var same := (t: string) => text.normalizeTitle(t) == text.normalizeTitle(job.title);
      var known := SomeTitle(text, c, (t: string) => true) && text.trim(job.title) != "";
      && f.dimension == Title
      && (f.status == Unknown <==> !known)
      && (f.status == Match <==> known && SomeTitle(text, c, same))
      && (f.status == Partial <==>
           known && !SomeTitle(text, c, same) && SomeTitle(text, c, (t: string) => text.partialTitle(t, job.title)))
  {
    var targets := Filter(Trimmed(text, c.titles), (t: string) => t != "");
    FilterKeeps(Trimmed(text, c.titles), (t: string) => t != "");
    forall t ensures t in targets <==> exists i :: 0 <= i < |c.titles| && text.trim(c.titles[i]) != "" && text.trim(c.titles[i]) == t {
      assert t in targets <==> t in Trimmed(text, c.titles) && t != "";
      if t in targets {
        var i :| 0 <= i < |c.titles| && Trimmed(text, c.titles)[i] == t;
        assert text.trim(c.titles[i]) == t;
      }
      if i :| 0 <= i < |c.titles| && text.trim(c.titles[i]) != "" && text.trim(c.titles[i]) == t {
        assert Trimmed(text, c.titles)[i] == t;
      }
    }
    forall i | 0 <= i < |c.titles| && text.trim(c.titles[i]) != "" ensures text.trim(c.titles[i]) in targets {}
    if targets != [] { assert targets[0] in targets; }
  }

  /** From the lowest level to the highest. */
  const LADDER: seq<Seniority> := [Entry, Junior, Mid, Senior, Lead, Manager, Executive]

  /** The candidate's level on the ladder; a principal counts as a lead, a director as a manager. */
  predicate StandsAt(c: CandidateFacts, rung: nat) {
    && rung < |LADDER| && c.seniority.Some?
    && match c.seniority.value
       case Level(level) => LADDER[rung] == level
       case Principal => LADDER[rung] == Lead
       case Director => LADDER[rung] == Manager
  }

  /** A level of the job is the candidate's: match.  One is a rung away and none is the
      candidate's: partial match. */
  lemma SeniorityVerdict(text: Text, c: CandidateFacts, job: JobFacts)
    ensures var f := EvaluateSeniority(text, c, job);
      var levels := if job.seniority.Some? && job.seniority.value != "" then text.jobLevels(text.upper(job.seniority.value)) else [];
      && f.dimension == SeniorityLevel
      && (f.status == Unknown <==> c.seniority.None? || levels == [])
      && (forall rung: nat :: StandsAt(c, rung) && levels != [] ==>
           && (f.status == Match <==> LADDER[rung] in levels)
           && (f.status == Partial <==>
                && LADDER[rung] !in levels
                && ((rung + 1 < |LADDER| && LADDER[rung + 1] in levels) || (rung > 0 && LADDER[rung - 1] in levels))))
      && (c.seniority.Some? ==> exists rung: nat :: StandsAt(c, rung))
  {
    var levels := if job.seniority.Some? && job.seniority.value != "" then text.jobLevels(text.upper(job.seniority.value)) else [];
    forall rung: nat | rung < |LADDER| ensures SeniorityRank(LADDER[rung]) == rung + 1 {}
    if c.seniority.Some? {
      var own := MapCandidateSeniority(c.seniority.value);
      var at: nat := SeniorityRank(own) - 1;
      assert LADDER[at] == own && StandsAt(c, at);
      forall l ensures SeniorityRank(l) - SeniorityRank(own) == 1 <==> at + 1 < |LADDER| && LADDER[at + 1] == l {}
      forall l ensures SeniorityRank(own) - SeniorityRank(l) == 1 <==> at > 0 && LADDER[at - 1] == l {}
    }
  }

  lemma EmploymentVerdict(text: Text, c: CandidateFacts, job: JobFacts)
    ensures var f := EvaluateEmploymentType(text, c, job);
      var known := c.employmentTypes != [] && job.employmentType.Some? && job.employmentType.value != "" && text.jobType(job.employmentType.value).Some?;
      && f.dimension == Employment
      && (f.status == Unknown <==> !known) && f.status != Partial
      && (known ==> (f.status == Match <==> exists i :: 0 <= i < |c.employmentTypes| && Some(c.employmentTypes[i]) == text.jobType(job.employmentType.value)))
  {
  }

  /** Who accepts which mode. */
  predicate Accepts(p: RemotePreference, mode: WorkMode) {
    match mode
    case Remote => p == RemoteOnly || p == PreferHybrid || p == OpenToAny
    case Hybrid => p == PreferHybrid || p == OpenToAny
    case Onsite => p == PreferOnsite || p == OpenToAny
    case UnknownMode => false
  }

  lemma WorkModeVerdict(c: CandidateFacts, job: JobFacts)
    ensures var f := EvaluateWorkMode(c, job);
      var known := c.remotePreference.Some? && job.workMode != UnknownMode;
      && f.dimension == Mode
      && (f.status == Unknown <==> !known) && f.status != Partial
      && (known ==> (f.status == Match <==> Accepts(c.remotePreference.value, job.workMode)))
      && (c.remotePreference.Some? ==> forall mode :: mode in AcceptedWorkModes(c.remotePreference.value) <==> Accepts(c.remotePreference.value, mode))
  {
  }

  /** Pay is comparable in the same currency and period.  It is a gap if it ends below the
      candidate's minimum, a match if it starts at or above the minimum and not above the
      maximum, and a partial match otherwise. */
  lemma CompensationVerdict(text: Text, c: CandidateFacts, job: JobFacts)
    ensures var f := EvaluateCompensation(text, c, job);
      && f.dimension == Compensation
      && (f.status == Unknown <==> !PayIsComparable(text, c, job))
      && (PayIsComparable(text, c, job) ==>
           var pay := job.salary.value;
           var tooLow := c.minSalary.Some? && pay.max.Some? && pay.max.value < c.minSalary.value;
           && (f.status == Gap <==> tooLow)
           && (f.status == Match <==>
                && !tooLow && (c.minSalary.Some? ==> pay.min.Some? && c.minSalary.value <= pay.min.value)
                && (c.maxSalary.Some? && pay.min.Some? ==> pay.min.value <= c.maxSalary.value)))
  {
  }

  predicate PayIsComparable(text: Text, c: CandidateFacts, job: JobFacts) {
    && (c.minSalary.Some? || c.maxSalary.Some?)
    && job.salary.Some? && (job.salary.value.min.Some? || job.salary.value.max.Some?)
    && c.currency.Some? && c.currency.value != "" && job.salary.value.currency.Some? && job.salary.value.currency.value != ""
    && text.upper(c.currency.value) == text.upper(job.salary.value.currency.value)
    && c.period.Some? && job.salary.value.period.Some? && job.salary.value.period.value != ""
    && text.salaryPeriod(job.salary.value.period.value) == c.period
  }

  function States(fs: seq<Finding>): (out: seq<DimensionState>)
    ensures |out| == |fs| && forall i :: 0 <= i < |fs| ==> out[i] == fs[i].status
  {
    seq(|fs|, i requires 0 <= i < |fs| => fs[i].status)
  }

  lemma {:induction false} CountIsMultiplicity(fs: seq<Finding>, s: DimensionState)
    ensures Count(fs, s) == multiset(States(fs))[s]
    decreases |fs|
  {
    if fs != [] {
      CountIsMultiplicity(fs[1..], s);
      assert States(fs) == [fs[0].status] + States(fs[1..]);
    }
  }

  /** The reason is that of the first finding of this kind. */
  ghost predicate FirstReasonIs(fs: seq<Finding>, s: DimensionState, reason: string) {
    exists i :: 0 <= i < |fs| && IsFirstOf(fs, s, i) && fs[i].reason == reason
  }

  ghost predicate IsFirstOf(fs: seq<Finding>, s: DimensionState, i: nat) {
    i < |fs| && fs[i].status == s && forall j :: 0 <= j < i ==> fs[j].status != s
  }

  lemma {:induction false} FirstReasonMeans(fs: seq<Finding>, s: DimensionState)
    ensures FirstReason(fs, s).None? <==> Count(fs, s) == 0
    ensures FirstReason(fs, s).Some? ==> FirstReasonIs(fs, s, FirstReason(fs, s).value)
    decreases |fs|
  {
    if fs != [] {
      if fs[0].status == s {
        assert IsFirstOf(fs, s, 0);
      } else {
        FirstReasonMeans(fs[1..], s);
        if FirstReason(fs[1..], s).Some? {
          var i :| 0 <= i < |fs[1..]| && IsFirstOf(fs[1..], s, i) && fs[1..][i].reason == FirstReason(fs[1..], s).value;
          forall j | 0 <= j < i + 1 ensures fs[j].status != s {
            if j > 0 { assert fs[1..][j - 1] == fs[j]; }
          }
          assert IsFirstOf(fs, s, i + 1) && fs[i + 1] == fs[1..][i];
        }
      }
    }
  }

  /** Fewer than two comparable findings give no status; two gaps, or one with no match
      beside it, a limited one; no gap, two matches and at most one partial match a strong one. */
  ghost predicate StatusFollows(status: Status, ms: multiset<DimensionState>) {
    var m, p, g := ms[Match], ms[Partial], ms[Gap];
    && (status == NotCalculated <==> m + p + g < 2)
    && (status == LimitedAlignment <==> m + p + g >= 2 && (g >= 2 || (g == 1 && m == 0)))
    && (status == StrongAlignment <==> g == 0 && m >= 2 && p <= 1)
  }

  lemma StatusFollowsStates(fs: seq<Finding>)
    ensures StatusFollows(StatusOf(fs), multiset(States(fs)))
  {
    CountIsMultiplicity(fs, Match);
    CountIsMultiplicity(fs, Partial);
    CountIsMultiplicity(fs, Gap);
  }

  /** The reason given is that of the first gap, or else match, or else partial match. */
  lemma ReasonFollowsFindings(fs: seq<Finding>)
    requires StatusOf(fs) != NotCalculated
    ensures var ms := multiset(States(fs));
      FirstReasonIs(fs, if ms[Gap] > 0 then Gap else if ms[Match] > 0 then Match else Partial, PrimaryReason(fs))
  {
    FirstReasonMeans(fs, Gap);
    FirstReasonMeans(fs, Match);
    FirstReasonMeans(fs, Partial);
    CountIsMultiplicity(fs, Match);
    CountIsMultiplicity(fs, Partial);
    CountIsMultiplicity(fs, Gap);
  }

  /** Four of five comparable findings are a coverage of 80 percent. */
  lemma CoverageFollowsFindings(fs: seq<Finding>)
    requires |fs| == 5
    ensures var ms, comparable := multiset(States(fs)), Count(fs, Match) + Count(fs, Partial) + Count(fs, Gap);
      && comparable == ms[Match] + ms[Partial] + ms[Gap] && comparable + ms[Unknown] == 5
      && RoundedPercent(comparable, comparable + Count(fs, Unknown)) == 20 * comparable
  {
    CountIsMultiplicity(fs, Match);
    CountIsMultiplicity(fs, Partial);
    CountIsMultiplicity(fs, Gap);
    CountIsMultiplicity(fs, Unknown);
    CountsCover(fs);
  }

  lemma {:induction false} CountsCover(fs: seq<Finding>)
    ensures Count(fs, Match) + Count(fs, Partial) + Count(fs, Gap) + Count(fs, Unknown) == |fs|
    decreases |fs|
  {
    if fs != [] { CountsCover(fs[1..]); }
  }

  lemma FindingsComeInOrder(text: Text, c: CandidateFacts, job: JobFacts)
    ensures var fs := Dimensions(text, c, job);
      && fs[0].dimension == Title && fs[1].dimension == SeniorityLevel && fs[2].dimension == Employment
      && fs[3].dimension == Mode && fs[4].dimension == Compensation
  {
  }

  lemma EvaluateGathers(text: Text, c: CandidateFacts, revision: nat, job: JobFacts, now: int)
    ensures var b, fs := Evaluate(text, c, revision, job, now), Dimensions(text, c, job);
      var comparable := Count(fs, Match) + Count(fs, Partial) + Count(fs, Gap);
      && b.dimensions == fs && b.status == StatusOf(fs)
      && b.comparable == comparable && b.coveragePercent == RoundedPercent(comparable, comparable + Count(fs, Unknown))
      && b.primaryReason == (if StatusOf(fs) == NotCalculated then "INSUFFICIENT_COMPARABLE_DIMENSIONS" else PrimaryReason(fs))
  {
  }

  /** The brief names up to three strengths, gaps and unknowns, the first of each, and what
      it was computed from. */
  lemma BriefLists(text: Text, c: CandidateFacts, revision: nat, job: JobFacts, now: int)
    ensures var b, fs := Evaluate(text, c, revision, job, now), Dimensions(text, c, job);
      && b.strengths == TakeUpTo(Filter(fs, (f: Finding) => f.status == Match || f.status == Partial), 3)
      && b.gaps == TakeUpTo(Filter(fs, (f: Finding) => f.status == Gap), 3)
      && b.unknowns == TakeUpTo(Filter(fs, (f: Finding) => f.status == Unknown), 3)
      && b.jobSlug == job.slug && b.profileRevision == revision && b.calculatedAt == now && b.version == ComputeJobMatchVersion(job)
  {
  }

  /** What a brief says of its findings. */
  ghost predicate SumsUp(fs: seq<Finding>, status: Status, comparable: nat, coveragePercent: int, reason: string) {
    var ms := multiset(States(fs));
    && StatusFollows(status, ms)
    && comparable == ms[Match] + ms[Partial] + ms[Gap] && comparable + ms[Unknown] == 5 && coveragePercent == 20 * comparable
    && (if status == NotCalculated then reason == "INSUFFICIENT_COMPARABLE_DIMENSIONS"
        else FirstReasonIs(fs, if ms[Gap] > 0 then Gap else if ms[Match] > 0 then Match else Partial, reason))
  }

  lemma FindingsAreSummedUp(fs: seq<Finding>)
    requires |fs| == 5
    ensures var comparable := Count(fs, Match) + Count(fs, Partial) + Count(fs, Gap);
      SumsUp(fs, StatusOf(fs), comparable, RoundedPercent(comparable, comparable + Count(fs, Unknown)),
             if StatusOf(fs) == NotCalculated then "INSUFFICIENT_COMPARABLE_DIMENSIONS" else PrimaryReason(fs))
  {
    StatusFollowsStates(fs);
    CoverageFollowsFindings(fs);
    if StatusOf(fs) != NotCalculated { ReasonFollowsFindings(fs); }
  }

  /** The brief as a whole sums up the findings of the five dimensions, in their order. */
  lemma BriefMeans(text: Text, c: CandidateFacts, revision: nat, job: JobFacts, now: int)
    ensures var b := Evaluate(text, c, revision, job, now);
      && b.dimensions == Dimensions(text, c, job)
      && SumsUp(b.dimensions, b.status, b.comparable, b.coveragePercent, b.primaryReason)
  {
    EvaluateGathers(text, c, revision, job, now);
    GatheredSumsUp(Evaluate(text, c, revision, job, now), Dimensions(text, c, job));
  }

  lemma GatheredSumsUp(b: Brief, fs: seq<Finding>)
    requires |fs| == 5 && b.dimensions == fs && b.status == StatusOf(fs)
    requires var comparable := Count(fs, Match) + Count(fs, Partial) + Count(fs, Gap);
      b.comparable == comparable && b.coveragePercent == RoundedPercent(comparable, comparable + Count(fs, Unknown))
    requires b.primaryReason == if StatusOf(fs) == NotCalculated then "INSUFFICIENT_COMPARABLE_DIMENSIONS" else PrimaryReason(fs)
    ensures SumsUp(b.dimensions, b.status, b.comparable, b.coveragePercent, b.primaryReason)
  {
    FindingsAreSummedUp(fs);
  }

  // ---- properties --------------------------------------------------------------

  /** The hashed payload and the slug are all an evaluation sees of a job: with the same
      version two jobs of the same slug get the same brief. */
  lemma EvaluationSeesOnlyVersionAndSlug(text: Text, c: CandidateFacts, revision: nat, a: JobFacts, b: JobFacts, now: int)
    requires ComputeJobMatchVersion(a) == ComputeJobMatchVersion(b) && a.slug == b.slug
    ensures Evaluate(text, c, revision, a, now) == Evaluate(text, c, revision, b, now)
  {
    DimensionsSeeOnlyVersion(text, c, a, b);
  }

  lemma DimensionsSeeOnlyVersion(text: Text, c: CandidateFacts, a: JobFacts, b: JobFacts)
    requires ComputeJobMatchVersion(a) == ComputeJobMatchVersion(b)
    ensures Dimensions(text, c, a) == Dimensions(text, c, b)
  {
    assert EvaluateTitle(text, c, a) == EvaluateTitle(text, c, b);
    assert EvaluateSeniority(text, c, a) == EvaluateSeniority(text, c, b);
    assert EvaluateEmploymentType(text, c, a) == EvaluateEmploymentType(text, c, b);
    assert EvaluateWorkMode(c, a) == EvaluateWorkMode(c, b);
    assert EvaluateCompensation(text, c, a) == EvaluateCompensation(text, c, b);
  }

  function Tier(s: Status): int {
    match s
    case StrongAlignment => 3
    case PartialAlignment => 2
    case LimitedAlignment => 1
    case NotCalculated => 0
  }

  function Grade(s: DimensionState): int {
    match s
    case Match => 3
    case Partial => 2
    case Gap => 1
    case Unknown => 0
  }

  lemma {:induction false} CountUpdate(fs: seq<Finding>, i: nat, f: Finding, s: DimensionState)
    requires i < |fs|
    ensures Count(fs[i := f], s) == Count(fs, s) - (if fs[i].status == s then 1 else 0) + (if f.status == s then 1 else 0)
    decreases |fs|
  {
    if i > 0 {
      assert fs[i := f][1..] == fs[1..][i - 1 := f];
      CountUpdate(fs[1..], i - 1, f, s);
    } else {
      assert fs[i := f][1..] == fs[1..];
    }
  }

  /** Doing better in one comparable dimension never lowers the alignment; neither does an
      unknown dimension that turns out to be a match. */
  lemma BetterDimensionNeverLowersAlignment(fs: seq<Finding>, i: nat, f: Finding)
    requires i < |fs|
    requires (fs[i].status != Unknown && Grade(f.status) >= Grade(fs[i].status)) || (fs[i].status == Unknown && f.status == Match)
    ensures Tier(StatusOf(fs[i := f])) >= Tier(StatusOf(fs))
  {
    CountUpdate(fs, i, f, Match);
    CountUpdate(fs, i, f, Partial);
    CountUpdate(fs, i, f, Gap);
  }

  /** When one more partial match, found where nothing was known, lowers the alignment. */
  predicate PartialLowers(matches: nat, partials: nat, gaps: nat) {
    gaps == 0 && matches >= 2 && partials == 1
  }

  /** When one more gap, found where nothing was known, lowers the alignment. */
  predicate GapLowers(matches: nat, partials: nat, gaps: nat) {
    && matches + partials + gaps >= 2
    && ((gaps == 1 && matches >= 1) || (gaps == 0 && (matches == 0 || (matches >= 2 && partials <= 1))))
  }

  /** An unknown dimension that turns out to be no match can lower the alignment; this says
      exactly when, from the counts before. */
  lemma UnknownCanHideALowerAlignment(fs: seq<Finding>, i: nat, f: Finding)
    requires i < |fs| && fs[i].status == Unknown && f.status != Unknown
    ensures var m, p, g := Count(fs, Match), Count(fs, Partial), Count(fs, Gap);
      Tier(StatusOf(fs[i := f])) < Tier(StatusOf(fs))
      <==> (f.status == Partial && PartialLowers(m, p, g)) || (f.status == Gap && GapLowers(m, p, g))
  {
    CountUpdate(fs, i, f, Match);
    CountUpdate(fs, i, f, Partial);
    CountUpdate(fs, i, f, Gap);
  }

  lemma StatusComesFromDimensions(text: Text, c: CandidateFacts, revision: nat, job: JobFacts, now: int)
    ensures Evaluate(text, c, revision, job, now).status == StatusOf(Dimensions(text, c, job))
    ensures Evaluate(text, c, revision, job, now).dimensions == Dimensions(text, c, job)
  {
  }

  lemma OnlyTheModeFindingChanges(text: Text, c: CandidateFacts, job: JobFacts, mode: WorkMode)
    ensures Dimensions(text, c, job.(workMode := mode)) == Dimensions(text, c, job)[3 := EvaluateWorkMode(c, job.(workMode := mode))]
  {
    var later := job.(workMode := mode);
    assert EvaluateTitle(text, c, later) == EvaluateTitle(text, c, job);
    assert EvaluateSeniority(text, c, later) == EvaluateSeniority(text, c, job);
    assert EvaluateEmploymentType(text, c, later) == EvaluateEmploymentType(text, c, job);
    assert EvaluateCompensation(text, c, later) == EvaluateCompensation(text, c, job);
  }

  /** The same of whole briefs: a job that states its work mode at last ends lower exactly
      if the candidate does not accept that mode and the other dimensions are as above. */
  lemma StatingTheWorkModeLowersIff(text: Text, c: CandidateFacts, revision: nat, job: JobFacts, mode: WorkMode, now: int)
    requires job.workMode == UnknownMode && mode != UnknownMode
    ensures var fs := Evaluate(text, c, revision, job, now).dimensions;
      Tier(Evaluate(text, c, revision, job.(workMode := mode), now).status) < Tier(Evaluate(text, c, revision, job, now).status)
      <==> && c.remotePreference.Some? && mode !in AcceptedWorkModes(c.remotePreference.value)
           && GapLowers(Count(fs, Match), Count(fs, Partial), Count(fs, Gap))
  {
    StatusComesFromDimensions(text, c, revision, job, now);
    StatusComesFromDimensions(text, c, revision, job.(workMode := mode), now);
    OnlyTheModeFindingChanges(text, c, job, mode);
    LearntModeLowersIff(c, job, mode, Dimensions(text, c, job));
  }

  lemma LearntModeLowersIff(c: CandidateFacts, job: JobFacts, mode: WorkMode, fs: seq<Finding>)
    requires job.workMode == UnknownMode && mode != UnknownMode && |fs| == 5 && fs[3] == EvaluateWorkMode(c, job)
    ensures Tier(StatusOf(fs[3 := EvaluateWorkMode(c, job.(workMode := mode))])) < Tier(StatusOf(fs))
      <==> && c.remotePreference.Some? && mode !in AcceptedWorkModes(c.remotePreference.value)
           && GapLowers(Count(fs, Match), Count(fs, Partial), Count(fs, Gap))
  {
    var f := EvaluateWorkMode(c, job.(workMode := mode));
    if f.status == Unknown {
      assert fs[3 := f] == fs;
    } else {
      UnknownCanHideALowerAlignment(fs, 3, f);
    }
  }

  /** Text that is already normal, and a remote-only candidate at level Mid looking for
      full-time work at 50 or more a year. */
  const PLAIN := Text(
    (s: string) => s, (s: string) => s, (s: string, t: string) => false, (s: string) => s,
    (s: string) => if s == "SENIOR" then [Senior] else [Mid], (s: string) => Some(FullTime), (s: string) => Some(Annual))

  const CANDIDATE := CandidateFacts(
    ["Engineer"], Some(Level(Mid)), Some(RemoteOnly), [FullTime], Some(50), None, Some("EUR"), Some(Annual))

  const FAIR_PAY := Some(Salary(Some(40), Some(60), Some("EUR"), Some("YEAR")))

  function Offer(level: string, mode: WorkMode, salary: Option<Salary>): JobFacts {
    JobFacts(0, "job", "Engineer", Some(level), Some("FULL_TIME"), mode, salary)
  }

  /** Both ways down, on whole evaluations: a job that turns out to be on site, and one
      that turns out to pay only partly enough where the level was already one off, go
      from a strong alignment to a partial one. */
  lemma StrongAlignmentCanBeLost(revision: nat, now: int)
    ensures Evaluate(PLAIN, CANDIDATE, revision, Offer("MID", UnknownMode, None), now).status == StrongAlignment
    ensures Evaluate(PLAIN, CANDIDATE, revision, Offer("MID", Onsite, None), now).status == PartialAlignment
    ensures Evaluate(PLAIN, CANDIDATE, revision, Offer("SENIOR", Remote, None), now).status == StrongAlignment
    ensures Evaluate(PLAIN, CANDIDATE, revision, Offer("SENIOR", Remote, FAIR_PAY), now).status == PartialAlignment
  {
    OfferStatus(revision, "MID", UnknownMode, None, now);
    OfferStatus(revision, "MID", Onsite, None, now);
    OfferStatus(revision, "SENIOR", Remote, None, now);
    OfferStatus(revision, "SENIOR", Remote, FAIR_PAY, now);
  }

  /** The title and the employment type match; the level matches or is one off. */
  lemma OfferStatus(revision: nat, level: string, mode: WorkMode, salary: Option<Salary>, now: int)
    requires level == "MID" || level == "SENIOR"
    requires salary == None || salary == FAIR_PAY
    ensures var gaps := if mode in {Hybrid, Onsite} then 1 else 0;
      var partials := (if level == "SENIOR" then 1 else 0) + (if salary.Some? then 1 else 0);
      var matches := 2 + (if level == "MID" then 1 else 0) + (if mode == Remote then 1 else 0);
      Evaluate(PLAIN, CANDIDATE, revision, Offer(level, mode, salary), now).status == StatusFrom(matches, partials, gaps)
  {
    var job := Offer(level, mode, salary);
    StatusComesFromDimensions(PLAIN, CANDIDATE, revision, job, now);
    TitleMatches(job);
    SeniorIsAdjacent(level, mode, salary);
    CountFive(Dimensions(PLAIN, CANDIDATE, job), Match);
    CountFive(Dimensions(PLAIN, CANDIDATE, job), Partial);
    CountFive(Dimensions(PLAIN, CANDIDATE, job), Gap);
  }

  lemma TitleMatches(job: JobFacts)
    requires job.title == "Engineer"
    ensures EvaluateTitle(PLAIN, CANDIDATE, job).status == Match
  {
    var trimmed := Trimmed(PLAIN, CANDIDATE.titles);
    assert trimmed == ["Engineer"];
    var targets := Filter(trimmed, (t: string) => t != "");
    assert trimmed[1..] == [];
    assert targets == ["Engineer"];
    assert "Engineer" in targets && PLAIN.normalizeTitle("Engineer") == PLAIN.normalizeTitle(job.title);
  }

  lemma SeniorIsAdjacent(level: string, mode: WorkMode, salary: Option<Salary>)
    requires level == "MID" || level == "SENIOR"
    ensures EvaluateSeniority(PLAIN, CANDIDATE, Offer(level, mode, salary)).status == if level == "MID" then Match else Partial
  {
    var levels := PLAIN.jobLevels(PLAIN.upper(level));
    if level == "MID" {
      assert "MID"[0] != "SENIOR"[0];
      assert levels[0] == Mid;
    } else {
      assert levels == [Senior];
      assert SeniorityRank(Senior) - SeniorityRank(Mid) == 1 && Senior in levels;
    }
  }

  lemma CountFive(fs: seq<Finding>, s: DimensionState)
    requires |fs| == 5
    ensures Count(fs, s)
      == (if fs[0].status == s then 1 else 0) + (if fs[1].status == s then 1 else 0) + (if fs[2].status == s then 1 else 0)
         + (if fs[3].status == s then 1 else 0) + (if fs[4].status == s then 1 else 0)
  {
    assert fs[1..][1..] == fs[2..] && fs[2..][1..] == fs[3..] && fs[3..][1..] == fs[4..] && fs[4..][1..] == [];
    assert Count(fs[2..], s) == (if fs[2].status == s then 1 else 0) + Count(fs[3..], s);
    assert Count(fs[4..], s) == (if fs[4].status == s then 1 else 0) + Count([], s);
  }

  /** The salary is raised: no bound falls, a lower bound is not lost and an upper one not added. */
  predicate PaysMore(old_: Salary, new_: Salary) {
    && (old_.min.Some? ==> new_.min.Some? && new_.min.value >= old_.min.value)
    && (new_.max.Some? ==> old_.max.Some? && new_.max.value >= old_.max.value)
  }

  /** Raising what a job pays worsens its compensation verdict exactly if it was a match and
      the pay now starts above the candidate's maximum. */
  lemma HigherPayHurtsIffAboveMaximum(candMin: Option<int>, candMax: Option<int>, old_: Salary, new_: Salary)
    requires PaysMore(old_, new_)
    ensures var was, is_ := CompareSalaries(candMin, candMax, old_.min, old_.max), CompareSalaries(candMin, candMax, new_.min, new_.max);
      Grade(is_.status) < Grade(was.status)
      <==> was.status == Match && candMax.Some? && new_.min.Some? && new_.min.value > candMax.value
  {
  }

  lemma OnlyTheCompensationFindingChanges(text: Text, c: CandidateFacts, job: JobFacts, salary: Salary)
    ensures var later := job.(salary := Some(salary));
      Dimensions(text, c, later) == Dimensions(text, c, job)[4 := EvaluateCompensation(text, c, later)]
  {
    var later := job.(salary := Some(salary));
    assert EvaluateTitle(text, c, later) == EvaluateTitle(text, c, job);
    assert EvaluateSeniority(text, c, later) == EvaluateSeniority(text, c, job);
    assert EvaluateEmploymentType(text, c, later) == EvaluateEmploymentType(text, c, job);
    assert EvaluateWorkMode(c, later) == EvaluateWorkMode(c, job);
  }

  /** When one match that turns into a partial match lowers the alignment. */
  predicate LosingAMatchLowers(matches: nat, partials: nat, gaps: nat) {
    && matches + partials + gaps >= 2
    && ((gaps == 0 && partials <= 1 && (matches == 2 || (matches >= 2 && partials == 1))) || (gaps == 1 && matches == 1))
  }

  lemma LostMatchLowersIff(fs: seq<Finding>, i: nat, f: Finding)
    requires i < |fs| && fs[i].status == Match && f.status == Partial
    ensures Tier(StatusOf(fs[i := f])) < Tier(StatusOf(fs))
      <==> LosingAMatchLowers(Count(fs, Match), Count(fs, Partial), Count(fs, Gap))
  {
    CountUpdate(fs, i, f, Match);
    CountUpdate(fs, i, f, Partial);
    CountUpdate(fs, i, f, Gap);
  }

  predicate StatesPay(s: Salary) {
    s.min.Some? || s.max.Some?
  }

  /** A raise in the same currency and period. */
  predicate Raises(job: JobFacts, salary: Salary) {
    && job.salary.Some? && StatesPay(job.salary.value) && StatesPay(salary) && PaysMore(job.salary.value, salary)
    && salary.currency == job.salary.value.currency && salary.period == job.salary.value.period
  }

  /** A raise leaves the compensation finding as it is, improves it, or turns a match into a
      partial match, the last exactly as above. */
  lemma RaiseAndFinding(text: Text, c: CandidateFacts, job: JobFacts, salary: Salary)
    requires Raises(job, salary)
    ensures var was, is_ := EvaluateCompensation(text, c, job), EvaluateCompensation(text, c, job.(salary := Some(salary)));
      if was.status == Match && c.maxSalary.Some? && salary.min.Some? && salary.min.value > c.maxSalary.value
      then is_.status == Partial
      else is_ == was || (was.status != Unknown && Grade(is_.status) >= Grade(was.status))
  {
    var old_ := job.salary.value;
    if EvaluateCompensation(text, c, job).status != Unknown {
      HigherPayHurtsIffAboveMaximum(c.minSalary, c.maxSalary, old_, salary);
    }
  }

  /** The same of whole briefs: a raise lowers the alignment exactly if the pay was a match,
      now starts above the candidate's maximum, and the match was needed. */
  lemma RaiseLowersAlignmentIff(text: Text, c: CandidateFacts, revision: nat, job: JobFacts, salary: Salary, now: int)
    requires Raises(job, salary)
    ensures var later, fs := job.(salary := Some(salary)), Evaluate(text, c, revision, job, now).dimensions;
      Tier(Evaluate(text, c, revision, later, now).status) < Tier(Evaluate(text, c, revision, job, now).status)
      <==> && fs[4].status == Match && c.maxSalary.Some? && salary.min.Some? && salary.min.value > c.maxSalary.value
           && LosingAMatchLowers(Count(fs, Match), Count(fs, Partial), Count(fs, Gap))
  {
    var later := job.(salary := Some(salary));
    StatusComesFromDimensions(text, c, revision, job, now);
    StatusComesFromDimensions(text, c, revision, later, now);
    OnlyTheCompensationFindingChanges(text, c, job, salary);
    RaiseAndFinding(text, c, job, salary);
    RaisedFindingLowersIff(Dimensions(text, c, job), EvaluateCompensation(text, c, later));
  }

  /** Of a finding that stays, improves or falls from match to partial match, only the last
      can lower the alignment. */
  lemma RaisedFindingLowersIff(fs: seq<Finding>, f: Finding)
    requires |fs| == 5
    requires f == fs[4] || (fs[4].status != Unknown && Grade(f.status) >= Grade(fs[4].status)) || (fs[4].status == Match && f.status == Partial)
    ensures Tier(StatusOf(fs[4 := f])) < Tier(StatusOf(fs))
      <==> fs[4].status == Match && f.status == Partial && LosingAMatchLowers(Count(fs, Match), Count(fs, Partial), Count(fs, Gap))
  {
    if f == fs[4] {
      assert fs[4 := f] == fs;
    } else if fs[4].status == Match && f.status == Partial {
      LostMatchLowersIff(fs, 4, f);
    } else {
      BetterDimensionNeverLowersAlignment(fs, 4, f);
    }
  }

  const CAPPED := CANDIDATE.(maxSalary := Some(70))

  function Yearly(min: int, max: int): Salary {
    Salary(Some(min), Some(max), Some("EUR"), Some("YEAR"))
  }

  /** It happens: for a candidate content with 50 to 70, an offer of 60 to 70 that is raised
      to 80 to 90 goes from a strong alignment to a partial one. */
  lemma RaiseCanLoseStrongAlignment(revision: nat, now: int)
    ensures Evaluate(PLAIN, CAPPED, revision, Offer("SENIOR", Remote, Some(Yearly(60, 70))), now).status == StrongAlignment
    ensures Evaluate(PLAIN, CAPPED, revision, Offer("SENIOR", Remote, Some(Yearly(80, 90))), now).status == PartialAlignment
  {
    CappedStatus(revision, Yearly(60, 70), now);
    CappedStatus(revision, Yearly(80, 90), now);
  }

  lemma CappedStatus(revision: nat, salary: Salary, now: int)
    requires salary == Yearly(60, 70) || salary == Yearly(80, 90)
    ensures Evaluate(PLAIN, CAPPED, revision, Offer("SENIOR", Remote, Some(salary)), now).status
      == if salary == Yearly(60, 70) then StatusFrom(4, 1, 0) else StatusFrom(3, 2, 0)
  {
    var job := Offer("SENIOR", Remote, Some(salary));
    StatusComesFromDimensions(PLAIN, CAPPED, revision, job, now);
    CappedFindings(salary);
    var fs := Dimensions(PLAIN, CAPPED, job);
    CountFive(fs, Match);
    CountFive(fs, Partial);
    CountFive(fs, Gap);
  }

  lemma CappedFindings(salary: Salary)
    requires salary == Yearly(60, 70) || salary == Yearly(80, 90)
    ensures var fs := Dimensions(PLAIN, CAPPED, Offer("SENIOR", Remote, Some(salary)));
      && fs[0].status == fs[2].status == fs[3].status == Match && fs[1].status == Partial
      && fs[4].status == if salary == Yearly(60, 70) then Match else Partial
  {
    var job := Offer("SENIOR", Remote, Some(salary));
    assert EvaluateTitle(PLAIN, CAPPED, job).status == Match by {
      TitleMatches(job);
      assert EvaluateTitle(PLAIN, CAPPED, job) == EvaluateTitle(PLAIN, CANDIDATE, job);
    }
    assert EvaluateSeniority(PLAIN, CAPPED, job).status == Partial by {
      SeniorIsAdjacent("SENIOR", Remote, Some(salary));
      assert EvaluateSeniority(PLAIN, CAPPED, job) == EvaluateSeniority(PLAIN, CANDIDATE, job);
    }
  }
}
