/** Radar ranking: the comparators and what ranking and pre-ordering make of a candidate list. */
module RadarRanking {
  import opened Ordering

  datatype MatchStatus = StrongAlignment | PartialAlignment | LimitedAlignment | NotCalculated

  datatype MatchBrief = MatchBrief(status: MatchStatus, comparable: int)

  datatype Eligibility = AppearsEligible | LikelyEligible | CheckRequired | Conflicting | Undetermined

  /** Times are milliseconds. */
  datatype Candidate = Candidate(
    id: string, slug: string, cheapRank: int, active: bool, applicationUrl: string, deadline: Option<int>,
    workMode: Option<string>, employmentType: Option<string>, firstSeenAt: int, publishedAt: Option<int>)

  datatype Ranking = Ranking(
    activeApplyTier: int, matchTier: int, comparableEvidence: int, eligibilityTier: int, preferenceTier: int,
    trackedTier: int, freshnessAt: int, deadlineAt: Option<int>)

  datatype Item = Item(id: string, slug: string, rank: nat, ranking: Ranking)

  datatype SortMode = Relevance | Freshest

  /** Everything `rank` is given besides the candidates; `normalize` upper-cases an
      employment type and joins its words with underscores. */
  datatype Context = Context(
    now: int, matches: map<string, MatchBrief>, eligibility: map<string, Eligibility>, tracked: set<string>,
    workMode: Option<string>, employmentTypes: seq<string>, normalize: string -> string)

  function Freshness(c: Candidate): int {
    if c.publishedAt.Some? then c.publishedAt.value else c.firstSeenAt
  }

  predicate CanApply(c: Candidate, now: int) {
    c.active && c.applicationUrl != "" && (c.deadline.Some? ==> c.deadline.value > now)
  }

  function MatchTier(m: Option<MatchBrief>): int {
    if m.None? then 3
    else match m.value.status
      case StrongAlignment => 0
      case PartialAlignment => 1
      case LimitedAlignment => 2
      case NotCalculated => 3
  }

  function EligibilityTier(e: Option<Eligibility>): int {
    if e.None? then 3
    else match e.value
      case AppearsEligible => 0
      case LikelyEligible => 0
      case CheckRequired => 1
      case Conflicting => 2
      case Undetermined => 3
  }

  function PreferredWorkMode(preference: Option<string>): Option<string> {
    if preference == Some("REMOTE_ONLY") then Some("REMOTE")
    else if preference == Some("HYBRID") then Some("HYBRID")
    else if preference == Some("ONSITE") then Some("ONSITE")
    else None
  }

  predicate Given(text: Option<string>) {
    text.Some? && text.value != ""
  }

  function PreferenceTier(c: Candidate, ctx: Context): int {
    var wanted := PreferredWorkMode(ctx.workMode);
    (if wanted.Some? && Given(c.workMode) && wanted != c.workMode then 1 else 0)
    + (if |ctx.employmentTypes| > 0 && Given(c.employmentType) && ctx.normalize(c.employmentType.value) !in ctx.employmentTypes
       then 1 else 0)
  }

  function Lookup<V>(m: map<string, V>, key: string): Option<V> {
    if key in m then Some(m[key]) else None
  }

  function ToItem(c: Candidate, ctx: Context): Item {
    var brief := Lookup(ctx.matches, c.slug);
    Item(c.id, c.slug, 0, Ranking(
      if CanApply(c, ctx.now) then 0 else 1,
      MatchTier(brief),
      if brief.Some? then brief.value.comparable else 0,
      EligibilityTier(Lookup(ctx.eligibility, c.slug)),
      PreferenceTier(c, ctx),
      if c.slug in ctx.tracked then 1 else 0,
      Freshness(c),
      if c.deadline.Some? && c.deadline.value > ctx.now then c.deadline else None))
  }

  // ---- comparators -------------------------------------------------------------

  /** localeCompare on ids; ids are lower-case letters and digits, where it agrees with
      the byte order. */
  function CompareText(a: string, b: string): int {
    if TextLess(a, b) then -1 else if TextLess(b, a) then 1 else 0
  }

  function CompareDeadline(a: Option<int>, b: Option<int>): int {
    if a.Some? && b.Some? then a.value - b.value
    else if a.Some? then -1
    else if b.Some? then 1
    else 0
  }

  function Or(x: int, y: int): int {
    if x != 0 then x else y
  }

  function CompareTiers(a: Ranking, b: Ranking): int {
    Or(a.activeApplyTier - b.activeApplyTier,
    Or(a.matchTier - b.matchTier,
    Or(b.comparableEvidence - a.comparableEvidence,
    Or(a.eligibilityTier - b.eligibilityTier,
    Or(a.preferenceTier - b.preferenceTier,
       a.trackedTier - b.trackedTier)))))
  }

  function CompareRank(a: Item, b: Item, sort: SortMode): int {
    if sort == Freshest then
      Or(b.ranking.freshnessAt - a.ranking.freshnessAt, CompareText(a.id, b.id))
    else
      Or(CompareTiers(a.ranking, b.ranking),
      Or(b.ranking.freshnessAt - a.ranking.freshnessAt,
      Or(CompareDeadline(a.ranking.deadlineAt, b.ranking.deadlineAt),
         CompareText(a.id, b.id))))
  }

  function RankOrder(sort: SortMode): (Item, Item) -> bool {
    (a: Item, b: Item) => CompareRank(a, b, sort) < 0
  }

  function ComparePreOrder(a: Candidate, b: Candidate): int {
    Or(a.cheapRank - b.cheapRank, Or(Freshness(b) - Freshness(a), CompareText(b.id, a.id)))
  }

  const PRE_ORDER := (a: Candidate, b: Candidate) => ComparePreOrder(a, b) < 0

  // ---- ranking -----------------------------------------------------------------

  function Map<A, B>(xs: seq<A>, f: A -> B): (ys: seq<B>)
    ensures |ys| == |xs|
    ensures forall i :: 0 <= i < |xs| ==> ys[i] == f(xs[i])
  {
    seq(|xs|, i requires 0 <= i < |xs| => f(xs[i]))
  }

  function Numbered(items: seq<Item>): (out: seq<Item>)
    ensures |out| == |items|
    ensures forall i :: 0 <= i < |items| ==> out[i] == items[i].(rank := i + 1)
  {
    seq(|items|, i requires 0 <= i < |items| => items[i].(rank := i + 1))
  }

  function Rank(candidates: seq<Candidate>, ctx: Context, sort: SortMode): seq<Item> {
    Numbered(Sort(Map(candidates, (c: Candidate) => ToItem(c, ctx)), RankOrder(sort)))
  }

  function PreOrder(candidates: seq<Candidate>, max: nat): seq<Candidate> {
    TakeUpTo(Sort(candidates, PRE_ORDER), max)
  }

  /** `createSnapshot` from the candidates on: pre-order, cut, filter, rank. */
  function SnapshotItems(candidates: seq<Candidate>, max: nat, keep: Candidate -> bool, ctx: Context, sort: SortMode): seq<Item> {
    Rank(Filter(PreOrder(candidates, max), keep), ctx, sort)
  }

  // ---- the comparators are strict total orders ----------------------------------

  /** Comparing texts is antisymmetric and transitive, and ties only equal texts. */
  lemma CompareTextFacts(a: string, b: string, c: string)
    ensures CompareText(a, a) == 0
    ensures CompareText(a, b) == -CompareText(b, a)
    ensures CompareText(a, b) == 0 ==> a == b
    ensures CompareText(a, b) < 0 && CompareText(b, c) < 0 ==> CompareText(a, c) < 0
  {
    TextLessIrreflexive(a);
    if TextLess(a, b) && TextLess(b, a) {
      TextLessTransitive(a, b, a);
      assert false;
    }
    if a != b { TextLessTotal(a, b); }
    if TextLess(a, b) && TextLess(b, c) { TextLessTransitive(a, b, c); }
  }

  lemma CompareDeadlineFacts(a: Option<int>, b: Option<int>, c: Option<int>)
    ensures CompareDeadline(a, a) == 0
    ensures CompareDeadline(a, b) < 0 <==> CompareDeadline(b, a) > 0
    ensures CompareDeadline(a, b) == 0 <==> a == b
    ensures CompareDeadline(a, b) <= 0 && CompareDeadline(b, c) <= 0 ==> CompareDeadline(a, c) <= 0
    ensures CompareDeadline(a, b) < 0 && CompareDeadline(b, c) <= 0 ==> CompareDeadline(a, c) < 0
    ensures CompareDeadline(a, b) <= 0 && CompareDeadline(b, c) < 0 ==> CompareDeadline(a, c) < 0
    ensures a.Some? && b.None? ==> CompareDeadline(a, b) < 0
  {
  }

  lemma CompareTiersFacts(a: Ranking, b: Ranking, c: Ranking)
    ensures CompareTiers(a, b) < 0 <==> CompareTiers(b, a) > 0
    ensures CompareTiers(a, b) == 0 && CompareTiers(b, c) == 0 ==> CompareTiers(a, c) == 0
    ensures CompareTiers(a, b) < 0 && CompareTiers(b, c) <= 0 ==> CompareTiers(a, c) < 0
    ensures CompareTiers(a, b) <= 0 && CompareTiers(b, c) < 0 ==> CompareTiers(a, c) < 0
  {
  }

  lemma CompareRankIsTransitive(a: Item, b: Item, c: Item, sort: SortMode)
    requires CompareRank(a, b, sort) < 0 && CompareRank(b, c, sort) < 0
    ensures CompareRank(a, c, sort) < 0
  {
    CompareTextFacts(a.id, b.id, c.id);
    CompareDeadlineFacts(a.ranking.deadlineAt, b.ranking.deadlineAt, c.ranking.deadlineAt);
    CompareTiersFacts(a.ranking, b.ranking, c.ranking);
  }

  lemma CompareRankIsTotal(a: Item, b: Item, sort: SortMode)
    ensures CompareRank(a, a, sort) == 0
    ensures CompareRank(a, b, sort) < 0 <==> CompareRank(b, a, sort) > 0
    ensures CompareRank(a, b, sort) == 0 ==> a.id == b.id
  {
    CompareTextFacts(a.id, b.id, a.id);
    CompareTextFacts(a.id, a.id, a.id);
    CompareDeadlineFacts(a.ranking.deadlineAt, b.ranking.deadlineAt, a.ranking.deadlineAt);
    CompareTiersFacts(a.ranking, b.ranking, a.ranking);
  }

  /** In both sort modes, with missing deadlines last, items with different ids are
      strictly and totally ordered. */
  lemma RankOrderIsStrictTotal(items: set<Item>, sort: SortMode)
    requires forall x, y | x in items && y in items && x.id == y.id :: x == y
    ensures StrictTotalOn(RankOrder(sort), items)
  {
    var less := RankOrder(sort);
    forall a | a in items ensures !less(a, a) { CompareRankIsTotal(a, a, sort); }
    forall a, b | a in items && b in items && a != b ensures less(a, b) || less(b, a) { CompareRankIsTotal(a, b, sort); }
    forall a, b, c | a in items && b in items && c in items && less(a, b) && less(b, c) ensures less(a, c) {
      CompareRankIsTransitive(a, b, c, sort);
    }
  }

  lemma PreOrderIsStrictTotal(cs: set<Candidate>)
    requires forall x, y | x in cs && y in cs && x.id == y.id :: x == y
    ensures StrictTotalOn(PRE_ORDER, cs)
  {
    forall a, b, c | a in cs && b in cs && c in cs
      ensures !PRE_ORDER(a, a)
      ensures a != b ==> PRE_ORDER(a, b) || PRE_ORDER(b, a)
      ensures PRE_ORDER(a, b) && PRE_ORDER(b, c) ==> PRE_ORDER(a, c)
    {
      CompareTextFacts(a.id, a.id, a.id);
      CompareTextFacts(b.id, a.id, b.id);
      CompareTextFacts(c.id, b.id, a.id);
    }
  }

  // ---- what the order means ----------------------------------------------------

  /** Open, with somewhere to apply and no deadline that has passed. */
  predicate Open(c: Candidate, now: int) {
    c.active && c.applicationUrl != "" && (c.deadline.None? || now < c.deadline.value)
  }

  predicate Aligned(c: Candidate, ctx: Context, s: MatchStatus) {
    c.slug in ctx.matches && ctx.matches[c.slug].status == s
  }

  predicate SameAlignment(a: Candidate, b: Candidate, ctx: Context) {
    && (Aligned(a, ctx, StrongAlignment) <==> Aligned(b, ctx, StrongAlignment))
    && (Aligned(a, ctx, PartialAlignment) <==> Aligned(b, ctx, PartialAlignment))
    && (Aligned(a, ctx, LimitedAlignment) <==> Aligned(b, ctx, LimitedAlignment))
  }

  /** Strong before partial before limited before everything not calculated. */
  predicate BetterAligned(a: Candidate, b: Candidate, ctx: Context) {
    || (Aligned(a, ctx, StrongAlignment) && !Aligned(b, ctx, StrongAlignment))
    || (Aligned(a, ctx, PartialAlignment) && !Aligned(b, ctx, StrongAlignment) && !Aligned(b, ctx, PartialAlignment))
    || (Aligned(a, ctx, LimitedAlignment)
        && !Aligned(b, ctx, StrongAlignment) && !Aligned(b, ctx, PartialAlignment) && !Aligned(b, ctx, LimitedAlignment))
  }

  /** How many dimensions could be compared, none without a brief. */
  function Evidence(c: Candidate, ctx: Context): int {
    if c.slug in ctx.matches then ctx.matches[c.slug].comparable else 0
  }

  predicate Eligible(c: Candidate, ctx: Context) {
    c.slug in ctx.eligibility && (ctx.eligibility[c.slug] == AppearsEligible || ctx.eligibility[c.slug] == LikelyEligible)
  }

  predicate ToBeChecked(c: Candidate, ctx: Context) {
    c.slug in ctx.eligibility && ctx.eligibility[c.slug] == CheckRequired
  }

  predicate InConflict(c: Candidate, ctx: Context) {
    c.slug in ctx.eligibility && ctx.eligibility[c.slug] == Conflicting
  }

  predicate SameEligibility(a: Candidate, b: Candidate, ctx: Context) {
    && (Eligible(a, ctx) <==> Eligible(b, ctx)) && (ToBeChecked(a, ctx) <==> ToBeChecked(b, ctx))
    && (InConflict(a, ctx) <==> InConflict(b, ctx))
  }

  /** Eligible before to be checked before conflicting before everything undetermined. */
  predicate MoreEligible(a: Candidate, b: Candidate, ctx: Context) {
    || (Eligible(a, ctx) && !Eligible(b, ctx))
    || (ToBeChecked(a, ctx) && !Eligible(b, ctx) && !ToBeChecked(b, ctx))
    || (InConflict(a, ctx) && !Eligible(b, ctx) && !ToBeChecked(b, ctx) && !InConflict(b, ctx))
  }

  /** The candidate wants one work mode and the job states another. */
  predicate WrongMode(c: Candidate, ctx: Context) {
    && c.workMode.Some? && c.workMode.value != ""
    && (|| (ctx.workMode == Some("REMOTE_ONLY") && c.workMode.value != "REMOTE")
        || (ctx.workMode == Some("HYBRID") && c.workMode.value != "HYBRID")
        || (ctx.workMode == Some("ONSITE") && c.workMode.value != "ONSITE"))
  }

  /** The candidate lists employment types and the job states one that is not among them. */
  predicate WrongType(c: Candidate, ctx: Context) {
    && ctx.employmentTypes != [] && c.employmentType.Some? && c.employmentType.value != ""
    && forall i :: 0 <= i < |ctx.employmentTypes| ==> ctx.employmentTypes[i] != ctx.normalize(c.employmentType.value)
  }

  function Misses(c: Candidate, ctx: Context): int {
    (if WrongMode(c, ctx) then 1 else 0) + (if WrongType(c, ctx) then 1 else 0)
  }

  /** Publication if it is known, otherwise when the job was first seen. */
  function SeenSince(c: Candidate): int {
    match c.publishedAt case Some(at) => at case None => c.firstSeenAt
  }

  predicate HasFutureDeadline(c: Candidate, now: int) {
    c.deadline.Some? && now < c.deadline.value
  }

  /** Which of two candidates the radar puts first, from what is known of them. */
  predicate ComesFirst(a: Candidate, b: Candidate, ctx: Context, sort: SortMode) {
    if sort == Freshest then FresherFirst(a, b)
    else if Open(a, ctx.now) != Open(b, ctx.now) then Open(a, ctx.now)
    else if !SameAlignment(a, b, ctx) then BetterAligned(a, b, ctx)
    else if Evidence(a, ctx) != Evidence(b, ctx) then Evidence(a, ctx) > Evidence(b, ctx)
    else if !SameEligibility(a, b, ctx) then MoreEligible(a, b, ctx)
    else if Misses(a, ctx) != Misses(b, ctx) then Misses(a, ctx) < Misses(b, ctx)
    else if (a.slug in ctx.tracked) != (b.slug in ctx.tracked) then a.slug !in ctx.tracked
    else if SeenSince(a) != SeenSince(b) then SeenSince(a) > SeenSince(b)
    else if HasFutureDeadline(a, ctx.now) != HasFutureDeadline(b, ctx.now) then HasFutureDeadline(a, ctx.now)
    else if HasFutureDeadline(a, ctx.now) && a.deadline != b.deadline then a.deadline.value < b.deadline.value
    else TextLess(a.id, b.id)
  }

  predicate FresherFirst(a: Candidate, b: Candidate) {
    if SeenSince(a) != SeenSince(b) then SeenSince(a) > SeenSince(b) else TextLess(a.id, b.id)
  }

  /** Before enrichment: lower query rank first, then fresher, then larger id. */
  predicate CheaperFirst(a: Candidate, b: Candidate) {
    if a.cheapRank != b.cheapRank then a.cheapRank < b.cheapRank
    else if SeenSince(a) != SeenSince(b) then SeenSince(a) > SeenSince(b)
    else TextLess(b.id, a.id)
  }

  /** The tiers are these keys: a smaller tier is the better key, equal tiers the same. */
  lemma TiersMean(a: Candidate, b: Candidate, ctx: Context)
    ensures var x, y := ToItem(a, ctx).ranking, ToItem(b, ctx).ranking;
      && (x.activeApplyTier < y.activeApplyTier <==> Open(a, ctx.now) && !Open(b, ctx.now))
      && (x.matchTier == y.matchTier <==> SameAlignment(a, b, ctx)) && (x.matchTier < y.matchTier <==> BetterAligned(a, b, ctx))
      && x.comparableEvidence == Evidence(a, ctx)
      && (x.eligibilityTier == y.eligibilityTier <==> SameEligibility(a, b, ctx))
      && (x.eligibilityTier < y.eligibilityTier <==> MoreEligible(a, b, ctx))
      && x.preferenceTier == Misses(a, ctx)
      && (x.trackedTier < y.trackedTier <==> a.slug !in ctx.tracked && b.slug in ctx.tracked)
      && x.freshnessAt == SeenSince(a)
      && x.deadlineAt == if HasFutureDeadline(a, ctx.now) then a.deadline else None
  {
  }

  lemma ComparingMeansComingFirst(a: Candidate, b: Candidate, ctx: Context, sort: SortMode)
    ensures CompareRank(ToItem(a, ctx), ToItem(b, ctx), sort) < 0 <==> ComesFirst(a, b, ctx, sort)
  {
    TiersMean(a, b, ctx);
    TiersMean(b, a, ctx);
    CompareTextFacts(a.id, b.id, a.id);
    CompareTextFacts(a.id, a.id, a.id);
    TextLessIrreflexive(a.id);
    if TextLess(b.id, a.id) && TextLess(a.id, b.id) {
      TextLessTransitive(a.id, b.id, a.id);
      assert false;
    }
  }

  lemma PreOrderMeansCheaperFirst(a: Candidate, b: Candidate)
    ensures ComparePreOrder(a, b) < 0 <==> CheaperFirst(a, b)
  {
    CompareTextFacts(b.id, a.id, b.id);
    TextLessIrreflexive(a.id);
  }

  // ---- main results ------------------------------------------------------------

  ghost predicate DistinctIds(cs: seq<Candidate>) {
    forall i, j :: 0 <= i < j < |cs| ==> cs[i].id != cs[j].id
  }

  lemma ItemsAreDistinct(cs: seq<Candidate>, ctx: Context)
    requires DistinctIds(cs)
    ensures var items := Map(cs, (c: Candidate) => ToItem(c, ctx));
      && Distinct(items)
      && (forall x, y | x in Elems(items) && y in Elems(items) && x.id == y.id :: x == y)
  {
    var items := Map(cs, (c: Candidate) => ToItem(c, ctx));
    forall x, y | x in Elems(items) && y in Elems(items) && x.id == y.id ensures x == y {
      var i :| 0 <= i < |items| && items[i] == x;
      var j :| 0 <= j < |items| && items[j] == y;
      assert cs[i].id == cs[j].id;
    }
  }

  /** Ranking is best first and numbered from one. */
  lemma RankIsSorted(cs: seq<Candidate>, ctx: Context, sort: SortMode)
    requires DistinctIds(cs)
    ensures var out := Rank(cs, ctx, sort);
      && |out| == |cs|
      && (forall i :: 0 <= i < |out| ==> out[i].rank == i + 1)
      && (forall i, j :: 0 <= i < j < |out| ==> CompareRank(out[i], out[j], sort) < 0)
  {
    var items := Map(cs, (c: Candidate) => ToItem(c, ctx));
    ItemsAreDistinct(cs, ctx);
    RankOrderIsStrictTotal(Elems(items), sort);
    SortSorts(items, RankOrder(sort));
    var sorted, out := Sort(items, RankOrder(sort)), Rank(cs, ctx, sort);
    forall i, j | 0 <= i < j < |out| ensures CompareRank(out[i], out[j], sort) < 0 {
      assert RankOrder(sort)(sorted[i], sorted[j]);
    }
  }

  lemma CandidateOfItem(cs: seq<Candidate>, ctx: Context, sort: SortMode, x: nat)
    requires DistinctIds(cs) && x < |Rank(cs, ctx, sort)|
    ensures exists i :: 0 <= i < |cs| && ToItem(cs[i], ctx).(rank := x + 1) == Rank(cs, ctx, sort)[x]
  {
    var items := Map(cs, (c: Candidate) => ToItem(c, ctx));
    ItemsAreDistinct(cs, ctx);
    RankOrderIsStrictTotal(Elems(items), sort);
    SortSorts(items, RankOrder(sort));
    var sorted := Sort(items, RankOrder(sort));
    assert sorted[x] in Elems(sorted) && sorted[x] in Elems(items);
    var i :| 0 <= i < |items| && items[i] == sorted[x];
    assert ToItem(cs[i], ctx).(rank := x + 1) == Rank(cs, ctx, sort)[x];
  }

  /** The items at two places of the ranked list are those of two candidates of which the
      former comes first. */
  ghost predicate RankedFor(x: Item, y: Item, cs: seq<Candidate>, ctx: Context, sort: SortMode) {
    exists i, j ::
      && 0 <= i < |cs| && 0 <= j < |cs|
      && x.id == cs[i].id && x.slug == cs[i].slug && y.id == cs[j].id && y.slug == cs[j].slug
      && ComesFirst(cs[i], cs[j], ctx, sort)
  }

  /** Ranking puts first what should come first, judged by the candidates' own facts. */
  lemma RankPutsTheBetterFirst(cs: seq<Candidate>, ctx: Context, sort: SortMode, x: nat, y: nat)
    requires DistinctIds(cs) && x < y < |Rank(cs, ctx, sort)|
    ensures RankedFor(Rank(cs, ctx, sort)[x], Rank(cs, ctx, sort)[y], cs, ctx, sort)
  {
    RankIsSorted(cs, ctx, sort);
    CandidateOfItem(cs, ctx, sort, x);
    CandidateOfItem(cs, ctx, sort, y);
    var out := Rank(cs, ctx, sort);
    var i :| 0 <= i < |cs| && ToItem(cs[i], ctx).(rank := x + 1) == out[x];
    var j :| 0 <= j < |cs| && ToItem(cs[j], ctx).(rank := y + 1) == out[y];
    RankingIgnoresRank(ToItem(cs[i], ctx), ToItem(cs[j], ctx), out[x], out[y], sort);
    ComparingMeansComingFirst(cs[i], cs[j], ctx, sort);
  }

  lemma RankingIgnoresRank(a: Item, b: Item, x: Item, y: Item, sort: SortMode)
    requires x == a.(rank := x.rank) && y == b.(rank := y.rank)
    ensures CompareRank(x, y, sort) == CompareRank(a, b, sort)
  {
  }

  /** Ranking loses no candidate and makes none up: apart from the rank, the items are
      those of the candidates. */
  lemma RankListsEveryCandidate(cs: seq<Candidate>, ctx: Context, sort: SortMode, x: Item)
    requires DistinctIds(cs) && x.rank == 0
    ensures (exists i :: 0 <= i < |cs| && ToItem(cs[i], ctx) == x)
       <==> (exists i :: 0 <= i < |Rank(cs, ctx, sort)| && Rank(cs, ctx, sort)[i].(rank := 0) == x)
  {
    var items := Map(cs, (c: Candidate) => ToItem(c, ctx));
    ItemsAreDistinct(cs, ctx);
    RankOrderIsStrictTotal(Elems(items), sort);
    SortSorts(items, RankOrder(sort));
    SortedItemsUnranked(cs, ctx, sort);
    var sorted, out := Sort(items, RankOrder(sort)), Rank(cs, ctx, sort);
    assert x in Elems(items) <==> x in Elems(sorted);
    assert x in items <==> exists i :: 0 <= i < |cs| && ToItem(cs[i], ctx) == x by {
      if x in items { var i :| 0 <= i < |items| && items[i] == x; assert ToItem(cs[i], ctx) == x; }
      if i :| 0 <= i < |cs| && ToItem(cs[i], ctx) == x { assert items[i] == x; }
    }
    if x in sorted {
      var i :| 0 <= i < |sorted| && sorted[i] == x;
      assert out[i].(rank := 0) == x;
    }
    if i :| 0 <= i < |out| && out[i].(rank := 0) == x { assert sorted[i] == x; }
  }

  lemma SortedItemsUnranked(cs: seq<Candidate>, ctx: Context, sort: SortMode)
    requires DistinctIds(cs)
    ensures var sorted := Sort(Map(cs, (c: Candidate) => ToItem(c, ctx)), RankOrder(sort));
      forall i :: 0 <= i < |sorted| ==> sorted[i].rank == 0
  {
    var items := Map(cs, (c: Candidate) => ToItem(c, ctx));
    ItemsAreDistinct(cs, ctx);
    RankOrderIsStrictTotal(Elems(items), sort);
    SortSorts(items, RankOrder(sort));
    var sorted := Sort(items, RankOrder(sort));
    forall i | 0 <= i < |sorted| ensures sorted[i].rank == 0 {
      assert sorted[i] in Elems(sorted) && sorted[i] in Elems(items);
    }
  }

  /** The ranked list depends only on which candidates there are, not on their order. */
  lemma RankIgnoresArrivalOrder(cs: seq<Candidate>, ds: seq<Candidate>, ctx: Context, sort: SortMode)
    requires DistinctIds(cs) && DistinctIds(ds) && Elems(cs) == Elems(ds)
    ensures Rank(cs, ctx, sort) == Rank(ds, ctx, sort)
  {
    var f := (c: Candidate) => ToItem(c, ctx);
    ItemsAreDistinct(cs, ctx);
    ItemsAreDistinct(ds, ctx);
    RankOrderIsStrictTotal(Elems(Map(cs, f)), sort);
    MapElems(cs, f);
    MapElems(ds, f);
    SortIgnoresArrivalOrder(Map(cs, f), Map(ds, f), RankOrder(sort));
  }

  lemma MapElems<A, B>(xs: seq<A>, f: A -> B)
    ensures Elems(Map(xs, f)) == set x | x in Elems(xs) :: f(x)
  {
    forall y ensures y in Elems(Map(xs, f)) <==> exists x :: x in Elems(xs) && f(x) == y {
      if y in Elems(Map(xs, f)) {
        var i :| 0 <= i < |xs| && Map(xs, f)[i] == y;
        assert xs[i] in Elems(xs);
      }
      if x :| x in Elems(xs) && f(x) == y {
        var i :| 0 <= i < |xs| && xs[i] == x;
        assert Map(xs, f)[i] == y;
      }
    }
  }

  lemma DistinctIdsMeansDistinct(cs: seq<Candidate>)
    requires DistinctIds(cs)
    ensures Distinct(cs)
    ensures forall x, y | x in Elems(cs) && y in Elems(cs) && x.id == y.id :: x == y
  {
  }

  /** What is cut off by the pre-order comes after everything kept. */
  lemma PreOrderKeepsTheFirst(cs: seq<Candidate>, max: nat)
    requires DistinctIds(cs)
    ensures var kept := PreOrder(cs, max);
      && |kept| == (if |cs| < max then |cs| else max)
      && DistinctIds(kept) && Elems(kept) <= Elems(cs)
      && forall x, y :: x in Elems(kept) && y in Elems(cs) - Elems(kept) ==> CheaperFirst(x, y)
  {
    DistinctIdsMeansDistinct(cs);
    PreOrderIsStrictTotal(Elems(cs));
    SortSorts(cs, PRE_ORDER);
    var sorted, kept := Sort(cs, PRE_ORDER), PreOrder(cs, max);
    IncreasingIsDistinct(sorted, PRE_ORDER);
    assert forall i :: 0 <= i < |kept| ==> kept[i] == sorted[i];
    forall i | 0 <= i < |kept| ensures kept[i] in Elems(cs) { assert sorted[i] in Elems(sorted); }
    forall i, j | 0 <= i < j < |kept| ensures kept[i].id != kept[j].id {
      assert sorted[i] != sorted[j] && sorted[i] in Elems(cs) && sorted[j] in Elems(cs);
    }
    forall x, y | x in Elems(kept) && y in Elems(cs) - Elems(kept) ensures CheaperFirst(x, y) {
      PreOrderMeansCheaperFirst(x, y);
      var i :| 0 <= i < |kept| && kept[i] == x;
      assert y in Elems(sorted);
      var j :| 0 <= j < |sorted| && sorted[j] == y;
      assert forall k :: 0 <= k < |kept| ==> kept[k] in Elems(kept) && sorted[k] == kept[k];
      assert PRE_ORDER(sorted[i], sorted[j]);
    }
  }

  lemma {:induction false} FilterKeepsIds(cs: seq<Candidate>, keep: Candidate -> bool)
    requires DistinctIds(cs)
    ensures DistinctIds(Filter(cs, keep))
    decreases |cs|
  {
    if cs != [] {
      FilterKeepsIds(cs[1..], keep);
      FilterKeeps(cs[1..], keep);
      var rest := Filter(cs[1..], keep);
      forall j | 0 <= j < |rest| ensures cs[0].id != rest[j].id { assert rest[j] in Filter(cs[1..], keep); }
    }
  }

  lemma KeptCandidates(cs: seq<Candidate>, max: nat, keep: Candidate -> bool)
    requires DistinctIds(cs)
    ensures var kept := Filter(PreOrder(cs, max), keep);
      DistinctIds(kept) && forall c :: c in kept <==> c in PreOrder(cs, max) && keep(c)
    ensures forall c :: c in PreOrder(cs, max) ==> c in cs
  {
    PreOrderKeepsTheFirst(cs, max);
    FilterKeepsIds(PreOrder(cs, max), keep);
    FilterKeeps(PreOrder(cs, max), keep);
    forall c | c in PreOrder(cs, max) ensures c in cs { assert c in Elems(PreOrder(cs, max)) && c in Elems(cs); }
  }

  /** The snapshot shows a candidate exactly if it is among the first of the pre-order and
      passes the filter, under its own id and slug. */
  lemma SnapshotShowsTheKept(cs: seq<Candidate>, max: nat, keep: Candidate -> bool, ctx: Context, sort: SortMode, c: Candidate)
    requires DistinctIds(cs) && c in cs
    ensures var out := SnapshotItems(cs, max, keep, ctx, sort);
      c in PreOrder(cs, max) && keep(c) <==> exists x :: 0 <= x < |out| && out[x].id == c.id && out[x].slug == c.slug
  {
    var kept, out := Filter(PreOrder(cs, max), keep), SnapshotItems(cs, max, keep, ctx, sort);
    KeptCandidates(cs, max, keep);
    if c in kept {
      RankListsEveryCandidate(kept, ctx, sort, ToItem(c, ctx));
      var i :| 0 <= i < |kept| && kept[i] == c;
      assert ToItem(kept[i], ctx) == ToItem(c, ctx);
      var x :| 0 <= x < |out| && out[x].(rank := 0) == ToItem(c, ctx);
      assert out[x].id == c.id && out[x].slug == c.slug;
    }
    if x :| 0 <= x < |out| && out[x].id == c.id && out[x].slug == c.slug {
      CandidateOfItem(kept, ctx, sort, x);
      var i :| 0 <= i < |kept| && ToItem(kept[i], ctx).(rank := x + 1) == out[x];
      assert kept[i] in kept && kept[i].id == c.id;
      DistinctIdsMeansDistinct(cs);
      assert kept[i] in Elems(cs) && c in Elems(cs);
    }
  }

  /** And it shows those in the order in which they should come. */
  lemma SnapshotPutsTheBetterFirst(
    cs: seq<Candidate>, max: nat, keep: Candidate -> bool, ctx: Context, sort: SortMode, x: nat, y: nat)
    requires DistinctIds(cs) && x < y < |SnapshotItems(cs, max, keep, ctx, sort)|
    ensures RankedFor(SnapshotItems(cs, max, keep, ctx, sort)[x], SnapshotItems(cs, max, keep, ctx, sort)[y], cs, ctx, sort)
  {
    var kept, out := Filter(PreOrder(cs, max), keep), SnapshotItems(cs, max, keep, ctx, sort);
    KeptCandidates(cs, max, keep);
    RankPutsTheBetterFirst(kept, ctx, sort, x, y);
    var i, j :|
      && 0 <= i < |kept| && 0 <= j < |kept|
      && out[x].id == kept[i].id && out[x].slug == kept[i].slug && out[y].id == kept[j].id && out[y].slug == kept[j].slug
      && ComesFirst(kept[i], kept[j], ctx, sort);
    assert kept[i] in kept && kept[j] in kept;
    var a :| 0 <= a < |cs| && cs[a] == kept[i];
    var b :| 0 <= b < |cs| && cs[b] == kept[j];
    assert ComesFirst(cs[a], cs[b], ctx, sort);
  }

  /** The whole snapshot is independent of the order in which SQL returned the candidates. */
  lemma SnapshotIgnoresArrivalOrder(
    cs: seq<Candidate>, ds: seq<Candidate>, max: nat, keep: Candidate -> bool, ctx: Context, sort: SortMode)
    requires DistinctIds(cs) && DistinctIds(ds) && Elems(cs) == Elems(ds)
    ensures SnapshotItems(cs, max, keep, ctx, sort) == SnapshotItems(ds, max, keep, ctx, sort)
  {
    DistinctIdsMeansDistinct(cs);
    DistinctIdsMeansDistinct(ds);
    PreOrderIsStrictTotal(Elems(cs));
    SortIgnoresArrivalOrder(cs, ds, PRE_ORDER);
  }
}

/** Radar feed paging over a stored snapshot, and splitting work into chunks. */
module RadarFeed {
  import opened Ordering
  import opened RadarRanking

  datatype Snapshot = Snapshot(user: nat, queryKey: string, items: seq<Item>)

  const ENGINE_VERSION := "radar-v1"

  datatype Last = Last(jobId: string, rank: nat)

  datatype Cursor = Cursor(engineVersion: string, user: nat, snapshotId: nat, queryKey: string, last: Last)

  datatype Page = Page(items: seq<Item>, next: Option<Cursor>)

  /** Array.findIndex. */
  function IndexOf(items: seq<Item>, last: Last): (index: Option<nat>)
    ensures index.Some? ==>
      && index.value < |items| && items[index.value].id == last.jobId && items[index.value].rank == last.rank
      && forall i :: 0 <= i < index.value ==> items[i].id != last.jobId || items[i].rank != last.rank
    ensures index.None? ==> forall i :: 0 <= i < |items| ==> items[i].id != last.jobId || items[i].rank != last.rank
  {
    if items == [] then None
    else if items[0].id == last.jobId && items[0].rank == last.rank then Some(0)
    else
      var rest := IndexOf(items[1..], last);
      assert forall i :: 1 <= i < |items| ==> items[i] == items[1..][i - 1];
      if rest.Some? then Some(rest.value + 1) else None
  }

  function PageFrom(s: Snapshot, id: nat, start: nat, limit: Limit, canPage: bool): Page
  {
    var rest := if start < |s.items| then s.items[start..] else [];
    var items := TakeUpTo(rest, limit);
    Page(items,
         if canPage && start + limit < |s.items|
         then Some(Cursor(ENGINE_VERSION, s.user, id, s.queryKey, Last(items[|items| - 1].id, items[|items| - 1].rank)))
         else None)
  }

  /** Requests are validated to ask for at least one item. */
  type Limit = n: nat | n >= 1 witness 1

  type Cache = map<nat, Snapshot>

  /** A follow-up page; None is the 410 answer that asks to start over. */
  function NextPage(cache: Cache, user: nat, queryKey: string, cursor: Cursor, limit: Limit): Option<Page>
  {
    if cursor.user != user || cursor.queryKey != queryKey || cursor.engineVersion != ENGINE_VERSION then None
    else if cursor.snapshotId !in cache then None
    else
      var s := cache[cursor.snapshotId];
      if s.user != user || s.queryKey != queryKey then None
      else
        var index := IndexOf(s.items, cursor.last);
        if index.None? then None
        else Some(PageFrom(s, cursor.snapshotId, index.value + 1, limit, true))
  }

  predicate EndsAtItem(cursor: Cursor, item: Item) {
    cursor.last == Last(item.id, item.rank)
  }

  ghost predicate WellNumbered(items: seq<Item>) {
    forall i :: 0 <= i < |items| ==> items[i].rank == i + 1
  }

  /** The lookup lands on the last index of the previous page. */
  lemma LookupFindsLastIndex(items: seq<Item>, i: nat)
    requires WellNumbered(items) && i < |items|
    ensures IndexOf(items, Last(items[i].id, items[i].rank)) == Some(i)
  {
    var found := IndexOf(items, Last(items[i].id, items[i].rank));
    assert found.Some?;
    assert items[found.value].rank == found.value + 1;
  }

  /** How a follow-up page is got: from the cache as it is then, for a cursor and a limit. */
  type Fetcher = (Cache, Cursor, Limit) -> Option<Page>

  function FetcherOf(user: nat, queryKey: string): Fetcher {
    (cache: Cache, cursor: Cursor, limit: Limit) => NextPage(cache, user, queryKey, cursor, limit)
  }

  /** The items seen when each page's cursor is followed; between any two pages other
      snapshots may be added to the cache, or this one may be evicted. */
  function Follow(fetch: Fetcher, caches: seq<Cache>, cursor: Cursor, limits: seq<Limit>): (out: (seq<Item>, bool))
    requires |caches| == |limits|
    decreases |limits|
  {
    if limits == [] then ([], false)
    else
      var page := fetch(caches[0], cursor, limits[0]);
      if page.None? then ([], false)
      else if page.value.next.None? then (page.value.items, true)
      else
        var rest := Follow(fetch, caches[1..], page.value.next.value, limits[1..]);
        (page.value.items + rest.0, rest.1)
  }

  /** Up to n elements from index lo on. */
  function Slice<T>(xs: seq<T>, lo: nat, n: nat): seq<T>
    requires lo <= |xs|
  {
    xs[lo..if lo + n < |xs| then lo + n else |xs|]
  }

  function Sum(limits: seq<Limit>): nat {
    if limits == [] then 0 else limits[0] + Sum(limits[1..])
  }

  function CursorAt(s: Snapshot, id: nat, i: nat): Cursor
    requires i < |s.items|
  {
    Cursor(ENGINE_VERSION, s.user, id, s.queryKey, Last(s.items[i].id, s.items[i].rank))
  }

  /** The page after index i of the snapshot. */
  function PageAfter(s: Snapshot, id: nat, i: nat, limit: Limit): Page
    requires i < |s.items|
  {
    var end := if i + 1 + limit < |s.items| then i + 1 + limit else |s.items|;
    Page(s.items[i + 1..end], if end < |s.items| then Some(CursorAt(s, id, end - 1)) else None)
  }

  lemma NextPageContinues(cache: Cache, s: Snapshot, id: nat, i: nat, limit: Limit)
    requires WellNumbered(s.items) && i < |s.items|
    requires id in cache && cache[id] == s
    ensures NextPage(cache, s.user, s.queryKey, CursorAt(s, id, i), limit) == Some(PageAfter(s, id, i, limit))
  {
    LookupFindsLastIndex(s.items, i);
    assert PageFrom(s, id, i + 1, limit, true).items == PageAfter(s, id, i, limit).items;
  }

  /** The snapshot is in the cache whenever a page is asked for. */
  ghost predicate IsStoredIn(caches: seq<Cache>, id: nat, s: Snapshot) {
    forall k :: 0 <= k < |caches| ==> id in caches[k] && caches[k][id] == s
  }

  ghost predicate Continues(fetch: Fetcher, s: Snapshot, id: nat) {
    forall cache: Cache, i: nat, limit: Limit :: i < |s.items| && id in cache && cache[id] == s ==>
      fetch(cache, CursorAt(s, id, i), limit) == Some(PageAfter(s, id, i, limit))
  }

  /** Paging by index, without cursors and caches. */
  function Paged(items: seq<Item>, i: nat, limits: seq<Limit>): (out: (seq<Item>, bool))
    requires i < |items|
    decreases |limits|
  {
    if limits == [] then ([], false)
    else
      var end := if i + 1 + limits[0] < |items| then i + 1 + limits[0] else |items|;
      if end < |items| then
        var rest := Paged(items, end - 1, limits[1..]);
        (items[i + 1..end] + rest.0, rest.1)
      else (items[i + 1..end], true)
  }

  lemma {:induction false} FollowIsPaged(fetch: Fetcher, caches: seq<Cache>, s: Snapshot, id: nat, i: nat, limits: seq<Limit>)
    requires |caches| == |limits| && IsStoredIn(caches, id, s) && Continues(fetch, s, id) && i < |s.items|
    ensures Follow(fetch, caches, CursorAt(s, id, i), limits) == Paged(s.items, i, limits)
    decreases |limits|
  {
    if limits != [] {
      var page := PageAfter(s, id, i, limits[0]);
      assert fetch(caches[0], CursorAt(s, id, i), limits[0]) == Some(page);
      if page.next.Some? { FollowIsPaged(fetch, caches[1..], s, id, i + limits[0], limits[1..]); }
    }
  }

  lemma {:induction false} PagedIsSlice(items: seq<Item>, i: nat, limits: seq<Limit>)
    requires i + 1 < |items|
    ensures Paged(items, i, limits).0 == Slice(items, i + 1, Sum(limits))
    ensures Paged(items, i, limits).1 <==> i + 1 + Sum(limits) >= |items|
    decreases |limits|
  {
    if limits == [] {
      assert Slice(items, i + 1, 0) == [];
    } else {
      var end, rest := i + 1 + limits[0], Sum(limits[1..]);
      assert Sum(limits) == limits[0] + rest;
      if end < |items| {
        PagedIsSlice(items, end - 1, limits[1..]);
        JoinSlices(items, i + 1, end, rest);
      } else {
        assert Slice(items, i + 1, limits[0] + rest) == items[i + 1..|items|];
      }
    }
  }

  lemma JoinSlices<T>(xs: seq<T>, lo: nat, mid: nat, n: nat)
    requires lo <= mid <= |xs|
    ensures xs[lo..mid] + Slice(xs, mid, n) == Slice(xs, lo, (mid - lo) + n)
  {
  }

  lemma FetcherContinues(s: Snapshot, id: nat)
    requires WellNumbered(s.items)
    ensures Continues(FetcherOf(s.user, s.queryKey), s, id)
  {
    var fetch := FetcherOf(s.user, s.queryKey);
    forall cache: Cache, i: nat, limit: Limit | i < |s.items| && id in cache && cache[id] == s
      ensures fetch(cache, CursorAt(s, id, i), limit) == Some(PageAfter(s, id, i, limit))
    {
      NextPageContinues(cache, s, id, i, limit);
    }
  }

  /** Tiling.  As long as the snapshot stays in the cache, following the cursors with any
      positive limits shows the remaining items once each, in rank order, and says it is
      done exactly when nothing is left. */
  lemma PagesTileTheSnapshot(caches: seq<Cache>, s: Snapshot, id: nat, i: nat, limits: seq<Limit>)
    requires |caches| == |limits| && IsStoredIn(caches, id, s)
    requires WellNumbered(s.items) && i + 1 < |s.items|
    ensures var out := Follow(FetcherOf(s.user, s.queryKey), caches, CursorAt(s, id, i), limits);
      && out.0 == Slice(s.items, i + 1, Sum(limits))
      && (out.1 <==> i + 1 + Sum(limits) >= |s.items|)
  {
    FetcherContinues(s, id);
    FollowIsPaged(FetcherOf(s.user, s.queryKey), caches, s, id, i, limits);
    PagedIsSlice(s.items, i, limits);
  }

  /** A page is never made up from another snapshot: it is the 410 answer or it continues
      the very snapshot the cursor came from. */
  lemma PageIsContinuationOrGone(cache: Cache, s: Snapshot, id: nat, i: nat, limit: Limit, user: nat, queryKey: string)
    requires WellNumbered(s.items) && i < |s.items|
    requires id in cache ==> cache[id] == s
    ensures NextPage(cache, user, queryKey, CursorAt(s, id, i), limit).Some? <==> id in cache && user == s.user && queryKey == s.queryKey
    ensures NextPage(cache, user, queryKey, CursorAt(s, id, i), limit).Some? ==>
      NextPage(cache, user, queryKey, CursorAt(s, id, i), limit).value.items <= s.items[i + 1..]
  {
    if id in cache { NextPageContinues(cache, s, id, i, limit); }
  }

  const ENRICHMENT_LIMIT := 120

  lemma SnapshotIsNumbered(cs: seq<Candidate>, max: nat, keep: Candidate -> bool, ctx: Context, sort: SortMode)
    requires DistinctIds(cs)
    ensures WellNumbered(SnapshotItems(cs, max, keep, ctx, sort))
  {
    PreOrderKeepsTheFirst(cs, max);
    FilterKeepsIds(PreOrder(cs, max), keep);
    RankIsSorted(Filter(PreOrder(cs, max), keep), ctx, sort);
  }

  lemma FirstPageFacts(s: Snapshot, id: nat, limit: Limit, stored: bool)
    ensures var page := PageFrom(s, id, 0, limit, stored);
      && page.items == TakeUpTo(s.items, limit)
      && page.next == if stored && limit < |s.items| then Some(CursorAt(s, id, limit - 1)) else None
  {
    assert s.items[0..] == s.items;
  }

  /** The first page and then every follow-up page, with the caches found on the way. */
  function Browse(fetch: Fetcher, first: Page, caches: seq<Cache>, limits: seq<Limit>): (out: (seq<Item>, bool))
    requires |caches| == |limits|
  {
    if first.next.None? then (first.items, true)
    else
      var rest := Follow(fetch, caches, first.next.value, limits);
      (first.items + rest.0, rest.1)
  }

  /** The feed from its first page on: whatever the limits, the pages run through the ranked
      candidates from the best one on without gap or repetition, and the feed ends exactly
      when it has shown them all. */
  lemma FeedShowsTheWholeSnapshot(
    user: nat, queryKey: string, cs: seq<Candidate>, keep: Candidate -> bool, ctx: Context, sort: SortMode,
    id: nat, first: Limit, caches: seq<Cache>, limits: seq<Limit>)
    requires DistinctIds(cs) && |caches| == |limits|
    requires IsStoredIn(caches, id, Snapshot(user, queryKey, SnapshotItems(cs, ENRICHMENT_LIMIT, keep, ctx, sort)))
    ensures var items := SnapshotItems(cs, ENRICHMENT_LIMIT, keep, ctx, sort);
      var out := Browse(FetcherOf(user, queryKey), PageFrom(Snapshot(user, queryKey, items), id, 0, first, true), caches, limits);
      && out.0 == Slice(items, 0, first + Sum(limits))
      && (out.1 <==> first + Sum(limits) >= |items|)
      && (out.1 ==> out.0 == items)
  {
    SnapshotIsNumbered(cs, ENRICHMENT_LIMIT, keep, ctx, sort);
    var s := Snapshot(user, queryKey, SnapshotItems(cs, ENRICHMENT_LIMIT, keep, ctx, sort));
    FetcherContinues(s, id);
    BrowseTiles(FetcherOf(user, queryKey), s, id, first, caches, limits);
  }

  lemma BrowseTiles(fetch: Fetcher, s: Snapshot, id: nat, first: Limit, caches: seq<Cache>, limits: seq<Limit>)
    requires |caches| == |limits| && IsStoredIn(caches, id, s) && Continues(fetch, s, id)
    ensures var out := Browse(fetch, PageFrom(s, id, 0, first, true), caches, limits);
      && out.0 == Slice(s.items, 0, first + Sum(limits))
      && (out.1 <==> first + Sum(limits) >= |s.items|)
      && (out.1 ==> out.0 == s.items)
  {
    FirstPageFacts(s, id, first, true);
    if first < |s.items| {
      FollowIsPaged(fetch, caches, s, id, first - 1, limits);
      PagedIsSlice(s.items, first - 1, limits);
      JoinSlices(s.items, 0, first, Sum(limits));
      assert TakeUpTo(s.items, first) == s.items[0..first];
    }
  }

  class RadarService {
    var cache: Cache
    var nextSnapshotId: nat

    ghost predicate Valid()
      reads this
    {
      forall id :: id in cache ==> id < nextSnapshotId && WellNumbered(cache[id].items)
    }

    constructor ()
      ensures Valid() && cache == map[]
    {
      cache, nextSnapshotId := map[], 0;
    }

    /** The first page: rank the candidates, store the snapshot if the cache is up. */
    method FirstPage(
      user: nat, queryKey: string, candidates: seq<Candidate>, keep: Candidate -> bool, ctx: Context, sort: SortMode,
      limit: Limit, cacheUp: bool)
      returns (page: Page)
      requires Valid() && DistinctIds(candidates)
      modifies this
      ensures Valid()
      ensures var items := SnapshotItems(candidates, ENRICHMENT_LIMIT, keep, ctx, sort);
        var stored := Snapshot(user, queryKey, items);
        && page.items == TakeUpTo(items, limit)
        && page.next == (if cacheUp && limit < |items| then Some(CursorAt(stored, old(nextSnapshotId), limit - 1)) else None)
        && cache == (if cacheUp then old(cache)[old(nextSnapshotId) := stored] else old(cache))
    {
      var first := PreOrder(candidates, ENRICHMENT_LIMIT);
      var kept := Filter(first, keep);
      var snapshot := Snapshot(user, queryKey, Rank(kept, ctx, sort));
      SnapshotIsNumbered(candidates, ENRICHMENT_LIMIT, keep, ctx, sort);
      var id := nextSnapshotId;
      nextSnapshotId := nextSnapshotId + 1;
      if cacheUp { cache := cache[id := snapshot]; }
      page := PageFrom(snapshot, id, 0, limit, cacheUp);
      FirstPageFacts(snapshot, id, limit, cacheUp);
    }

    /** A cursor is answered exactly if it is this user's, for this query, and its snapshot
        is still cached and holds the item it ends at; then by what comes after that item. */
    method Continue(user: nat, queryKey: string, cursor: Cursor, limit: Limit) returns (page: Option<Page>)
      requires Valid()
      ensures page == NextPage(cache, user, queryKey, cursor, limit)
      ensures page.Some? <==>
        && cursor.engineVersion == ENGINE_VERSION && cursor.user == user && cursor.queryKey == queryKey
        && cursor.snapshotId in cache
        && cache[cursor.snapshotId].user == user && cache[cursor.snapshotId].queryKey == queryKey
        && exists i :: 0 <= i < |cache[cursor.snapshotId].items| && EndsAtItem(cursor, cache[cursor.snapshotId].items[i])
      ensures page.Some? ==>
        var s := cache[cursor.snapshotId];
        forall i :: 0 <= i < |s.items| && EndsAtItem(cursor, s.items[i]) ==> page.value == PageAfter(s, cursor.snapshotId, i, limit)
    {
      if cursor.user != user || cursor.queryKey != queryKey || cursor.engineVersion != ENGINE_VERSION { return None; }
      if cursor.snapshotId !in cache { return None; }
      var s := cache[cursor.snapshotId];
      if s.user != user || s.queryKey != queryKey { return None; }
      var index := IndexOf(s.items, cursor.last);
      if index.None? { return None; }
      page := Some(PageFrom(s, cursor.snapshotId, index.value + 1, limit, true));
      NextPageContinues(cache, s, cursor.snapshotId, index.value, limit);
      assert EndsAtItem(cursor, s.items[index.value]);
    }
  }

  // ---- chunks ------------------------------------------------------------------

  const CHUNK_SIZE := 50

  function Flatten<T>(parts: seq<seq<T>>): seq<T> {
    if parts == [] then [] else parts[0] + Flatten(parts[1..])
  }

  lemma {:induction false} FlattenSnoc<T>(parts: seq<seq<T>>, last: seq<T>)
    ensures Flatten(parts + [last]) == Flatten(parts) + last
    decreases |parts|
  {
    if parts == [] {
      assert (parts + [last])[1..] == [];
    } else {
      assert (parts + [last])[1..] == parts[1..] + [last];
      FlattenSnoc(parts[1..], last);
    }
  }

  function TakeAtMost<T>(xs: seq<T>, n: nat): seq<T> {
    if n < |xs| then xs[..n] else xs
  }

  lemma TakeAtMostGrows<T>(xs: seq<T>, n: nat, step: nat)
    requires n < |xs|
    ensures TakeAtMost(xs, n) + xs[n..if n + step < |xs| then n + step else |xs|] == TakeAtMost(xs, n + step)
  {
  }

  /** `chunked`: evaluating slice by slice and flattening the answers is evaluating the
      whole list, for an evaluation that treats each slug by itself. */
  method Chunked<T>(slugs: seq<string>, fn: seq<string> -> seq<T>) returns (batches: seq<seq<T>>)
    requires fn([]) == [] && forall a, b :: fn(a + b) == fn(a) + fn(b)
    ensures Flatten(batches) == fn(slugs)
    ensures |batches| == (|slugs| + CHUNK_SIZE - 1) / CHUNK_SIZE
  {
    batches := [];
    var index := 0;
    while index < |slugs|
      invariant 0 <= index && index == CHUNK_SIZE * |batches|
      invariant index - CHUNK_SIZE < |slugs| || index == 0
      invariant Flatten(batches) == fn(TakeAtMost(slugs, index))
    {
      var end := if index + CHUNK_SIZE < |slugs| then index + CHUNK_SIZE else |slugs|;
      FlattenSnoc(batches, fn(slugs[index..end]));
      TakeAtMostGrows(slugs, index, CHUNK_SIZE);
      batches := batches + [fn(slugs[index..end])];
      index := index + CHUNK_SIZE;
    }
  }
}
