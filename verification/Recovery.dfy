/** Crash and restart equivalence of the backfill.

    A run saves the records of a page one transaction at a time and then writes the
    checkpoint in a database call of its own; it may stop for good between any two of them.
    The feed answers the same page for the same cursor every time and the clock stands
    still; `pages` are the pages along the cursors from the beginning to the terminal one. */
module Recovery {
  import opened Ordering
  import opened Ingestion

  type Pages = seq<seq<Record>>

  function Flat(pages: Pages, n: nat): seq<Record>
    requires n <= |pages|
  {
    if n == 0 then [] else Flat(pages, n - 1) + pages[n - 1]
  }

  function All(pages: Pages): seq<Record> {
    Flat(pages, |pages|)
  }

  /** The position of a page's first record. */
  function Offset(pages: Pages, n: nat): nat
    requires n <= |pages|
  {
    |Flat(pages, n)|
  }

  lemma {:induction false} FlatIsPrefix(pages: Pages, k: nat, n: nat)
    requires k <= n <= |pages|
    ensures Offset(pages, k) <= Offset(pages, n) && Flat(pages, n)[..Offset(pages, k)] == Flat(pages, k)
    decreases n
  {
    if k < n { FlatIsPrefix(pages, k, n - 1); }
  }

  lemma RecordOfPage(pages: Pages, k: nat, i: nat)
    requires k < |pages| && i < |pages[k]|
    ensures Offset(pages, k) + i < |All(pages)| && All(pages)[Offset(pages, k) + i] == pages[k][i]
  {
    FlatIsPrefix(pages, k + 1, |pages|);
    assert Flat(pages, k + 1)[Offset(pages, k) + i] == pages[k][i];
    assert All(pages)[..Offset(pages, k + 1)][Offset(pages, k) + i] == pages[k][i];
  }

  // ---- interrupted runs --------------------------------------------------------

  datatype Position = Position(page: nat, index: nat)

  /** `checkpoint` is the number of the page whose cursor is stored.  `reached`, how many
      records have been saved at least once, is bookkeeping of the model, as is `stale`:
      a restarted run has not stored a checkpoint of its own yet. */
  datatype State = State(
    store: Store, checkpoint: nat, current: Option<Position>, completed: bool, reached: nat, stale: bool)

  datatype Event = Start(restart: bool) | SaveRecord | StoreCheckpoint | Stop

  type Saver = (Store, Record) -> Store

  function SaverOf(setting: Setting): Saver {
    (s: Store, r: Record) => Save(s, setting, r)
  }

  function Step(s: State, save: Saver, pages: Pages, e: Event): State {
    match e
    case Start(restart) =>
      if s.current.Some? then s
      else s.(current := Some(Position(if restart then 0 else s.checkpoint, 0)), completed := false, stale := restart)
    case SaveRecord =>
      if s.current.None? || s.current.value.page >= |pages| || s.current.value.index >= |pages[s.current.value.page]| then s
      else
        var p := s.current.value;
        var done := Offset(pages, p.page) + p.index + 1;
        s.(store := save(s.store, pages[p.page][p.index]), current := Some(p.(index := p.index + 1)),
           reached := if done > s.reached then done else s.reached)
    case StoreCheckpoint =>
      if s.current.None? || s.current.value.page >= |pages| || s.current.value.index != |pages[s.current.value.page]| then s
      else if s.current.value.page + 1 == |pages| then s.(checkpoint := 0, current := None, completed := true, stale := false)
      else s.(checkpoint := s.current.value.page + 1, current := Some(Position(s.current.value.page + 1, 0)), stale := false)
    case Stop => s.(current := None)
  }

  function Run(s: State, save: Saver, pages: Pages, es: seq<Event>): State
    decreases |es|
  {
    if es == [] then s else Run(Step(s, save, pages, es[0]), save, pages, es[1..])
  }

  function Initial(s0: Store): State {
    State(s0, 0, None, false, 0, false)
  }

  /** Every resumption is of a run that had stored its checkpoint: a restart that stopped
      before its first checkpoint is followed by another restart. */
  predicate Careful(s: State, save: Saver, pages: Pages, es: seq<Event>)
    decreases |es|
  {
    es == [] || (
      && (es[0].Start? && s.current.None? && s.stale ==> es[0].restart)
      && Careful(Step(s, save, pages, es[0]), save, pages, es[1..]))
  }

  // ---- saves as overriding writes ----------------------------------------------

  function RecordWrites(setting: Setting, r: Record): Rows {
    if Effective(r) then Writes(setting.provider, setting.source, r.job, setting.now) else map[]
  }

  /** What each record writes, as a function of the record. */
  function Writer(setting: Setting): Record -> Rows {
    (r: Record) => RecordWrites(setting, r)
  }

  function AllWrites(w: Record -> Rows, rs: seq<Record>): Rows {
    if rs == [] then map[] else AllWrites(w, rs[..|rs| - 1]) + w(rs[|rs| - 1])
  }

  lemma OneWrites(w: Record -> Rows, r: Record)
    ensures AllWrites(w, [r]) == w(r)
  {
    assert [r][..0] == [] && AllWrites(w, [r]) == AllWrites(w, []) + w(r);
    assert AllWrites(w, []) == map[] && map[] + w(r) == w(r);
  }

  lemma NextWrites(w: Record -> Rows, rs: seq<Record>, n: nat)
    requires n < |rs|
    ensures AllWrites(w, rs[..n + 1]) == AllWrites(w, rs[..n]) + w(rs[n])
  {
    assert rs[..n + 1][..n] == rs[..n] && rs[..n + 1][n] == rs[n];
  }

  lemma SaveOverrides(s: Store, setting: Setting, r: Record)
    ensures Save(s, setting, r).rows == s.rows + Writer(setting)(r)
  {
  }

  /** Saving a record overrides rows with the record's own. */
  ghost predicate Overrides(save: Saver, w: Record -> Rows) {
    forall s, r {:trigger save(s, r)} :: save(s, r).rows == s.rows + w(r)
  }

  lemma SaverOverrides(setting: Setting)
    ensures Overrides(SaverOf(setting), Writer(setting))
  {
    forall s, r ensures SaverOf(setting)(s, r).rows == s.rows + Writer(setting)(r) { SaveOverrides(s, setting, r); }
  }

  lemma UnionIsAssociative(a: Rows, b: Rows, c: Rows)
    ensures (a + b) + c == a + (b + c)
  {
  }

  lemma {:induction false} SaveAllOverrides(s: Store, setting: Setting, rs: seq<Record>)
    ensures SaveAll(s, setting, rs).rows == s.rows + AllWrites(Writer(setting), rs)
    decreases |rs|
  {
    if rs != [] {
      var front, r := rs[..|rs| - 1], rs[|rs| - 1];
      SaveAllOverrides(s, setting, front);
      SaveOverrides(SaveAll(s, setting, front), setting, r);
      UnionIsAssociative(s.rows, AllWrites(Writer(setting), front), Writer(setting)(r));
    }
  }

  lemma {:induction false} AllWritesSplit(w: Record -> Rows, a: seq<Record>, b: seq<Record>)
    ensures AllWrites(w, a + b) == AllWrites(w, a) + AllWrites(w, b)
    decreases |b|
  {
    if b == [] {
      assert a + b == a;
    } else {
      var front, r := b[..|b| - 1], b[|b| - 1];
      assert (a + b)[..|a + b| - 1] == a + front;
      AllWritesSplit(w, a, front);
      UnionIsAssociative(AllWrites(w, a), AllWrites(w, front), w(r));
    }
  }

  ghost predicate SameAt(a: Rows, b: Rows, key: Key) {
    (key in a <==> key in b) && (key in a ==> a[key] == b[key])
  }

  /** The rows are those after the first q records, except where a record from q on is
      going to write anyway. */
  ghost predicate CaughtUp(rows: Rows, start: Rows, w: Record -> Rows, rs: seq<Record>, q: nat)
    requires q <= |rs|
  {
    forall key: Key :: key !in AllWrites(w, rs[q..]) ==> SameAt(rows, start + AllWrites(w, rs[..q]), key)
  }

  lemma SplitAt(w: Record -> Rows, rs: seq<Record>, p: nat, q: nat)
    requires p <= q <= |rs|
    ensures AllWrites(w, rs[..q]) == AllWrites(w, rs[..p]) + AllWrites(w, rs[p..q])
    ensures AllWrites(w, rs[p..]) == AllWrites(w, rs[p..q]) + AllWrites(w, rs[q..])
  {
    assert rs[..q] == rs[..p] + rs[p..q] && rs[p..] == rs[p..q] + rs[q..];
    AllWritesSplit(w, rs[..p], rs[p..q]);
    AllWritesSplit(w, rs[p..q], rs[q..]);
  }

  /** Being further along is being caught up with anything before. */
  lemma CaughtUpEarlier(rows: Rows, start: Rows, w: Record -> Rows, rs: seq<Record>, p: nat, q: nat)
    requires p <= q <= |rs| && CaughtUp(rows, start, w, rs, q)
    ensures CaughtUp(rows, start, w, rs, p)
  {
    SplitAt(w, rs, p, q);
    forall key: Key ensures key !in AllWrites(w, rs[p..]) ==> SameAt(rows, start + AllWrites(w, rs[..p]), key) {
      assert key !in AllWrites(w, rs[q..]) ==> SameAt(rows, start + AllWrites(w, rs[..q]), key);
    }
  }

  lemma CaughtUpNext(rows: Rows, start: Rows, w: Record -> Rows, rs: seq<Record>, q: nat)
    requires q < |rs| && CaughtUp(rows, start, w, rs, q)
    ensures CaughtUp(rows + w(rs[q]), start, w, rs, q + 1)
  {
    SplitAt(w, rs, q, q + 1);
    NextWrites(w, rs, q);
    assert rs[q..q + 1] == [rs[q]];
    OneWrites(w, rs[q]);
    var rest, next := rs[q + 1..], start + AllWrites(w, rs[..q + 1]);
    forall key: Key ensures key !in AllWrites(w, rest) ==> SameAt(rows + w(rs[q]), next, key) {
      assert key !in AllWrites(w, rs[q..]) ==> SameAt(rows, start + AllWrites(w, rs[..q]), key);
    }
  }

  lemma CaughtUpAtEnd(rows: Rows, start: Rows, w: Record -> Rows, rs: seq<Record>)
    requires CaughtUp(rows, start, w, rs, |rs|)
    ensures rows == start + AllWrites(w, rs)
  {
    assert rs[|rs|..] == [] && rs[..|rs|] == rs;
    forall key: Key ensures SameAt(rows, start + AllWrites(w, rs), key) {
      assert key !in AllWrites(w, rs[|rs|..]);
    }
    forall key | key in rows ensures key in start + AllWrites(w, rs) && rows[key] == (start + AllWrites(w, rs))[key] {
      assert SameAt(rows, start + AllWrites(w, rs), key);
    }
    forall key | key in start + AllWrites(w, rs) ensures key in rows {
      assert SameAt(rows, start + AllWrites(w, rs), key);
    }
  }

  // ---- announcements -----------------------------------------------------------

  /** The same provider records are known, the same jobs have been announced. */
  ghost predicate SameNews(a: Store, b: Store) {
    a.events == b.events && forall key: Key :: key.ProviderKey? ==> (key in a.rows <==> key in b.rows)
  }

  lemma SaveKeepsSameNews(a: Store, b: Store, setting: Setting, r: Record)
    requires SameNews(a, b)
    ensures SameNews(Save(a, setting, r), Save(b, setting, r))
  {
  }

  /** Saving a record again announces nothing. */
  lemma SavingAgainIsNoNews(s: Store, setting: Setting, r: Record)
    requires Effective(r) ==> ProviderKey(setting.provider, r.job.externalId) in s.rows
    ensures SameNews(Save(s, setting, r), s)
  {
    if Effective(r) {
      var c := Call(setting.provider, r.job, setting.now);
      forall key: Key | key.ProviderKey? ensures key in Writes(setting.provider, setting.source, r.job, setting.now) ==> key in s.rows {
        WritesTouchOneProviderRecord(c, setting.source, key);
      }
    }
  }

  lemma {:induction false} SavedRecordsAreKnown(s0: Store, setting: Setting, rs: seq<Record>, i: nat)
    requires i < |rs| && Effective(rs[i])
    ensures ProviderKey(setting.provider, rs[i].job.externalId) in SaveAll(s0, setting, rs).rows
    decreases |rs|
  {
    SaveAllOverrides(s0, setting, rs);
    if i < |rs| - 1 {
      SaveAllOverrides(s0, setting, rs[..|rs| - 1]);
      SavedRecordsAreKnown(s0, setting, rs[..|rs| - 1], i);
    }
  }

  // ---- the invariant -----------------------------------------------------------

  predicate Bounded(s: State, pages: Pages) {
    && s.reached <= |All(pages)| && |pages| > 0
    && s.checkpoint < |pages| && Offset(pages, s.checkpoint) <= s.reached
    && (s.current.Some? ==>
         && s.current.value.page < |pages| && s.current.value.index <= |pages[s.current.value.page]|
         && Offset(pages, s.current.value.page) + s.current.value.index <= s.reached)
    && (s.completed ==> s.reached == |All(pages)|)
    && (s.stale && s.current.Some? ==> s.current.value.page == 0)
  }

  ghost predicate NewsOk(s: State, s0: Store, setting: Setting, pages: Pages) {
    s.reached <= |All(pages)| && SameNews(s.store, SaveAll(s0, setting, All(pages)[..s.reached]))
  }

  function At(s: State, pages: Pages): nat
    requires Bounded(s, pages) && s.current.Some?
  {
    Offset(pages, s.current.value.page) + s.current.value.index
  }

  lemma PositionInRange(pages: Pages, k: nat, i: nat)
    requires k < |pages| && i <= |pages[k]|
    ensures Offset(pages, k) + i <= Offset(pages, k + 1) <= |All(pages)|
    ensures Offset(pages, k) + |pages[k]| == Offset(pages, k + 1)
  {
    FlatIsPrefix(pages, k + 1, |pages|);
  }

  lemma StepStaysBounded(s: State, save: Saver, pages: Pages, e: Event)
    requires Bounded(s, pages)
    ensures Bounded(Step(s, save, pages, e), pages)
  {
    if s.current.Some? { PositionInRange(pages, s.current.value.page, s.current.value.index); }
    if e.SaveRecord? && s.current.Some? && s.current.value.index < |pages[s.current.value.page]| {
      RecordOfPage(pages, s.current.value.page, s.current.value.index);
    }
  }

  lemma NewsNext(store: Store, s0: Store, setting: Setting, rs: seq<Record>, q: nat)
    requires q < |rs| && SameNews(store, SaveAll(s0, setting, rs[..q]))
    ensures SameNews(Save(store, setting, rs[q]), SaveAll(s0, setting, rs[..q + 1]))
  {
    assert rs[..q + 1][..q] == rs[..q];
    SaveKeepsSameNews(store, SaveAll(s0, setting, rs[..q]), setting, rs[q]);
  }

  lemma NewsAgain(store: Store, s0: Store, setting: Setting, rs: seq<Record>, n: nat, q: nat)
    requires q < n <= |rs| && SameNews(store, SaveAll(s0, setting, rs[..n]))
    ensures SameNews(Save(store, setting, rs[q]), SaveAll(s0, setting, rs[..n]))
  {
    assert rs[..n][q] == rs[q];
    if Effective(rs[q]) { SavedRecordsAreKnown(s0, setting, rs[..n], q); }
    SavingAgainIsNoNews(store, setting, rs[q]);
  }

  /** What a step does to the store, and how far it gets. */
  lemma StoreAfterStep(s: State, save: Saver, pages: Pages, e: Event)
    requires Bounded(s, pages)
    ensures var t := Step(s, save, pages, e);
      if e.SaveRecord? && s.current.Some? && s.current.value.index < |pages[s.current.value.page]| then
        var q := At(s, pages);
        && q < |All(pages)| && t.store == save(s.store, All(pages)[q])
        && t.reached == if q + 1 > s.reached then q + 1 else s.reached
      else t.store == s.store && t.reached == s.reached
  {
    if e.SaveRecord? && s.current.Some? && s.current.value.index < |pages[s.current.value.page]| {
      RecordOfPage(pages, s.current.value.page, s.current.value.index);
    }
  }

  lemma NewsAfterSave(store: Store, s0: Store, setting: Setting, rs: seq<Record>, n: nat, q: nat)
    requires q <= n <= |rs| && q < |rs| && SameNews(store, SaveAll(s0, setting, rs[..n]))
    ensures SameNews(SaverOf(setting)(store, rs[q]), SaveAll(s0, setting, rs[..if q + 1 > n then q + 1 else n]))
  {
    if q == n { NewsNext(store, s0, setting, rs, q); } else { NewsAgain(store, s0, setting, rs, n, q); }
  }

  lemma StepKeepsNews(s: State, s0: Store, setting: Setting, pages: Pages, e: Event)
    requires Bounded(s, pages) && NewsOk(s, s0, setting, pages)
    ensures NewsOk(Step(s, SaverOf(setting), pages, e), s0, setting, pages)
  {
    StoreAfterStep(s, SaverOf(setting), pages, e);
    if e.SaveRecord? && s.current.Some? && s.current.value.index < |pages[s.current.value.page]| {
      NewsAfterSave(s.store, s0, setting, All(pages), s.reached, At(s, pages));
    }
  }

  // ---- careful schedules -------------------------------------------------------

  /** The position in the feed, if a run is under way. */
  function Where(s: State, pages: Pages): Option<nat>
    requires Bounded(s, pages)
  {
    if s.current.Some? then Some(At(s, pages)) else None
  }

  /** While running, the rows are caught up with the position; otherwise with the place
      where the next run may start. */
  ghost predicate RowsAt(
    rows: Rows, start: Rows, w: Record -> Rows, rs: seq<Record>, at: Option<nat>, cp: nat, stale: bool, completed: bool)
  {
    && cp <= |rs| && (at.Some? ==> at.value <= |rs| && CaughtUp(rows, start, w, rs, at.value) && (stale || cp <= at.value))
    && (at.None? ==> CaughtUp(rows, start, w, rs, if stale then 0 else cp))
    && (completed ==> at.None? && CaughtUp(rows, start, w, rs, |rs|))
  }

  lemma RowsAfterStart(rows: Rows, start: Rows, w: Record -> Rows, rs: seq<Record>, cp: nat, stale: bool, completed: bool, restart: bool)
    requires RowsAt(rows, start, w, rs, None, cp, stale, completed) && (stale ==> restart)
    ensures RowsAt(rows, start, w, rs, Some(if restart then 0 else cp), cp, restart, false)
  {
    if restart && !stale { CaughtUpEarlier(rows, start, w, rs, 0, cp); }
  }

  lemma RowsAfterSave(rows: Rows, start: Rows, w: Record -> Rows, rs: seq<Record>, q: nat, cp: nat, stale: bool)
    requires RowsAt(rows, start, w, rs, Some(q), cp, stale, false) && q < |rs|
    ensures RowsAt(rows + w(rs[q]), start, w, rs, Some(q + 1), cp, stale, false)
  {
    CaughtUpNext(rows, start, w, rs, q);
  }

  lemma RowsAfterCheckpoint(rows: Rows, start: Rows, w: Record -> Rows, rs: seq<Record>, q: nat, cp: nat, stale: bool)
    requires RowsAt(rows, start, w, rs, Some(q), cp, stale, false)
    ensures RowsAt(rows, start, w, rs, Some(q), q, false, false)
    ensures q == |rs| ==> RowsAt(rows, start, w, rs, None, 0, false, true)
  {
    CaughtUpEarlier(rows, start, w, rs, 0, q);
  }

  lemma RowsAfterStop(rows: Rows, start: Rows, w: Record -> Rows, rs: seq<Record>, at: Option<nat>, cp: nat, stale: bool, completed: bool)
    requires RowsAt(rows, start, w, rs, at, cp, stale, completed)
    ensures RowsAt(rows, start, w, rs, None, cp, stale, completed)
  {
    if at.Some? { CaughtUpEarlier(rows, start, w, rs, if stale then 0 else cp, at.value); }
  }

  /** A condition on rows, position, stored position, staleness and completion. */
  type Condition = (Rows, Option<nat>, nat, bool, bool) -> bool

  /** The condition survives what the four events do to these.  A stale run stays before
      position `first`, checkpoints up to `last`; `resumes` is whether a run may resume after
      a stale one. */
  ghost predicate Kept(inv: Condition, w: Record -> Rows, rs: seq<Record>, first: nat, last: nat, resumes: bool) {
    && (forall rows, cp: nat, stale, completed :: inv(rows, None, cp, stale, completed) && (stale ==> resumes) ==>
          inv(rows, Some(cp), cp, false, false))
    && (forall rows, cp: nat, stale, completed :: inv(rows, None, cp, stale, completed) ==> inv(rows, Some(0), cp, true, false))
    && (forall rows, next, q: nat, r: nat, cp: nat, stale ::
          inv(rows, Some(q), cp, stale, false) && q < |rs| && (stale ==> q < first) && next == rows + w(rs[q]) && r == q + 1 ==>
            inv(next, Some(r), cp, stale, false))
    && (forall rows, q: nat, cp: nat, stale :: inv(rows, Some(q), cp, stale, false) ==>
          && (q <= last ==> inv(rows, Some(q), q, false, false))
          && (q == |rs| ==> inv(rows, None, 0, false, true)))
    && (forall rows, at, cp: nat, stale, completed :: inv(rows, at, cp, stale, completed) ==> inv(rows, None, cp, stale, completed))
    && (forall rows, q: nat, cp: nat, stale :: !inv(rows, Some(q), cp, stale, true))
  }

  ghost function CaughtUpCondition(start: Rows, w: Record -> Rows, rs: seq<Record>): Condition {
    (rows: Rows, at: Option<nat>, cp: nat, stale: bool, completed: bool) => RowsAt(rows, start, w, rs, at, cp, stale, completed)
  }

  lemma CaughtUpIsKept(start: Rows, w: Record -> Rows, rs: seq<Record>, first: nat, last: nat)
    ensures Kept(CaughtUpCondition(start, w, rs), w, rs, first, last, false)
  {
    forall rows, cp: nat, completed | RowsAt(rows, start, w, rs, None, cp, false, completed)
      ensures RowsAt(rows, start, w, rs, Some(cp), cp, false, false)
    { RowsAfterStart(rows, start, w, rs, cp, false, completed, false); }
    forall rows, cp: nat, stale, completed | RowsAt(rows, start, w, rs, None, cp, stale, completed)
      ensures RowsAt(rows, start, w, rs, Some(0), cp, true, false)
    { RowsAfterStart(rows, start, w, rs, cp, stale, completed, true); }
    forall rows, next, q: nat, r: nat, cp: nat, stale |
        RowsAt(rows, start, w, rs, Some(q), cp, stale, false) && q < |rs| && next == rows + w(rs[q]) && r == q + 1
      ensures RowsAt(next, start, w, rs, Some(r), cp, stale, false)
    { RowsAfterSave(rows, start, w, rs, q, cp, stale); }
    forall rows, q: nat, cp: nat, stale | RowsAt(rows, start, w, rs, Some(q), cp, stale, false)
      ensures RowsAt(rows, start, w, rs, Some(q), q, false, false) && (q == |rs| ==> RowsAt(rows, start, w, rs, None, 0, false, true))
    { RowsAfterCheckpoint(rows, start, w, rs, q, cp, stale); }
    forall rows, at, cp: nat, stale, completed | RowsAt(rows, start, w, rs, at, cp, stale, completed)
      ensures RowsAt(rows, start, w, rs, None, cp, stale, completed)
    { RowsAfterStop(rows, start, w, rs, at, cp, stale, completed); }
  }

  /** Where the first page ends and where the last one begins. */
  function FirstEnd(pages: Pages): nat
    requires |pages| > 0
  {
    Offset(pages, 1)
  }

  function LastStart(pages: Pages): nat
    requires |pages| > 0
  {
    Offset(pages, |pages| - 1)
  }

  ghost predicate KeptOn(inv: Condition, w: Record -> Rows, pages: Pages, resumes: bool)
    requires |pages| > 0
  {
    Kept(inv, w, All(pages), FirstEnd(pages), LastStart(pages), resumes)
  }

  ghost predicate RowsOk(s: State, inv: Condition, pages: Pages)
    requires Bounded(s, pages)
  {
    inv(s.store.rows, Where(s, pages), Offset(pages, s.checkpoint), s.stale, s.completed)
  }

  /** How an enabled step moves the position and the checkpoint. */
  lemma StepMoves(s: State, save: Saver, pages: Pages, e: Event)
    requires Bounded(s, pages)
    ensures var t, rs := Step(s, save, pages, e), All(pages);
      && Bounded(t, pages)
      && (e.SaveRecord? && t != s ==>
           && s.current.Some? && At(s, pages) < |rs|
           && t.store == save(s.store, rs[At(s, pages)]) && Where(t, pages) == Some(At(s, pages) + 1)
           && (s.stale ==> At(s, pages) < FirstEnd(pages))
           && t.checkpoint == s.checkpoint && t.stale == s.stale && t.completed == s.completed
           && t.reached == if At(s, pages) == s.reached then s.reached + 1 else s.reached)
      && (e.StoreCheckpoint? && t != s ==>
           && s.current.Some? && t.store == s.store && !t.stale
           && ((Where(t, pages) == Some(At(s, pages)) && Offset(pages, t.checkpoint) == At(s, pages) <= LastStart(pages) && t.completed == s.completed)
               || (At(s, pages) == |rs| && Where(t, pages).None? && t.checkpoint == 0 && t.completed)))
  {
    StepStaysBounded(s, save, pages, e);
    if s.current.Some? {
      var k, i := s.current.value.page, s.current.value.index;
      PositionInRange(pages, k, i);
      if k + 1 < |pages| { FlatIsPrefix(pages, k + 1, |pages| - 1); }
      if i < |pages[k]| { RecordOfPage(pages, k, i); }
    }
  }

  lemma StartKeepsRows(s: State, inv: Condition, save: Saver, w: Record -> Rows, pages: Pages, resumes: bool, restart: bool)
    requires Bounded(s, pages) && KeptOn(inv, w, pages, resumes) && RowsOk(s, inv, pages)
    requires s.current.None? && (s.stale && !resumes ==> restart)
    ensures Bounded(Step(s, save, pages, Start(restart)), pages) && RowsOk(Step(s, save, pages, Start(restart)), inv, pages)
  {
    StepStaysBounded(s, save, pages, Start(restart));
    var rows, cp := s.store.rows, Offset(pages, s.checkpoint);
    assert inv(rows, None, cp, s.stale, s.completed);
    assert inv(rows, Some(if restart then 0 else cp), cp, restart, false);
  }

  lemma SaveKeepsRows(s: State, inv: Condition, save: Saver, w: Record -> Rows, pages: Pages, resumes: bool)
    requires Overrides(save, w) && Bounded(s, pages) && KeptOn(inv, w, pages, resumes) && RowsOk(s, inv, pages)
    requires Step(s, save, pages, SaveRecord) != s
    ensures Bounded(Step(s, save, pages, SaveRecord), pages) && RowsOk(Step(s, save, pages, SaveRecord), inv, pages)
  {
    StepMoves(s, save, pages, SaveRecord);
    var q, rows, rs, cp := At(s, pages), s.store.rows, All(pages), Offset(pages, s.checkpoint);
    var next, r: nat := rows + w(rs[q]), q + 1;
    assert save(s.store, rs[q]).rows == next;
    KeptOnSave(inv, w, rs, FirstEnd(pages), LastStart(pages), resumes, rows, q, cp, s.stale, s.completed);
  }

  lemma KeptOnSave(
    inv: Condition, w: Record -> Rows, rs: seq<Record>, first: nat, last: nat, resumes: bool,
    rows: Rows, q: nat, cp: nat, stale: bool, completed: bool)
    requires Kept(inv, w, rs, first, last, resumes) && inv(rows, Some(q), cp, stale, completed) && q < |rs| && (stale ==> q < first)
    ensures !completed && inv(rows + w(rs[q]), Some(q + 1), cp, stale, false)
  {
    var next, r: nat := rows + w(rs[q]), q + 1;
    assert inv(next, Some(r), cp, stale, false);
  }

  lemma CheckpointKeepsRows(s: State, inv: Condition, save: Saver, w: Record -> Rows, pages: Pages, resumes: bool)
    requires Bounded(s, pages) && KeptOn(inv, w, pages, resumes) && RowsOk(s, inv, pages)
    requires Step(s, save, pages, StoreCheckpoint) != s
    ensures Bounded(Step(s, save, pages, StoreCheckpoint), pages) && RowsOk(Step(s, save, pages, StoreCheckpoint), inv, pages)
  {
    StepMoves(s, save, pages, StoreCheckpoint);
    assert inv(s.store.rows, Some(At(s, pages)), Offset(pages, s.checkpoint), s.stale, s.completed);
  }

  lemma StopKeepsRows(s: State, inv: Condition, save: Saver, w: Record -> Rows, pages: Pages, resumes: bool)
    requires Bounded(s, pages) && KeptOn(inv, w, pages, resumes) && RowsOk(s, inv, pages)
    ensures Bounded(Step(s, save, pages, Stop), pages) && RowsOk(Step(s, save, pages, Stop), inv, pages)
  {
    StepStaysBounded(s, save, pages, Stop);
    assert inv(s.store.rows, Where(s, pages), Offset(pages, s.checkpoint), s.stale, s.completed);
  }

  lemma StepKeepsRows(s: State, inv: Condition, save: Saver, w: Record -> Rows, pages: Pages, resumes: bool, e: Event)
    requires Overrides(save, w) && Bounded(s, pages) && KeptOn(inv, w, pages, resumes) && RowsOk(s, inv, pages)
    requires e.Start? && s.current.None? && s.stale && !resumes ==> e.restart
    ensures Bounded(Step(s, save, pages, e), pages) && RowsOk(Step(s, save, pages, e), inv, pages)
  {
    if Step(s, save, pages, e) != s {
      match e
      case Start(restart) => StartKeepsRows(s, inv, save, w, pages, resumes, restart);
      case SaveRecord => SaveKeepsRows(s, inv, save, w, pages, resumes);
      case StoreCheckpoint => CheckpointKeepsRows(s, inv, save, w, pages, resumes);
      case Stop => StopKeepsRows(s, inv, save, w, pages, resumes);
    }
  }

  lemma {:induction false} RunKeepsRows(s: State, inv: Condition, save: Saver, w: Record -> Rows, pages: Pages, resumes: bool, es: seq<Event>)
    requires Overrides(save, w) && Bounded(s, pages) && KeptOn(inv, w, pages, resumes) && RowsOk(s, inv, pages)
    requires resumes || Careful(s, save, pages, es)
    ensures Bounded(Run(s, save, pages, es), pages) && RowsOk(Run(s, save, pages, es), inv, pages)
    decreases |es|
  {
    if es != [] {
      StepKeepsRows(s, inv, save, w, pages, resumes, es[0]);
      RunKeepsRows(Step(s, save, pages, es[0]), inv, save, w, pages, resumes, es[1..]);
    }
  }

  lemma InitialIsOk(s0: Store, setting: Setting, pages: Pages)
    requires |pages| > 0
    ensures var s := Initial(s0);
      && Bounded(s, pages) && NewsOk(s, s0, setting, pages)
      && RowsOk(s, CaughtUpCondition(s0.rows, Writer(setting), All(pages)), pages)
  {
    var rs := All(pages);
    assert rs[..0] == [];
    assert s0.rows + map[] == s0.rows;
  }

  /** Crash and restart equivalence.  However often a backfill is killed, between whichever
      records, cut off after some pages, resumed or restarted: whenever it has come to the
      terminal cursor, all rows and all outbox events are those of one uninterrupted run. */
  lemma BackfillSurvivesCrashes(s0: Store, setting: Setting, pages: Pages, es: seq<Event>)
    requires |pages| > 0 && Careful(Initial(s0), SaverOf(setting), pages, es)
    requires Run(Initial(s0), SaverOf(setting), pages, es).completed
    ensures Run(Initial(s0), SaverOf(setting), pages, es).store == SaveAll(s0, setting, All(pages))
  {
    var w, rs, t := Writer(setting), All(pages), Run(Initial(s0), SaverOf(setting), pages, es);
    InitialIsOk(s0, setting, pages);
    SaverOverrides(setting);
    CaughtUpIsKept(s0.rows, w, rs, FirstEnd(pages), LastStart(pages));
    RunKeepsRows(Initial(s0), CaughtUpCondition(s0.rows, w, rs), SaverOf(setting), w, pages, false, es);
    CaughtUpAtEnd(t.store.rows, s0.rows, w, rs);
    SaveAllOverrides(s0, setting, rs);
    EventsSurviveAnySchedule(Initial(s0), s0, setting, pages, es);
  }

  /** Whatever the schedule, careful or not, the announced jobs are the right ones. */
  lemma {:induction false} EventsSurviveAnySchedule(s: State, s0: Store, setting: Setting, pages: Pages, es: seq<Event>)
    requires Bounded(s, pages) && NewsOk(s, s0, setting, pages)
    ensures var t := Run(s, SaverOf(setting), pages, es);
      Bounded(t, pages) && NewsOk(t, s0, setting, pages)
      && (t.completed ==> t.store.events == SaveAll(s0, setting, All(pages)).events)
    decreases |es|
  {
    if es == [] {
      if s.completed { assert All(pages)[..s.reached] == All(pages); }
    } else {
      StepStaysBounded(s, SaverOf(setting), pages, es[0]);
      StepKeepsNews(s, s0, setting, pages, es[0]);
      EventsSurviveAnySchedule(Step(s, SaverOf(setting), pages, es[0]), s0, setting, pages, es[1..]);
    }
  }

  // ---- careless schedules ------------------------------------------------------

  /** The records of the first page say what the whole feed says, about every row that the
      last page does not write. */
  ghost predicate FirstPageStands(w: Record -> Rows, pages: Pages)
    requires |pages| > 0
  {
    forall i, key :: 0 <= i < |pages[0]| && key in w(pages[0][i]) && key !in AllWrites(w, pages[|pages| - 1]) ==>
      key in AllWrites(w, All(pages)) && w(pages[0][i])[key] == AllWrites(w, All(pages))[key]
  }

  /** The same by positions in the feed. */
  ghost predicate Stands(w: Record -> Rows, rs: seq<Record>, first: nat, last: nat)
    requires first <= |rs| && last <= |rs|
  {
    forall q, key :: 0 <= q < first && key in w(rs[q]) && key !in AllWrites(w, rs[last..]) ==>
      key in AllWrites(w, rs) && w(rs[q])[key] == AllWrites(w, rs)[key]
  }

  lemma FeedEnds(pages: Pages)
    requires |pages| > 0
    ensures FirstEnd(pages) == |pages[0]| <= |All(pages)| && LastStart(pages) <= |All(pages)|
    ensures All(pages)[LastStart(pages)..] == pages[|pages| - 1]
    ensures forall i :: 0 <= i < |pages[0]| ==> All(pages)[i] == pages[0][i]
  {
    assert Flat(pages, 0) == [] && Flat(pages, 1) == pages[0];
    FlatIsPrefix(pages, 1, |pages|);
    forall i | 0 <= i < |pages[0]| ensures All(pages)[i] == pages[0][i] {
      assert All(pages)[..Offset(pages, 1)][i] == pages[0][i];
    }
  }

  lemma StandsByPosition(w: Record -> Rows, pages: Pages)
    requires |pages| > 0 && FirstPageStands(w, pages)
    ensures FirstEnd(pages) <= |All(pages)| && LastStart(pages) <= |All(pages)|
    ensures Stands(w, All(pages), FirstEnd(pages), LastStart(pages))
  {
    FeedEnds(pages);
  }

  /** While a stale run is under way the rows are caught up both with its position and with
      the stored checkpoint. */
  ghost predicate HeldAt(
    rows: Rows, start: Rows, w: Record -> Rows, rs: seq<Record>, last: nat, at: Option<nat>, cp: nat, stale: bool, completed: bool)
  {
    && cp <= last <= |rs| && CaughtUp(rows, start, w, rs, cp)
    && (at.Some? ==> at.value <= |rs| && CaughtUp(rows, start, w, rs, at.value) && (stale || cp <= at.value))
    && (completed ==> at.None? && CaughtUp(rows, start, w, rs, |rs|))
  }

  lemma HeldAfterSave(rows: Rows, start: Rows, w: Record -> Rows, rs: seq<Record>, first: nat, last: nat, q: nat, cp: nat, stale: bool)
    requires first <= |rs| && last <= |rs| && Stands(w, rs, first, last)
    requires HeldAt(rows, start, w, rs, last, Some(q), cp, stale, false) && q < |rs| && (stale ==> q < first)
    ensures HeldAt(rows + w(rs[q]), start, w, rs, last, Some(q + 1), cp, stale, false)
  {
    CaughtUpNext(rows, start, w, rs, q);
    if cp <= q {
      CaughtUpEarlier(rows + w(rs[q]), start, w, rs, cp, q + 1);
    } else {
      StaleSaveKeepsCheckpoint(rows, start, w, rs, first, last, q, cp);
    }
  }

  lemma StaleSaveKeepsCheckpoint(rows: Rows, start: Rows, w: Record -> Rows, rs: seq<Record>, first: nat, last: nat, q: nat, cp: nat)
    requires first <= |rs| && q < first && q < cp <= last <= |rs| && Stands(w, rs, first, last)
    requires CaughtUp(rows, start, w, rs, cp)
    ensures CaughtUp(rows + w(rs[q]), start, w, rs, cp)
  {
    var rest, done := rs[cp..], AllWrites(w, rs[..cp]);
    forall key: Key ensures key !in AllWrites(w, rest) ==> SameAt(rows + w(rs[q]), start + done, key) {
      assert key !in AllWrites(w, rest) ==> SameAt(rows, start + done, key);
      if key !in AllWrites(w, rest) && key in w(rs[q]) { StaleWriteStands(w, rs, first, last, q, cp, key); }
    }
  }

  lemma StaleWriteStands(w: Record -> Rows, rs: seq<Record>, first: nat, last: nat, q: nat, cp: nat, key: Key)
    requires first <= |rs| && q < first && q < cp <= last <= |rs| && Stands(w, rs, first, last)
    requires key in w(rs[q]) && key !in AllWrites(w, rs[cp..])
    ensures key in AllWrites(w, rs[..cp]) && AllWrites(w, rs[..cp])[key] == w(rs[q])[key]
  {
    assert key !in AllWrites(w, rs[last..]) by { SplitAt(w, rs, cp, last); }
    assert key in AllWrites(w, rs) && AllWrites(w, rs)[key] == w(rs[q])[key];
    assert AllWrites(w, rs) == AllWrites(w, rs[..cp]) + AllWrites(w, rs[cp..]) by {
      assert rs == rs[..cp] + rs[cp..];
      AllWritesSplit(w, rs[..cp], rs[cp..]);
    }
  }

  ghost function HeldCondition(start: Rows, w: Record -> Rows, rs: seq<Record>, last: nat): Condition {
    (rows: Rows, at: Option<nat>, cp: nat, stale: bool, completed: bool) => HeldAt(rows, start, w, rs, last, at, cp, stale, completed)
  }

  lemma HeldIsKept(start: Rows, w: Record -> Rows, rs: seq<Record>, first: nat, last: nat)
    requires first <= |rs| && last <= |rs| && Stands(w, rs, first, last)
    ensures Kept(HeldCondition(start, w, rs, last), w, rs, first, last, true)
  {
    forall rows, cp: nat, stale, completed | HeldAt(rows, start, w, rs, last, None, cp, stale, completed)
      ensures HeldAt(rows, start, w, rs, last, Some(cp), cp, false, false) && HeldAt(rows, start, w, rs, last, Some(0), cp, true, false)
    { CaughtUpEarlier(rows, start, w, rs, 0, cp); }
    forall rows, next, q: nat, r: nat, cp: nat, stale |
        HeldAt(rows, start, w, rs, last, Some(q), cp, stale, false) && q < |rs| && (stale ==> q < first) && next == rows + w(rs[q]) && r == q + 1
      ensures HeldAt(next, start, w, rs, last, Some(r), cp, stale, false)
    { HeldAfterSave(rows, start, w, rs, first, last, q, cp, stale); }
    forall rows, q: nat, cp: nat, stale | HeldAt(rows, start, w, rs, last, Some(q), cp, stale, false)
      ensures q <= last ==> HeldAt(rows, start, w, rs, last, Some(q), q, false, false)
      ensures q == |rs| ==> HeldAt(rows, start, w, rs, last, None, 0, false, true)
    { CaughtUpEarlier(rows, start, w, rs, 0, q); }
  }

  /** A feed whose first page stands ends right under every schedule. */
  lemma StandingFeedSurvivesAnything(s0: Store, setting: Setting, pages: Pages, es: seq<Event>)
    requires |pages| > 0 && FirstPageStands(Writer(setting), pages)
    requires Run(Initial(s0), SaverOf(setting), pages, es).completed
    ensures Run(Initial(s0), SaverOf(setting), pages, es).store == SaveAll(s0, setting, All(pages))
  {
    var w, rs, t := Writer(setting), All(pages), Run(Initial(s0), SaverOf(setting), pages, es);
    InitialIsOk(s0, setting, pages);
    SaverOverrides(setting);
    StandsByPosition(w, pages);
    var inv := HeldCondition(s0.rows, w, rs, LastStart(pages));
    HeldIsKept(s0.rows, w, rs, FirstEnd(pages), LastStart(pages));
    InitiallyHeld(s0, w, pages);
    RunKeepsRows(Initial(s0), inv, SaverOf(setting), w, pages, true, es);
    CaughtUpAtEnd(t.store.rows, s0.rows, w, rs);
    SaveAllOverrides(s0, setting, rs);
    EventsSurviveAnySchedule(Initial(s0), s0, setting, pages, es);
  }

  lemma InitiallyHeld(s0: Store, w: Record -> Rows, pages: Pages)
    requires |pages| > 0 && Bounded(Initial(s0), pages)
    ensures RowsOk(Initial(s0), HeldCondition(s0.rows, w, All(pages), LastStart(pages)), pages)
  {
    FeedEnds(pages);
    assert All(pages)[..0] == [];
    assert s0.rows + map[] == s0.rows;
  }

  // ---- the schedule that fails -------------------------------------------------

  function Saves(n: nat): seq<Event> {
    if n == 0 then [] else Saves(n - 1) + [SaveRecord]
  }

  function WholePage(pages: Pages, k: nat): seq<Event>
    requires k < |pages|
  {
    Saves(|pages[k]|) + [StoreCheckpoint]
  }

  function WholePages(pages: Pages, n: nat): seq<Event>
    requires n <= |pages|
  {
    if n == 0 then [] else WholePages(pages, n - 1) + WholePage(pages, n - 1)
  }

  /** All pages but the last; a restart killed after n records; a plain resumption. */
  function Careless(pages: Pages, n: nat): seq<Event>
    requires |pages| > 0
  {
    [Start(false)] + WholePages(pages, |pages| - 1) + [Stop] + [Start(true)] + Saves(n) + [Stop] + [Start(false)]
    + WholePage(pages, |pages| - 1)
  }

  lemma {:induction false} RunSplits(s: State, save: Saver, pages: Pages, a: seq<Event>, b: seq<Event>)
    ensures Run(s, save, pages, a + b) == Run(Run(s, save, pages, a), save, pages, b)
    decreases |a|
  {
    if a == [] {
      assert a + b == b;
    } else {
      assert (a + b)[1..] == a[1..] + b;
      RunSplits(Step(s, save, pages, a[0]), save, pages, a[1..], b);
    }
  }

  lemma RunAndStep(s: State, save: Saver, pages: Pages, a: seq<Event>, e: Event)
    ensures Run(s, save, pages, a + [e]) == Step(Run(s, save, pages, a), save, pages, e)
  {
    RunSplits(s, save, pages, a, [e]);
    assert [e][1..] == [];
    var t := Run(s, save, pages, a);
    assert Run(t, save, pages, [e]) == Run(Step(t, save, pages, e), save, pages, []);
  }

  /** What matters of a state: rows, checkpoint, position, completion. */
  ghost predicate Looks(s: State, rows: Rows, checkpoint: nat, current: Option<Position>, completed: bool) {
    s.store.rows == rows && s.checkpoint == checkpoint && s.current == current && s.completed == completed
  }

  lemma {:induction false} SavesRun(s: State, save: Saver, w: Record -> Rows, pages: Pages, k: nat, n: nat)
    requires Overrides(save, w) && k < |pages| && n <= |pages[k]| && s.current == Some(Position(k, 0))
    ensures Looks(Run(s, save, pages, Saves(n)), s.store.rows + AllWrites(w, pages[k][..n]), s.checkpoint, Some(Position(k, n)), s.completed)
    decreases n
  {
    if n == 0 {
      assert s.store.rows + map[] == s.store.rows;
    } else {
      SavesRun(s, save, w, pages, k, n - 1);
      RunAndStep(s, save, pages, Saves(n - 1), SaveRecord);
      OneMoreSave(Run(s, save, pages, Saves(n - 1)), save, w, pages, k, n - 1, s.store.rows, s.checkpoint, s.completed);
    }
  }

  lemma OneMoreSave(
    t: State, save: Saver, w: Record -> Rows, pages: Pages, k: nat, n: nat, start: Rows, checkpoint: nat, completed: bool)
    requires Overrides(save, w) && k < |pages| && n < |pages[k]|
    requires Looks(t, start + AllWrites(w, pages[k][..n]), checkpoint, Some(Position(k, n)), completed)
    ensures Looks(
      Step(t, save, pages, SaveRecord), start + AllWrites(w, pages[k][..n + 1]), checkpoint, Some(Position(k, n + 1)), completed)
  {
    var rs, r := pages[k], pages[k][n];
    NextWrites(w, rs, n);
    UnionIsAssociative(start, AllWrites(w, rs[..n]), w(r));
    assert save(t.store, r).rows == t.store.rows + w(r);
  }

  lemma WholePageRuns(s: State, save: Saver, w: Record -> Rows, pages: Pages, k: nat)
    requires Overrides(save, w) && k < |pages| && s.current == Some(Position(k, 0))
    ensures var rows, t := s.store.rows + AllWrites(w, pages[k]), Run(s, save, pages, WholePage(pages, k));
      if k + 1 == |pages| then Looks(t, rows, 0, None, true) else Looks(t, rows, k + 1, Some(Position(k + 1, 0)), s.completed)
  {
    var n := |pages[k]|;
    SavesRun(s, save, w, pages, k, n);
    assert pages[k][..n] == pages[k];
    RunAndStep(s, save, pages, Saves(n), StoreCheckpoint);
    CheckpointLooks(Run(s, save, pages, Saves(n)), save, pages, k);
  }

  lemma CheckpointLooks(t: State, save: Saver, pages: Pages, k: nat)
    requires k < |pages| && t.current == Some(Position(k, |pages[k]|))
    ensures var u := Step(t, save, pages, StoreCheckpoint);
      if k + 1 == |pages| then Looks(u, t.store.rows, 0, None, true)
      else Looks(u, t.store.rows, k + 1, Some(Position(k + 1, 0)), t.completed)
  {
  }

  lemma {:induction false} WholePagesRun(s: State, save: Saver, w: Record -> Rows, pages: Pages, n: nat)
    requires Overrides(save, w) && n < |pages| && s.current == Some(Position(0, 0)) && s.checkpoint == 0
    ensures Looks(Run(s, save, pages, WholePages(pages, n)), s.store.rows + AllWrites(w, Flat(pages, n)), n, Some(Position(n, 0)), s.completed)
    decreases n
  {
    if n == 0 {
      assert s.store.rows + map[] == s.store.rows;
    } else {
      var front, page := WholePages(pages, n - 1), WholePage(pages, n - 1);
      var t := Run(s, save, pages, front);
      WholePagesRun(s, save, w, pages, n - 1);
      RunSplits(s, save, pages, front, page);
      OneMorePage(t, save, w, pages, n - 1, s.store.rows, s.completed);
      assert Run(s, save, pages, WholePages(pages, n)) == Run(t, save, pages, page);
    }
  }

  lemma OneMorePage(t: State, save: Saver, w: Record -> Rows, pages: Pages, k: nat, start: Rows, completed: bool)
    requires Overrides(save, w) && k + 1 < |pages|
    requires Looks(t, start + AllWrites(w, Flat(pages, k)), k, Some(Position(k, 0)), completed)
    ensures Looks(
      Run(t, save, pages, WholePage(pages, k)), start + AllWrites(w, Flat(pages, k + 1)), k + 1, Some(Position(k + 1, 0)), completed)
  {
    WholePageRuns(t, save, w, pages, k);
    assert Flat(pages, k + 1) == Flat(pages, k) + pages[k];
    AllWritesSplit(w, Flat(pages, k), pages[k]);
    UnionIsAssociative(start, AllWrites(w, Flat(pages, k)), AllWrites(w, pages[k]));
  }

  lemma CarelessRun(s0: Store, save: Saver, w: Record -> Rows, pages: Pages, n: nat)
    requires Overrides(save, w) && |pages| > 0 && n <= |pages[0]|
    ensures var t := Run(Initial(s0), save, pages, Careless(pages, n));
      && t.completed
      && t.store.rows == s0.rows + AllWrites(w, Flat(pages, |pages| - 1)) + AllWrites(w, pages[0][..n]) + AllWrites(w, pages[|pages| - 1])
  {
    var last := |pages| - 1;
    var e1 := [Start(false)];
    var e2 := e1 + WholePages(pages, last);
    var e3 := e2 + [Stop];
    var e4 := e3 + [Start(true)];
    var e5 := e4 + Saves(n);
    var e6 := e5 + [Stop];
    var e7 := e6 + [Start(false)];
    assert [] + e1 == e1;
    RunAndStep(Initial(s0), save, pages, [], Start(false));
    var s1 := Run(Initial(s0), save, pages, e1);
    RunSplits(Initial(s0), save, pages, e1, WholePages(pages, last));
    WholePagesRun(s1, save, w, pages, last);
    RunAndStep(Initial(s0), save, pages, e2, Stop);
    RunAndStep(Initial(s0), save, pages, e3, Start(true));
    var s4 := Run(Initial(s0), save, pages, e4);
    RunSplits(Initial(s0), save, pages, e4, Saves(n));
    SavesRun(s4, save, w, pages, 0, n);
    RunAndStep(Initial(s0), save, pages, e5, Stop);
    RunAndStep(Initial(s0), save, pages, e6, Start(false));
    var s7 := Run(Initial(s0), save, pages, e7);
    RunSplits(Initial(s0), save, pages, e7, WholePage(pages, last));
    WholePageRuns(s7, save, w, pages, last);
    assert Careless(pages, n) == e7 + WholePage(pages, last);
  }

  lemma LastWriterDecides(w: Record -> Rows, rs: seq<Record>, i: nat, key: Key)
    requires i < |rs| && key in w(rs[i])
    ensures key in AllWrites(w, rs[..i + 1]) && AllWrites(w, rs[..i + 1])[key] == w(rs[i])[key]
  {
    assert rs[..i + 1][..i] == rs[..i] && rs[..i + 1][i] == rs[i];
  }

  /** Wherever a record of the first page disagrees with the feed about a row that the last
      page does not write, the careless schedule completes with that record's row, where an
      uninterrupted run leaves the feed's. */
  lemma CarelessRestartRevertsRows(s0: Store, setting: Setting, pages: Pages, i: nat, key: Key)
    requires |pages| > 0 && i < |pages[0]|
    requires var w := Writer(setting);
      && key in w(pages[0][i]) && key !in AllWrites(w, pages[|pages| - 1])
      && (key in AllWrites(w, All(pages)) ==> AllWrites(w, All(pages))[key] != w(pages[0][i])[key])
    ensures var t := Run(Initial(s0), SaverOf(setting), pages, Careless(pages, i + 1));
      && t.completed && key in t.store.rows && t.store.rows[key] == Writer(setting)(pages[0][i])[key]
      && t.store != SaveAll(s0, setting, All(pages))
    ensures !Careful(Initial(s0), SaverOf(setting), pages, Careless(pages, i + 1))
  {
    var w := Writer(setting);
    SaverOverrides(setting);
    CarelessRun(s0, SaverOf(setting), w, pages, i + 1);
    LastWriterDecides(w, pages[0], i, key);
    SaveAllOverrides(s0, setting, All(pages));
    WrittenInFeed(w, pages, i, key);
    if Careful(Initial(s0), SaverOf(setting), pages, Careless(pages, i + 1)) {
      BackfillSurvivesCrashes(s0, setting, pages, Careless(pages, i + 1));
    }
  }

  lemma WrittenInFeed(w: Record -> Rows, pages: Pages, i: nat, key: Key)
    requires |pages| > 0 && i < |pages[0]| && key in w(pages[0][i])
    ensures key in AllWrites(w, All(pages))
  {
    FeedEnds(pages);
    var rs := All(pages);
    LastWriterDecides(w, rs, i, key);
    SplitAt(w, rs, i + 1, |rs|);
    assert rs[..|rs|] == rs;
  }

  /** The exact condition.  Every schedule whatever that comes to the terminal cursor leaves
      what one uninterrupted run leaves, if and only if the first page stands. */
  lemma EveryScheduleEndsRightIffFirstPageStands(s0: Store, setting: Setting, pages: Pages)
    requires |pages| > 0
    ensures (forall es :: EndsRight(s0, setting, pages, es)) <==> FirstPageStands(Writer(setting), pages)
  {
    if FirstPageStands(Writer(setting), pages) {
      forall es ensures EndsRight(s0, setting, pages, es) {
        if Run(Initial(s0), SaverOf(setting), pages, es).completed { StandingFeedSurvivesAnything(s0, setting, pages, es); }
      }
    } else {
      var es := FailingSchedule(s0, setting, pages);
    }
  }

  /** If the schedule comes to the terminal cursor, it leaves what one uninterrupted run leaves. */
  ghost predicate EndsRight(s0: Store, setting: Setting, pages: Pages, es: seq<Event>) {
    Run(Initial(s0), SaverOf(setting), pages, es).completed ==>
      Run(Initial(s0), SaverOf(setting), pages, es).store == SaveAll(s0, setting, All(pages))
  }

  lemma FailingSchedule(s0: Store, setting: Setting, pages: Pages) returns (es: seq<Event>)
    requires |pages| > 0 && !FirstPageStands(Writer(setting), pages)
    ensures !EndsRight(s0, setting, pages, es)
  {
    var w := Writer(setting);
    var i, key :| 0 <= i < |pages[0]| && key in w(pages[0][i]) && key !in AllWrites(w, pages[|pages| - 1])
      && !(key in AllWrites(w, All(pages)) && w(pages[0][i])[key] == AllWrites(w, All(pages))[key]);
    CarelessRestartRevertsRows(s0, setting, pages, i, key);
    es := Careless(pages, i + 1);
  }

  // ---- feeds that stand and feeds that do not -----------------------------------

  /** No two records of the feed disagree about a row. */
  ghost predicate Consistent(w: Record -> Rows, rs: seq<Record>) {
    forall i, j, key ::
      0 <= i < |rs| && 0 <= j < |rs| && key in w(rs[i]) && key in w(rs[j]) ==> w(rs[i])[key] == w(rs[j])[key]
  }

  lemma PrefixIsConsistent(w: Record -> Rows, rs: seq<Record>, n: nat)
    requires Consistent(w, rs) && n <= |rs|
    ensures Consistent(w, rs[..n])
  {
    var front := rs[..n];
    forall i, j, key | 0 <= i < n && 0 <= j < n && key in w(front[i]) && key in w(front[j]) ensures w(front[i])[key] == w(front[j])[key] {
      assert front[i] == rs[i] && front[j] == rs[j];
    }
  }

  lemma {:induction false} WrittenBySome(w: Record -> Rows, rs: seq<Record>, i: nat)
    requires i < |rs| && Consistent(w, rs)
    ensures AllWrites(w, rs) + w(rs[i]) == AllWrites(w, rs)
    decreases |rs|
  {
    var front := rs[..|rs| - 1];
    if i < |rs| - 1 {
      PrefixIsConsistent(w, rs, |rs| - 1);
      assert front[i] == rs[i];
      WrittenBySome(w, front, i);
      forall key | key in w(rs[i]) ensures key in AllWrites(w, rs) && AllWrites(w, rs)[key] == w(rs[i])[key] {
        assert key in AllWrites(w, front) + w(rs[i]);
      }
    }
  }

  lemma ConsistentFeedStands(w: Record -> Rows, pages: Pages)
    requires |pages| > 0 && Consistent(w, All(pages))
    ensures FirstPageStands(w, pages)
  {
    FeedEnds(pages);
    forall i, key | 0 <= i < |pages[0]| && key in w(pages[0][i])
      ensures key in AllWrites(w, All(pages)) && w(pages[0][i])[key] == AllWrites(w, All(pages))[key]
    {
      WrittenBySome(w, All(pages), i);
      assert key in AllWrites(w, All(pages)) + w(All(pages)[i]);
    }
  }

  /** When no two records disagree about a row, even careless schedules end right. */
  lemma ConsistentBackfillSurvivesAnything(s0: Store, setting: Setting, pages: Pages, es: seq<Event>)
    requires |pages| > 0 && Consistent(Writer(setting), All(pages))
    requires Run(Initial(s0), SaverOf(setting), pages, es).completed
    ensures Run(Initial(s0), SaverOf(setting), pages, es).store == SaveAll(s0, setting, All(pages))
  {
    ConsistentFeedStands(Writer(setting), pages);
    StandingFeedSurvivesAnything(s0, setting, pages, es);
  }

  /** A company's job under its old and, further on in the feed, another under its new name. */
  const OLD_NAME := CanonicalJob(
    "1", "first-role", "First role", "", "acme", "Acme", None, "h1", "", "", "", None, None, None, None, [])
  const NEW_NAME := CanonicalJob(
    "2", "second-role", "Second role", "", "acme", "Acme Robotics", None, "h2", "", "", "", None, None, None, None, [])
  const OTHER := CanonicalJob(
    "3", "third-role", "Third role", "", "other", "Other", None, "h3", "", "", "", None, None, None, None, [])

  /** Renaming a company between pages is enough: the careless schedule ends with the old
      name, an uninterrupted run with the new one. */
  lemma RenamedCompanyIsReverted(s0: Store, setting: Setting)
    ensures var pages := [[Valid(OLD_NAME)], [Valid(NEW_NAME)], [Valid(OTHER)]];
      var t := Run(Initial(s0), SaverOf(setting), pages, Careless(pages, 1));
      && t.completed
      && CompanyKey("acme") in t.store.rows && t.store.rows[CompanyKey("acme")] == CompanyRow("Acme", None)
      && CompanyKey("acme") in SaveAll(s0, setting, All(pages)).rows
      && SaveAll(s0, setting, All(pages)).rows[CompanyKey("acme")] == CompanyRow("Acme Robotics", None)
  {
    var a, b, c := Valid(OLD_NAME), Valid(NEW_NAME), Valid(OTHER);
    CompanyWrites(setting, OLD_NAME);
    CompanyWrites(setting, NEW_NAME);
    CompanyWrites(setting, OTHER);
    ThreePages(Writer(setting), a, b, c);
    SaveAllOverrides(s0, setting, All([[a], [b], [c]]));
    CarelessRestartRevertsRows(s0, setting, [[a], [b], [c]], 0, CompanyKey("acme"));
  }

  lemma ThreePages(w: Record -> Rows, a: Record, b: Record, c: Record)
    ensures All([[a], [b], [c]]) == [a, b, c] && AllWrites(w, [c]) == w(c)
    ensures AllWrites(w, [a, b, c]) == w(a) + w(b) + w(c)
  {
    var pages: Pages := [[a], [b], [c]];
    assert Flat(pages, 0) == [] && Flat(pages, 1) == [a] && Flat(pages, 2) == [a, b] && Flat(pages, 3) == [a, b, c];
    OneWrites(w, a);
    OneWrites(w, c);
    assert [a, b][..1] == [a] && AllWrites(w, [a, b]) == AllWrites(w, [a]) + w(b);
    assert [a, b, c][..2] == [a, b] && AllWrites(w, [a, b, c]) == AllWrites(w, [a, b]) + w(c);
  }

  lemma CompanyWrites(setting: Setting, job: CanonicalJob)
    requires job.locations == []
    ensures forall slug :: CompanyKey(slug) in Writer(setting)(Valid(job)) <==> slug == job.companySlug
    ensures Writer(setting)(Valid(job))[CompanyKey(job.companySlug)] == CompanyRow(job.companyName, job.companyLogo)
  {
    assert LocationRows(job.locations) == map[];
  }

  // ---- the runs of the service -------------------------------------------------

  /** `pages` are the pages of the feed up to the terminal one. */
  ghost predicate IsFeedOf(feed: Feed, pages: Pages) {
    forall k :: 0 <= k < |pages| ==> pages[k] == PageAt(feed, CursorAfter(feed, None, k)).records
  }

  lemma {:induction false} FlatFollowsCursors(feed: Feed, pages: Pages, n: nat)
    requires IsFeedOf(feed, pages) && n <= |pages|
    ensures Flat(pages, n) == RecordsAlong(feed, None, n)
    decreases n
  {
    if n > 0 { FlatFollowsCursors(feed, pages, n - 1); }
  }

  /** One uninterrupted, persisting backfill from the beginning to the terminal cursor. */
  lemma UninterruptedBackfill(
    s0: Store, feed: Feed, pages: Pages, setting: Setting, o: Options, c: Counters, s: Store, after: Checkpoints)
    requires IsFeedOf(feed, pages) && o.mode == Backfill && o.persist
    requires RunResult(s0, map[], feed, setting, o, TerminalCursor, c, s, after) && c.pagesCompleted == |pages|
    ensures s == SaveAll(s0, setting, All(pages))
  {
    FlatFollowsCursors(feed, pages, |pages|);
  }

  lemma {:induction false} CursorsCompose(feed: Feed, start: Option<string>, m: nat, n: nat)
    ensures CursorAfter(feed, CursorAfter(feed, start, m), n) == CursorAfter(feed, start, m + n)
    ensures RecordsAlong(feed, start, m + n) == RecordsAlong(feed, start, m) + RecordsAlong(feed, CursorAfter(feed, start, m), n)
    decreases n
  {
    if n == 0 {
      assert RecordsAlong(feed, start, m) + [] == RecordsAlong(feed, start, m);
    } else {
      CursorsCompose(feed, start, m, n - 1);
    }
  }

  /** Two backfills in a row, the second resuming from the first one's checkpoint, do what
      one longer backfill does and leave the same checkpoint. */
  lemma ResumedRunsCompose(
    s0: Store, before: Checkpoints, feed: Feed, setting: Setting, o1: Options, o2: Options,
    stop1: StopReason, c1: Counters, s1: Store, between: Checkpoints, stop2: StopReason, c2: Counters, s2: Store, after: Checkpoints)
    requires o1.mode == Backfill && o2.mode == Backfill && o1.persist && o2.persist && !o2.restart
    requires RunResult(s0, before, feed, setting, o1, stop1, c1, s1, between) && c1.pagesCompleted > 0
    requires RunResult(s1, between, feed, setting, o2, stop2, c2, s2, after)
    ensures var start, n := StartCursor(before, setting.provider, o1), c1.pagesCompleted + c2.pagesCompleted;
      && s2 == SaveAll(s0, setting, RecordsAlong(feed, start, n))
      && after == before[(setting.provider, Backfill) := CursorAfter(feed, start, n)]
  {
    var start, m, n := StartCursor(before, setting.provider, o1), c1.pagesCompleted, c2.pagesCompleted;
    CursorsCompose(feed, start, m, n);
    SaveAllAppend(s0, setting, RecordsAlong(feed, start, m), RecordsAlong(feed, CursorAfter(feed, start, m), n));
  }
}
