/** The application tracker: optimistic concurrency on a revision number.

    Every write is preceded by a read in a database call of its own, so other requests may
    act between the two.  Rows are kept in creation order, a row's position is its id and a
    deleted row leaves a gap. */
module Tracker {
  import opened Ordering

  datatype Stage = Saved | Applied | Interviewing | Offer | Rejected | Withdrawn

  datatype Lifecycle = Active | Archived

  function AllowedNext(s: Stage): set<Stage> {
    match s
    case Saved => {Applied, Withdrawn}
    case Applied => {Saved, Interviewing, Rejected, Withdrawn}
    case Interviewing => {Applied, Offer, Rejected, Withdrawn}
    case Offer => {Interviewing, Rejected, Withdrawn}
    case Rejected => {Applied, Interviewing}
    case Withdrawn => {Saved, Applied}
  }

  predicate ValidTransition(from: Stage, to: Stage) {
    from == to || to in AllowedNext(from)
  }

  /** The table read the other way: from where each stage can be reached. */
  lemma TransitionsByTarget(from: Stage, to: Stage)
    ensures to in AllowedNext(from) <==>
      match to
      case Saved => from == Applied || from == Withdrawn
      case Applied => from == Saved || from == Interviewing || from == Rejected || from == Withdrawn
      case Interviewing => from == Applied || from == Offer || from == Rejected
      case Offer => from == Interviewing
      case Rejected => from == Applied || from == Interviewing || from == Offer
      case Withdrawn => from == Saved || from == Applied || from == Interviewing || from == Offer
  {
  }

  datatype Edge = Edge(source: Option<Stage>, target: Stage)

  /** `fields` holds the free text and date columns; history rows go with their application. */
  datatype Application = Application(
    user: nat, job: Option<nat>, stage: Stage, lifecycle: Lifecycle,
    fields: map<string, Option<string>>, revision: nat, history: seq<Edge>)

  type Table = seq<Option<Application>>

  predicate Has(apps: Table, id: nat) {
    id < |apps| && apps[id].Some?
  }

  predicate Owns(apps: Table, user: nat, id: nat) {
    Has(apps, id) && apps[id].value.user == user
  }

  datatype Patch = Patch(
    expected: nat, stage: Option<Stage>, lifecycle: Option<Lifecycle>, fields: map<string, Option<string>>)

  predicate StageChanging(p: Patch, seen: Application) {
    p.stage.Some? && p.stage.value != seen.stage
  }

  predicate LifecycleChanging(p: Patch, seen: Application) {
    p.lifecycle.Some? && p.lifecycle.value != seen.lifecycle
  }

  function OrElse<T>(o: Option<T>, default: T): T {
    if o.Some? then o.value else default
  }

  /** The history rows an update adds; both name the stage that was read as their source. */
  function Entries(p: Patch, seen: Application): seq<Edge> {
    var target := OrElse(p.stage, seen.stage);
    (if StageChanging(p, seen) then [Edge(Some(seen.stage), target)] else [])
    + (if LifecycleChanging(p, seen) then [Edge(Some(seen.stage), target)] else [])
  }

  function Patched(a: Application, p: Patch, seen: Application): Application {
    a.(stage := OrElse(p.stage, a.stage), lifecycle := OrElse(p.lifecycle, a.lifecycle),
       fields := a.fields + p.fields, revision := a.revision + 1, history := a.history + Entries(p, seen))
  }

  function Retracked(a: Application, seenStage: Stage): Application {
    a.(lifecycle := Active, revision := a.revision + 1, history := a.history + [Edge(Some(seenStage), seenStage)])
  }

  predicate Tracks(a: Option<Application>, user: nat, job: nat) {
    a.Some? && a.value.user == user && a.value.job == Some(job)
  }

  function FindTracked(apps: Table, user: nat, job: nat): (id: Option<nat>)
    ensures id.Some? ==> id.value < |apps| && Tracks(apps[id.value], user, job)
    ensures id.None? ==> forall i :: 0 <= i < |apps| ==> !Tracks(apps[i], user, job)
  {
    if apps == [] then None
    else if Tracks(apps[|apps| - 1], user, job) then Some(|apps| - 1)
    else FindTracked(apps[..|apps| - 1], user, job)
  }

  // ---- the read half of an operation -------------------------------------------

  datatype Pending =
    | Updating(user: nat, id: nat, patch: Patch, seen: Application)
    | Deleting(user: nat, id: nat, expected: nat, seen: Application)
    | Retracking(id: nat, seenStage: Stage)
    | Creating(row: Application)

  datatype Outcome = NotFound | Conflict | BadRequest | AlreadyTracked(id: nat) | Proceed(pending: Pending)

  function ReadForUpdate(apps: Table, user: nat, id: nat, patch: Patch): Outcome {
    if !Owns(apps, user, id) then NotFound
    else
      var current := apps[id].value;
      if current.revision != patch.expected then Conflict
      else if StageChanging(patch, current) && !ValidTransition(current.stage, patch.stage.value) then BadRequest
      else Proceed(Updating(user, id, patch, current))
  }

  function ReadForDelete(apps: Table, user: nat, id: nat, expected: nat): Outcome {
    if !Owns(apps, user, id) then NotFound
    else if apps[id].value.revision != expected then Conflict
    else Proceed(Deleting(user, id, expected, apps[id].value))
  }

  const ROLE_TITLE := "roleTitle"

  /** `jobs` gives the titles of the known jobs; without a job this is a manual entry. */
  function ReadForCreate(apps: Table, jobs: map<nat, string>, user: nat, job: Option<nat>, title: string, stage: Option<Stage>): Outcome {
    if job.Some? && job.value !in jobs then NotFound
    else
      var existing := if job.Some? then FindTracked(apps, user, job.value) else None;
      if existing.Some? then
        var row := apps[existing.value].value;
        if row.lifecycle == Archived then Proceed(Retracking(existing.value, row.stage)) else AlreadyTracked(existing.value)
      else
        var roleTitle := if title == "" && job.Some? then jobs[job.value] else title;
        if roleTitle == "" then BadRequest
        else
          var initial := OrElse(stage, Saved);
          Proceed(Creating(Application(user, job, initial, Active, map[ROLE_TITLE := Some(roleTitle)], 0, [Edge(None, initial)])))
  }

  // ---- the write half ----------------------------------------------------------

  /** The conditions in the write itself: the WHERE clause, the primary key, the unique
      index on (user, job). */
  predicate Commits(apps: Table, p: Pending) {
    match p
    case Updating(user, id, patch, _) => Owns(apps, user, id) && apps[id].value.revision == patch.expected
    case Deleting(user, id, expected, _) => Owns(apps, user, id) && apps[id].value.revision == expected
    case Retracking(id, _) => Has(apps, id)
    case Creating(row) => row.job.Some? ==> FindTracked(apps, row.user, row.job.value).None?
  }

  function Commit(apps: Table, p: Pending): Table {
    if !Commits(apps, p) then apps
    else match p
      case Updating(_, id, patch, seen) => apps[id := Some(Patched(apps[id].value, patch, seen))]
      case Deleting(_, id, _, _) => apps[id := None]
      case Retracking(id, seenStage) => apps[id := Some(Retracked(apps[id].value, seenStage))]
      case Creating(row) => apps + [Some(row)]
  }

  // ---- runs --------------------------------------------------------------------

  /** A successful update or delete: the revision it carried, what it read, what it overwrote. */
  datatype Win = Win(id: nat, expected: nat, seen: Application, overwritten: Application, newStage: Option<Stage>)

  datatype State = State(apps: Table, pending: map<nat, Pending>, wins: seq<Win>)

  datatype Event =
    | BeginUpdate(op: nat, user: nat, id: nat, patch: Patch)
    | BeginDelete(op: nat, user: nat, id: nat, expected: nat)
    | BeginCreate(op: nat, user: nat, job: Option<nat>, title: string, stage: Option<Stage>)
    | Finish(op: nat)

  function Read(apps: Table, jobs: map<nat, string>, e: Event): Outcome
    requires !e.Finish?
  {
    match e
    case BeginUpdate(_, user, id, patch) => ReadForUpdate(apps, user, id, patch)
    case BeginDelete(_, user, id, expected) => ReadForDelete(apps, user, id, expected)
    case BeginCreate(_, user, job, title, stage) => ReadForCreate(apps, jobs, user, job, title, stage)
  }

  function WinsOf(apps: Table, p: Pending): seq<Win> {
    if !Commits(apps, p) then []
    else match p
      case Updating(_, id, patch, seen) => [Win(id, patch.expected, seen, apps[id].value, Some(OrElse(patch.stage, apps[id].value.stage)))]
      case Deleting(_, id, expected, seen) => [Win(id, expected, seen, apps[id].value, None)]
      case _ => []
  }

  function Step(s: State, jobs: map<nat, string>, e: Event): State {
    if e.Finish? then
      if e.op !in s.pending then s
      else
        var p := s.pending[e.op];
        State(Commit(s.apps, p), s.pending - {e.op}, s.wins + WinsOf(s.apps, p))
    else if e.op in s.pending then s
    else
      var outcome := Read(s.apps, jobs, e);
      if outcome.Proceed? then s.(pending := s.pending[e.op := outcome.pending]) else s
  }

  function Run(s: State, jobs: map<nat, string>, es: seq<Event>): State
    decreases |es|
  {
    if es == [] then s else Run(Step(s, jobs, es[0]), jobs, es[1..])
  }

  const INITIAL := State([], map[], [])

  // ---- invariants --------------------------------------------------------------

  predicate Reached(history: seq<Edge>, stage: Stage, n: nat)
    requires n <= |history|
  {
    exists j :: 0 <= j < n && history[j].target == stage
  }

  /** Each edge leaves a stage that was entered before, along the transition table. */
  predicate HistoryOk(history: seq<Edge>) {
    && |history| > 0
    && history[0].source.None?
    && forall i :: 1 <= i < |history| ==> EdgeOk(history, i)
  }

  predicate EdgeOk(history: seq<Edge>, i: nat)
    requires i < |history|
  {
    && history[i].source.Some?
    && ValidTransition(history[i].source.value, history[i].target)
    && Reached(history, history[i].source.value, i)
  }

  predicate RowOk(a: Application) {
    HistoryOk(a.history) && Reached(a.history, a.stage, |a.history|)
  }

  /** What an operation read is either still there or has been replaced by a later revision. */
  predicate PendingOk(apps: Table, p: Pending) {
    match p
    case Updating(user, id, patch, seen) =>
      && SeenOk(apps, id, seen) && seen.user == user && seen.revision == patch.expected
      && (StageChanging(patch, seen) ==> ValidTransition(seen.stage, patch.stage.value))
    case Deleting(user, id, expected, seen) =>
      SeenOk(apps, id, seen) && seen.user == user && seen.revision == expected
    case Retracking(id, seenStage) =>
      id < |apps| && (Has(apps, id) ==> Reached(apps[id].value.history, seenStage, |apps[id].value.history|))
    case Creating(row) => row.history == [Edge(None, row.stage)]
  }

  predicate SeenOk(apps: Table, id: nat, seen: Application) {
    id < |apps| && (Has(apps, id) ==>
      seen.revision <= apps[id].value.revision && (seen.revision == apps[id].value.revision ==> seen == apps[id].value))
  }

  predicate WinOk(apps: Table, w: Win) {
    && w.id < |apps| && (Has(apps, w.id) ==> w.expected < apps[w.id].value.revision)
    && w.seen == w.overwritten && w.overwritten.revision == w.expected
    && (w.newStage.Some? ==> ValidTransition(w.overwritten.stage, w.newStage.value))
  }

  ghost predicate OneRowPerJob(apps: Table) {
    forall i, j, user, job :: 0 <= i < |apps| && 0 <= j < |apps| && Tracks(apps[i], user, job) && Tracks(apps[j], user, job) ==> i == j
  }

  ghost predicate Inv(s: State) {
    && (forall i :: 0 <= i < |s.apps| && s.apps[i].Some? ==> RowOk(s.apps[i].value))
    && (forall op :: op in s.pending ==> PendingOk(s.apps, s.pending[op]))
    && (forall i :: 0 <= i < |s.wins| ==> WinOk(s.apps, s.wins[i]))
    && (forall i, j :: 0 <= i < j < |s.wins| ==> s.wins[i].id != s.wins[j].id || s.wins[i].expected != s.wins[j].expected)
    && OneRowPerJob(s.apps)
  }

  /** Rows only move to later revisions, histories only grow, gaps stay gaps. */
  ghost predicate Later(a: Table, b: Table) {
    && |a| <= |b|
    && forall i :: 0 <= i < |a| ==> LaterRow(a[i], b[i])
  }

  predicate LaterRow(a: Option<Application>, b: Option<Application>) {
    b.Some? ==>
      && a.Some? && a.value.revision <= b.value.revision
      && (a.value.revision == b.value.revision ==> a == b)
      && a.value.history <= b.value.history
  }

  lemma CommitIsLater(apps: Table, p: Pending)
    ensures Later(apps, Commit(apps, p))
  {
  }

  lemma ReachedStays(a: seq<Edge>, b: seq<Edge>, stage: Stage)
    requires a <= b && Reached(a, stage, |a|)
    ensures Reached(b, stage, |b|)
  {
    var j :| 0 <= j < |a| && a[j].target == stage;
    assert b[j] == a[j];
  }

  lemma AppendKeepsHistory(h: seq<Edge>, e: Edge)
    requires HistoryOk(h) && e.source.Some? && ValidTransition(e.source.value, e.target)
    requires Reached(h, e.source.value, |h|)
    ensures HistoryOk(h + [e]) && Reached(h + [e], e.target, |h| + 1)
  {
    var out := h + [e];
    forall i | 1 <= i < |out| ensures EdgeOk(out, i) {
      if i < |h| {
        assert EdgeOk(h, i);
        var j :| 0 <= j < i && h[j].target == h[i].source.value;
        assert out[j] == h[j];
      } else {
        var j :| 0 <= j < |h| && h[j].target == e.source.value;
        assert out[j] == h[j];
      }
    }
    assert out[|h|] == e;
  }

  lemma PatchKeepsRow(a: Application, p: Patch)
    requires RowOk(a) && (StageChanging(p, a) ==> ValidTransition(a.stage, p.stage.value))
    ensures RowOk(Patched(a, p, a))
  {
    var edge := Edge(Some(a.stage), OrElse(p.stage, a.stage));
    var h := a.history;
    if StageChanging(p, a) {
      AppendKeepsHistory(h, edge);
      ReachedStays(h, h + [edge], a.stage);
      h := h + [edge];
    }
    if LifecycleChanging(p, a) {
      AppendKeepsHistory(h, edge);
      h := h + [edge];
    }
    assert h == Patched(a, p, a).history;
  }

  lemma RetrackKeepsRow(a: Application, seenStage: Stage)
    requires RowOk(a) && Reached(a.history, seenStage, |a.history|)
    ensures RowOk(Retracked(a, seenStage))
  {
    var edge := Edge(Some(seenStage), seenStage);
    AppendKeepsHistory(a.history, edge);
    ReachedStays(a.history, a.history + [edge], a.stage);
  }

  lemma CommitKeepsRows(apps: Table, p: Pending)
    requires forall i :: 0 <= i < |apps| && apps[i].Some? ==> RowOk(apps[i].value)
    requires PendingOk(apps, p)
    ensures var out := Commit(apps, p); forall i :: 0 <= i < |out| && out[i].Some? ==> RowOk(out[i].value)
  {
    if Commits(apps, p) {
      match p
      case Updating(_, id, patch, seen) => PatchKeepsRow(apps[id].value, patch);
      case Retracking(id, seenStage) => RetrackKeepsRow(apps[id].value, seenStage);
      case Creating(row) => assert row.history[0].target == row.stage;
      case _ =>
    }
  }

  lemma CommitKeepsOneRowPerJob(apps: Table, p: Pending)
    requires OneRowPerJob(apps)
    ensures OneRowPerJob(Commit(apps, p))
  {
    var out := Commit(apps, p);
    forall i, j, user, job | 0 <= i < |out| && 0 <= j < |out| && Tracks(out[i], user, job) && Tracks(out[j], user, job)
      ensures i == j
    {
      if i < |apps| && j < |apps| { assert Tracks(apps[i], user, job) && Tracks(apps[j], user, job); }
    }
  }

  lemma LaterKeepsPending(a: Table, b: Table, p: Pending)
    requires Later(a, b) && PendingOk(a, p)
    ensures PendingOk(b, p)
  {
    if p.Retracking? && Has(b, p.id) {
      assert LaterRow(a[p.id], b[p.id]);
      ReachedStays(a[p.id].value.history, b[p.id].value.history, p.seenStage);
    } else if p.Updating? || p.Deleting? {
      assert LaterRow(a[p.id], b[p.id]);
    }
  }

  lemma FinishKeepsWins(s: State, op: nat)
    requires Inv(s) && op in s.pending
    ensures var p := s.pending[op]; var t := Commit(s.apps, p); var wins := s.wins + WinsOf(s.apps, p);
      && (forall i :: 0 <= i < |wins| ==> WinOk(t, wins[i]))
      && (forall i, j :: 0 <= i < j < |wins| ==> wins[i].id != wins[j].id || wins[i].expected != wins[j].expected)
  {
    var p := s.pending[op];
    assert PendingOk(s.apps, p);
    CommitIsLater(s.apps, p);
    var t, wins := Commit(s.apps, p), s.wins + WinsOf(s.apps, p);
    forall i | 0 <= i < |wins| ensures WinOk(t, wins[i]) {
      if i < |s.wins| {
        assert WinOk(s.apps, s.wins[i]) && LaterRow(s.apps[s.wins[i].id], t[s.wins[i].id]);
      }
    }
    forall i, j | 0 <= i < j < |wins| ensures wins[i].id != wins[j].id || wins[i].expected != wins[j].expected {
      assert WinOk(s.apps, s.wins[i]);
    }
  }

  lemma ReadGivesPending(apps: Table, jobs: map<nat, string>, e: Event)
    requires !e.Finish? && Read(apps, jobs, e).Proceed?
    requires forall i :: 0 <= i < |apps| && apps[i].Some? ==> RowOk(apps[i].value)
    ensures PendingOk(apps, Read(apps, jobs, e).pending)
  {
  }

  lemma StepKeepsInv(s: State, jobs: map<nat, string>, e: Event)
    requires Inv(s)
    ensures Inv(Step(s, jobs, e)) && Later(s.apps, Step(s, jobs, e).apps)
  {
    var t := Step(s, jobs, e);
    if e.Finish? && e.op in s.pending {
      var p := s.pending[e.op];
      CommitIsLater(s.apps, p);
      CommitKeepsRows(s.apps, p);
      CommitKeepsOneRowPerJob(s.apps, p);
      FinishKeepsWins(s, e.op);
      forall op | op in t.pending ensures PendingOk(t.apps, t.pending[op]) {
        LaterKeepsPending(s.apps, t.apps, s.pending[op]);
      }
    } else if !e.Finish? && e.op !in s.pending && Read(s.apps, jobs, e).Proceed? {
      ReadGivesPending(s.apps, jobs, e);
    }
  }

  lemma {:induction false} RunKeepsInv(s: State, jobs: map<nat, string>, es: seq<Event>)
    requires Inv(s)
    ensures Inv(Run(s, jobs, es))
    decreases |es|
  {
    if es != [] {
      StepKeepsInv(s, jobs, es[0]);
      RunKeepsInv(Step(s, jobs, es[0]), jobs, es[1..]);
    }
  }

  // ---- main results ------------------------------------------------------------

  /** No lost update.  However reads and writes interleave, at most one update or delete
      carrying a given revision succeeds on an application, and it overwrites exactly the
      row it had read; in particular the stage it checked is the stage it replaces. */
  lemma NoLostUpdate(jobs: map<nat, string>, es: seq<Event>)
    ensures var wins := Run(INITIAL, jobs, es).wins;
      && (forall i, j :: 0 <= i < |wins| && 0 <= j < |wins| && wins[i].id == wins[j].id && wins[i].expected == wins[j].expected ==> i == j)
      && (forall i :: 0 <= i < |wins| ==> wins[i].seen == wins[i].overwritten && wins[i].overwritten.revision == wins[i].expected)
      && (forall i :: 0 <= i < |wins| && wins[i].newStage.Some? ==> ValidTransition(wins[i].overwritten.stage, wins[i].newStage.value))
  {
    RunKeepsInv(INITIAL, jobs, es);
    var s := Run(INITIAL, jobs, es);
    forall i | 0 <= i < |s.wins| ensures WinOk(s.apps, s.wins[i]) {}
  }

  /** No missed and no spurious conflict: a pending update or delete goes through exactly
      when the row is still, field by field, the one it read. */
  lemma WriteSucceedsIffRowUntouched(jobs: map<nat, string>, es: seq<Event>, op: nat)
    requires var s := Run(INITIAL, jobs, es); op in s.pending && (s.pending[op].Updating? || s.pending[op].Deleting?)
    ensures var s := Run(INITIAL, jobs, es); var p := s.pending[op];
      Commits(s.apps, p) <==> p.id < |s.apps| && s.apps[p.id] == Some(p.seen)
  {
    RunKeepsInv(INITIAL, jobs, es);
    var s := Run(INITIAL, jobs, es);
    assert PendingOk(s.apps, s.pending[op]);
  }

  /** Every history starts with the creation entry; every later entry is an identity or an
      allowed transition out of a stage entered before. */
  lemma HistoriesFollowTheTable(jobs: map<nat, string>, es: seq<Event>, id: nat)
    requires Has(Run(INITIAL, jobs, es).apps, id)
    ensures RowOk(Run(INITIAL, jobs, es).apps[id].value)
  {
    RunKeepsInv(INITIAL, jobs, es);
  }

  /** In no history does an offer appear out of nothing: unless the application was
      entered as an offer, an interview stage comes first. */
  lemma OfferComesAfterInterview(h: seq<Edge>, i: nat)
    requires HistoryOk(h) && i < |h| && h[i].target == Offer
    ensures h[0].target == Offer || Reached(h, Interviewing, i)
    decreases i
  {
    if i > 0 {
      assert EdgeOk(h, i);
      var j :| 0 <= j < i && h[j].target == h[i].source.value;
      if h[j].target == Offer {
        OfferComesAfterInterview(h, j);
        if h[0].target != Offer {
          var k :| 0 <= k < j && h[k].target == Interviewing;
          assert h[k].target == Interviewing;
        }
      } else {
        assert h[j].target == Interviewing;
      }
    }
  }

  /** A user never has two applications for one job. */
  lemma OneApplicationPerJob(jobs: map<nat, string>, es: seq<Event>, i: nat, j: nat)
    requires var apps := Run(INITIAL, jobs, es).apps;
      && Has(apps, i) && Has(apps, j) && apps[i].value.user == apps[j].value.user
      && apps[i].value.job.Some? && apps[i].value.job == apps[j].value.job
    ensures i == j
  {
    RunKeepsInv(INITIAL, jobs, es);
    var apps := Run(INITIAL, jobs, es).apps;
    assert Tracks(apps[i], apps[i].value.user, apps[i].value.job.value);
    assert Tracks(apps[j], apps[i].value.user, apps[i].value.job.value);
  }

  // ---- where the history is a chain, and where not ------------------------------

  predicate Chained(h: seq<Edge>) {
    forall i :: 1 <= i < |h| ==> h[i].source == Some(h[i - 1].target)
  }

  predicate EndsAt(h: seq<Edge>, stage: Stage) {
    |h| > 0 && h[|h| - 1].target == stage
  }

  /** An update's entries continue the chain exactly when stage and lifecycle do not change
      together: the second of two entries repeats the old source stage. */
  lemma UpdateKeepsChain(a: Application, p: Patch)
    requires Chained(a.history) && EndsAt(a.history, a.stage)
    ensures EndsAt(Patched(a, p, a).history, Patched(a, p, a).stage)
    ensures Chained(Patched(a, p, a).history) <==> !(StageChanging(p, a) && LifecycleChanging(p, a))
  {
    var h, n := Patched(a, p, a).history, |a.history|;
    assert forall i :: 0 <= i < n ==> h[i] == a.history[i];
    if StageChanging(p, a) && LifecycleChanging(p, a) {
      assert h[n].target == p.stage.value && h[n + 1].source == Some(a.stage);
      assert h[(n + 1) - 1] == h[n];
    }
  }

  /** Re-tracking an archived application continues the chain exactly when the stage it
      read before its transaction is still the current one. */
  lemma RetrackKeepsChain(a: Application, seenStage: Stage)
    requires Chained(a.history) && EndsAt(a.history, a.stage)
    ensures Chained(Retracked(a, seenStage).history) <==> seenStage == a.stage
    ensures EndsAt(Retracked(a, seenStage).history, Retracked(a, seenStage).stage) <==> seenStage == a.stage
  {
    var h, n := Retracked(a, seenStage).history, |a.history|;
    assert h[n].source == Some(seenStage) && h[n - 1] == a.history[n - 1];
    assert forall i :: 0 <= i < n ==> h[i] == a.history[i];
  }

  lemma RunHead(s: State, jobs: map<nat, string>, e: Event, rest: seq<Event>)
    ensures Run(s, jobs, [e] + rest) == Run(Step(s, jobs, e), jobs, rest)
  {
    assert ([e] + rest)[1..] == rest;
  }

  function FreshRow(job: Option<nat>, title: string): Application {
    Application(0, job, Saved, Active, map[ROLE_TITLE := Some(title)], 0, [Edge(None, Saved)])
  }

  lemma AfterCreate(jobs: map<nat, string>, job: Option<nat>, title: string, row: Application, rest: seq<Event>)
    requires ReadForCreate([], jobs, 0, job, title, None) == Proceed(Creating(row))
    ensures Run(INITIAL, jobs, [BeginCreate(0, 0, job, title, None)] + ([Finish(0)] + rest)) == Run(State([Some(row)], map[], []), jobs, rest)
  {
    var e1, e2 := BeginCreate(0, 0, job, title, None), Finish(0);
    var s1 := Step(INITIAL, jobs, e1);
    RunHead(INITIAL, jobs, e1, [e2] + rest);
    RunHead(s1, jobs, e2, rest);
    assert s1.pending == map[0 := Creating(row)];
    assert Commits([], Creating(row)) && Commit([], Creating(row)) == [Some(row)];
    assert Step(s1, jobs, e2) == State([Some(row)], map[], []);
  }

  /** An application is moved and archived in one update. */
  const MOVE_AND_ARCHIVE: seq<Event> := [BeginUpdate(1, 0, 0, Patch(0, Some(Applied), Some(Archived), map[]))] + ([Finish(1)] + [])

  /** From a freshly entered application that run ends with a history that is no chain. */
  lemma MoveAndArchiveBreaksChain(jobs: map<nat, string>, title: string)
    requires title != ""
    ensures var events := [BeginCreate(0, 0, None, title, None)] + ([Finish(0)] + MOVE_AND_ARCHIVE);
      var apps := Run(INITIAL, jobs, events).apps;
      && |apps| == 1 && apps[0].Some? && apps[0].value.stage == Applied
      && apps[0].value.history == [Edge(None, Saved), Edge(Some(Saved), Applied), Edge(Some(Saved), Applied)]
      && !Chained(apps[0].value.history)
  {
    var row := FreshRow(None, title);
    AfterCreate(jobs, None, title, row, MOVE_AND_ARCHIVE);
    MoveAndArchiveRuns(jobs, row);
  }

  lemma MoveAndArchiveRuns(jobs: map<nat, string>, row: Application)
    requires row.user == 0 && row.stage == Saved && row.lifecycle == Active && row.revision == 0
    requires row.history == [Edge(None, Saved)]
    ensures var apps := Run(State([Some(row)], map[], []), jobs, MOVE_AND_ARCHIVE).apps;
      && |apps| == 1 && apps[0].Some? && apps[0].value.stage == Applied
      && apps[0].value.history == [Edge(None, Saved), Edge(Some(Saved), Applied), Edge(Some(Saved), Applied)]
      && !Chained(apps[0].value.history)
  {
    var patch, s := Patch(0, Some(Applied), Some(Archived), map[]), State([Some(row)], map[], []);
    var s1 := Step(s, jobs, BeginUpdate(1, 0, 0, patch));
    assert s1.pending == map[1 := Updating(0, 0, patch, row)];
    RunHead(s, jobs, BeginUpdate(1, 0, 0, patch), [Finish(1)] + []);
    RunHead(s1, jobs, Finish(1), []);
    var moved := Patched(row, patch, row);
    var h := moved.history;
    assert h == [Edge(None, Saved), Edge(Some(Saved), Applied), Edge(Some(Saved), Applied)];
    assert h[2].source != Some(h[1].target);
    assert Step(s1, jobs, Finish(1)).apps == [Some(moved)];
  }

  /** An archived application is tracked again; between the read and the write of that
      request it is moved to APPLIED. */
  function StaleRetrack(job: nat): seq<Event> {
    [BeginUpdate(1, 0, 0, Patch(0, None, Some(Archived), map[]))] + ([Finish(1)]
    + ([BeginCreate(2, 0, Some(job), "", None)] + ([BeginUpdate(3, 0, 0, Patch(1, Some(Applied), None, map[]))]
    + ([Finish(3)] + ([Finish(2)] + [])))))
  }

  /** From a freshly tracked job that run ends with a history that is no chain and whose last
      entry is not the current stage. */
  lemma StaleRetrackBreaksChain(jobs: map<nat, string>, job: nat)
    requires job in jobs && jobs[job] != ""
    ensures var events := [BeginCreate(0, 0, Some(job), "", None)] + ([Finish(0)] + StaleRetrack(job));
      var apps := Run(INITIAL, jobs, events).apps;
      && |apps| == 1 && apps[0].Some? && apps[0].value.stage == Applied && apps[0].value.lifecycle == Active
      && !Chained(apps[0].value.history) && !EndsAt(apps[0].value.history, Applied)
  {
    var row := FreshRow(Some(job), jobs[job]);
    AfterCreate(jobs, Some(job), "", row, StaleRetrack(job));
    StaleRetrackRuns(State([Some(row)], map[], []), jobs, job, row);
  }

  lemma StaleRetrackRuns(s: State, jobs: map<nat, string>, job: nat, row: Application)
    requires job in jobs && s.apps == [Some(row)] && s.pending == map[]
    requires row.user == 0 && row.job == Some(job) && row.stage == Saved && row.lifecycle == Active && row.revision == 0
    requires row.history == [Edge(None, Saved)]
    ensures var apps := Run(s, jobs, StaleRetrack(job)).apps;
      && |apps| == 1 && apps[0].Some? && apps[0].value.stage == Applied && apps[0].value.lifecycle == Active
      && !Chained(apps[0].value.history) && !EndsAt(apps[0].value.history, Applied)
  {
    var archive, move := Patch(0, None, Some(Archived), map[]), Patch(1, Some(Applied), None, map[]);
    var e1, e2, e3 := BeginUpdate(1, 0, 0, archive), Finish(1), BeginCreate(2, 0, Some(job), "", None);
    var e4, e5, e6 := BeginUpdate(3, 0, 0, move), Finish(3), Finish(2);
    var s1 := Step(s, jobs, e1);
    var s2 := Step(s1, jobs, e2);
    var s3 := Step(s2, jobs, e3);
    var s4 := Step(s3, jobs, e4);
    var s5 := Step(s4, jobs, e5);
    RunHead(s, jobs, e1, [e2] + ([e3] + ([e4] + ([e5] + ([e6] + [])))));
    RunHead(s1, jobs, e2, [e3] + ([e4] + ([e5] + ([e6] + []))));
    RunHead(s2, jobs, e3, [e4] + ([e5] + ([e6] + [])));
    RunHead(s3, jobs, e4, [e5] + ([e6] + []));
    RunHead(s4, jobs, e5, [e6] + []);
    RunHead(s5, jobs, e6, []);
    var archived := Patched(row, archive, row);
    assert s2.apps == [Some(archived)] && s2.pending == map[];
    assert FindTracked(s2.apps, 0, job) == Some(0);
    assert s3.pending == map[2 := Retracking(0, Saved)];
    var moved := Patched(archived, move, archived);
    assert s5.apps == [Some(moved)] && s5.pending == map[2 := Retracking(0, Saved)];
    var last := Retracked(moved, Saved);
    var h := last.history;
    assert |h| == 4 && h[2] == Edge(Some(Saved), Applied) && h[3] == Edge(Some(Saved), Saved);
    assert h[3].source != Some(h[2].target);
  }

  /** The two lemmas' conditions, for the write about to happen. */
  predicate Plain(apps: Table, p: Pending) {
    match p
    case Updating(_, _, patch, seen) => !(StageChanging(patch, seen) && LifecycleChanging(patch, seen))
    case Retracking(id, seenStage) => Has(apps, id) ==> apps[id].value.stage == seenStage
    case _ => true
  }

  predicate AllPlain(s: State, jobs: map<nat, string>, es: seq<Event>)
    decreases |es|
  {
    es == [] || (
      && (es[0].Finish? && es[0].op in s.pending && Commits(s.apps, s.pending[es[0].op]) ==> Plain(s.apps, s.pending[es[0].op]))
      && AllPlain(Step(s, jobs, es[0]), jobs, es[1..]))
  }

  predicate AllChained(apps: Table) {
    forall i :: 0 <= i < |apps| && apps[i].Some? ==> Chained(apps[i].value.history) && EndsAt(apps[i].value.history, apps[i].value.stage)
  }

  lemma PlainCommitKeepsChains(apps: Table, p: Pending)
    requires AllChained(apps) && PendingOk(apps, p) && (Commits(apps, p) ==> Plain(apps, p))
    ensures AllChained(Commit(apps, p))
  {
    if Commits(apps, p) {
      match p
      case Updating(_, id, patch, seen) => UpdateKeepsChain(apps[id].value, patch);
      case Retracking(id, seenStage) => RetrackKeepsChain(apps[id].value, seenStage);
      case _ =>
    }
  }

  /** In runs of plain writes every history is a gapless path to the current stage. */
  lemma {:induction false} PlainRunsKeepChains(s: State, jobs: map<nat, string>, es: seq<Event>)
    requires Inv(s) && AllChained(s.apps) && AllPlain(s, jobs, es)
    ensures AllChained(Run(s, jobs, es).apps)
    decreases |es|
  {
    if es != [] {
      StepKeepsInv(s, jobs, es[0]);
      if es[0].Finish? && es[0].op in s.pending {
        PlainCommitKeepsChains(s.apps, s.pending[es[0].op]);
      }
      PlainRunsKeepChains(Step(s, jobs, es[0]), jobs, es[1..]);
    }
  }

  // ---- the service -------------------------------------------------------------

  /** An update stores what was sent and leaves the rest: each column in the patch has its new
      value and every other column its old one, likewise stage and lifecycle; the revision
      is the next one, and the history gains one entry for a changed stage and one for a
      changed lifecycle, from the stage that was read to the one asked for. */
  ghost predicate StoresPatch(was: Application, now: Application, patch: Patch, seen: Application) {
    var changes := (if patch.stage.Some? && patch.stage.value != seen.stage then 1 else 0)
      + (if patch.lifecycle.Some? && patch.lifecycle.value != seen.lifecycle then 1 else 0);
    && now.user == was.user && now.job == was.job && now.revision == was.revision + 1
    && now.stage == (if patch.stage.Some? then patch.stage.value else was.stage)
    && now.lifecycle == (if patch.lifecycle.Some? then patch.lifecycle.value else was.lifecycle)
    && (forall column :: column in now.fields <==> column in patch.fields || column in was.fields)
    && (forall column :: column in patch.fields ==> now.fields[column] == patch.fields[column])
    && (forall column :: column in was.fields && column !in patch.fields ==> now.fields[column] == was.fields[column])
    && |now.history| == |was.history| + changes && was.history <= now.history
    && forall i :: |was.history| <= i < |now.history| ==>
      now.history[i] == Edge(Some(seen.stage), if patch.stage.Some? then patch.stage.value else seen.stage)
  }

  /** A re-tracking restore makes the row active again and notes the stage that was read. */
  ghost predicate Restores(was: Application, now: Application, seenStage: Stage) {
    && now.user == was.user && now.job == was.job && now.stage == was.stage && now.fields == was.fields
    && now.lifecycle == Active && now.revision == was.revision + 1
    && |now.history| == |was.history| + 1 && was.history <= now.history
    && now.history[|was.history|] == Edge(Some(seenStage), seenStage)
  }

  class TrackerService {
    var apps: Table
    var jobs: map<nat, string>

    constructor (jobs: map<nat, string>)
      ensures apps == [] && this.jobs == jobs
    {
      apps, this.jobs := [], jobs;
    }

    method BeginUpdate(user: nat, id: nat, patch: Patch) returns (outcome: Outcome)
      ensures outcome == ReadForUpdate(apps, user, id, patch)
      ensures outcome.NotFound? <==> !Owns(apps, user, id)
      ensures outcome.Conflict? <==> Owns(apps, user, id) && apps[id].value.revision != patch.expected
      ensures outcome.BadRequest? <==>
        && Owns(apps, user, id) && apps[id].value.revision == patch.expected
        && patch.stage.Some? && patch.stage.value !in AllowedNext(apps[id].value.stage) + {apps[id].value.stage}
      ensures outcome.Proceed? ==> outcome.pending == Updating(user, id, patch, apps[id].value) && Commits(apps, outcome.pending)
      ensures !outcome.AlreadyTracked?
    {
      if !(id < |apps| && apps[id].Some? && apps[id].value.user == user) { return NotFound; }
      var current := apps[id].value;
      if current.revision != patch.expected { return Conflict; }
      var stageChanging := patch.stage.Some? && patch.stage.value != current.stage;
      if stageChanging && !ValidTransition(current.stage, patch.stage.value) { return BadRequest; }
      outcome := Proceed(Updating(user, id, patch, current));
    }

    /** The update transaction; it answers with a conflict when no row matched. */
    method FinishUpdate(p: Pending) returns (ok: bool)
      requires p.Updating?
      modifies this`apps
      ensures apps == Commit(old(apps), p) && ok == Commits(old(apps), p)
      ensures ok <==>
        && p.id < |old(apps)| && old(apps)[p.id].Some?
        && old(apps)[p.id].value.user == p.user && old(apps)[p.id].value.revision == p.patch.expected
      ensures !ok ==> apps == old(apps)
      ensures |apps| == |old(apps)| && forall other :: 0 <= other < |apps| && other != p.id ==> apps[other] == old(apps)[other]
      ensures ok ==> apps[p.id].Some? && StoresPatch(old(apps)[p.id].value, apps[p.id].value, p.patch, p.seen)
    {
      if !(p.id < |apps| && apps[p.id].Some? && apps[p.id].value.user == p.user && apps[p.id].value.revision == p.patch.expected) {
        return false;
      }
      var row := apps[p.id].value.(revision := apps[p.id].value.revision + 1);
      if p.patch.stage.Some? { row := row.(stage := p.patch.stage.value); }
      if p.patch.lifecycle.Some? { row := row.(lifecycle := p.patch.lifecycle.value); }
      row := row.(fields := row.fields + p.patch.fields);
      if StageChanging(p.patch, p.seen) {
        row := row.(history := row.history + [Edge(Some(p.seen.stage), p.patch.stage.value)]);
      }
      if LifecycleChanging(p.patch, p.seen) {
        row := row.(history := row.history + [Edge(Some(p.seen.stage), OrElse(p.patch.stage, p.seen.stage))]);
      }
      assert row.history == Patched(apps[p.id].value, p.patch, p.seen).history;
      apps := apps[p.id := Some(row)];
      ok := true;
    }

    method BeginDelete(user: nat, id: nat, expected: nat) returns (outcome: Outcome)
      ensures outcome == ReadForDelete(apps, user, id, expected)
      ensures outcome.NotFound? <==> !Owns(apps, user, id)
      ensures outcome.Conflict? <==> Owns(apps, user, id) && apps[id].value.revision != expected
      ensures outcome.Proceed? <==> Owns(apps, user, id) && apps[id].value.revision == expected
      ensures outcome.Proceed? ==> outcome.pending == Deleting(user, id, expected, apps[id].value) && Commits(apps, outcome.pending)
    {
      if !(id < |apps| && apps[id].Some? && apps[id].value.user == user) { return NotFound; }
      if apps[id].value.revision != expected { return Conflict; }
      outcome := Proceed(Deleting(user, id, expected, apps[id].value));
    }

    method FinishDelete(p: Pending) returns (ok: bool)
      requires p.Deleting?
      modifies this`apps
      ensures apps == Commit(old(apps), p) && ok == Commits(old(apps), p)
      ensures ok <==>
        && p.id < |old(apps)| && old(apps)[p.id].Some?
        && old(apps)[p.id].value.user == p.user && old(apps)[p.id].value.revision == p.expected
      ensures ok ==> !Has(apps, p.id)
      ensures !ok ==> apps == old(apps)
      ensures |apps| == |old(apps)| && forall other :: 0 <= other < |apps| && other != p.id ==> apps[other] == old(apps)[other]
    {
      ok := p.id < |apps| && apps[p.id].Some? && apps[p.id].value.user == p.user && apps[p.id].value.revision == p.expected;
      if ok { apps := apps[p.id := None]; }
    }

    method BeginCreate(user: nat, job: Option<nat>, title: string, stage: Option<Stage>) returns (outcome: Outcome)
      ensures outcome == ReadForCreate(apps, jobs, user, job, title, stage)
      ensures outcome.NotFound? <==> job.Some? && job.value !in jobs
      ensures outcome.AlreadyTracked? || (outcome.Proceed? && outcome.pending.Retracking?)
        <==> job.Some? && job.value in jobs && exists i :: 0 <= i < |apps| && Tracks(apps[i], user, job.value)
      ensures outcome.AlreadyTracked? ==>
        && outcome.id < |apps| && Tracks(apps[outcome.id], user, job.value)
        && apps[outcome.id].value.lifecycle == Active
      ensures outcome.Proceed? && outcome.pending.Retracking? ==>
        var id := outcome.pending.id;
        && id < |apps| && Tracks(apps[id], user, job.value)
        && apps[id].value.lifecycle == Archived && outcome.pending.seenStage == apps[id].value.stage
      ensures outcome.BadRequest? <==>
        && title == "" && (job.Some? ==> job.value in jobs && jobs[job.value] == "")
        && (job.Some? ==> forall i :: 0 <= i < |apps| ==> !Tracks(apps[i], user, job.value))
      ensures outcome.Proceed? && outcome.pending.Creating? ==>
        var row := outcome.pending.row;
        && row.user == user && row.job == job && row.lifecycle == Active && row.revision == 0
        && row.stage == (if stage.Some? then stage.value else Saved) && row.history == [Edge(None, row.stage)]
        && row.fields == map[ROLE_TITLE := Some(if title != "" || job.None? then title else jobs[job.value])]
      ensures outcome.Proceed? ==> Commits(apps, outcome.pending)
      ensures !outcome.Conflict?
    {
      var roleTitle := title;
      if job.Some? {
        if job.value !in jobs { return NotFound; }
        if roleTitle == "" { roleTitle := jobs[job.value]; }
        var existing := FindTracked(apps, user, job.value);
        if existing.Some? {
          var row := apps[existing.value].value;
          if row.lifecycle == Archived { return Proceed(Retracking(existing.value, row.stage)); }
          return AlreadyTracked(existing.value);
        }
      }
      if roleTitle == "" { return BadRequest; }
      var initial := if stage.Some? then stage.value else Saved;
      outcome := Proceed(Creating(Application(user, job, initial, Active, map[ROLE_TITLE := Some(roleTitle)], 0, [Edge(None, initial)])));
    }

    /** Either transaction of `create`: the restore by re-tracking, or the new row. */
    method FinishCreate(p: Pending) returns (ok: bool)
      requires p.Retracking? || p.Creating?
      modifies this`apps
      ensures apps == Commit(old(apps), p) && ok == Commits(old(apps), p)
      ensures !ok ==> apps == old(apps)
      ensures p.Retracking? ==>
        && (ok <==> p.id < |old(apps)| && old(apps)[p.id].Some?)
        && |apps| == |old(apps)| && (forall other :: 0 <= other < |apps| && other != p.id ==> apps[other] == old(apps)[other])
        && (ok ==> apps[p.id].Some? && Restores(old(apps)[p.id].value, apps[p.id].value, p.seenStage))
      ensures p.Creating? ==>
        && (ok <==> p.row.job.Some? ==> forall i :: 0 <= i < |old(apps)| && old(apps)[i].Some? ==>
             old(apps)[i].value.user != p.row.user || old(apps)[i].value.job != p.row.job)
        && (ok ==> apps == old(apps) + [Some(p.row)])
    {
      if p.Retracking? {
        ok := p.id < |apps| && apps[p.id].Some?;
        if ok {
          var row := apps[p.id].value;
          row := row.(lifecycle := Active, revision := row.revision + 1);
          row := row.(history := row.history + [Edge(Some(p.seenStage), p.seenStage)]);
          apps := apps[p.id := Some(row)];
        }
      } else {
        ok := p.row.job.None? || FindTracked(apps, p.row.user, p.row.job.value).None?;
        if ok { apps := apps + [Some(p.row)]; }
      }
    }

    /** Archiving and un-archiving, when nothing comes between the read and the write. */
    method SetLifecycle(user: nat, id: nat, expected: nat, to: Lifecycle) returns (ok: bool)
      modifies this`apps
      ensures ok <==> Owns(old(apps), user, id) && old(apps)[id].value.revision == expected
      ensures !ok ==> apps == old(apps)
      ensures |apps| == |old(apps)| && forall other :: 0 <= other < |apps| && other != id ==> apps[other] == old(apps)[other]
      ensures ok ==>
        && Has(apps, id) && apps[id].value.lifecycle == to && apps[id].value.stage == old(apps)[id].value.stage
        && apps[id].value.revision == expected + 1 && apps[id].value.fields == old(apps)[id].value.fields
    {
      var outcome := BeginUpdate(user, id, Patch(expected, None, Some(to), map[]));
      if !outcome.Proceed? { return false; }
      ok := FinishUpdate(outcome.pending);
    }
  }
}
