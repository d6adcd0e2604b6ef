/** Onboarding progress: autosave together with candidate data, skip and complete.

    Every operation is one transaction over the progress row and the candidate of a user. */
module Onboarding {
  import opened Ordering
  import opened Profile

  datatype Status = NotStarted | InProgress | Skipped | Completed

  datatype Stage = Goal | Reach | Fit | Review

  function AllowedNext(s: Status): set<Status> {
    match s
    case NotStarted => {InProgress, Skipped}
    case InProgress => {Completed, Skipped, InProgress}
    case Skipped => {InProgress, Completed, Skipped}
    case Completed => {Completed}
  }

  datatype Progress = Progress(
    status: Status, currentStep: Stage, completedSteps: set<Stage>, revision: nat,
    startedAt: Option<int>, completedAt: Option<int>, skippedAt: Option<int>)

  const ALL_STEPS := {Goal, Reach, Fit, Review}

  /** `candidateExpected` is the optional revision for the candidate part. */
  datatype Draft = Draft(
    expected: int, currentStep: Option<Stage>, completedSteps: Option<set<Stage>>,
    details: Option<map<string, string>>, preferences: Option<map<string, string>>, skills: Option<seq<SkillInput>>,
    candidateExpected: Option<int>)

  /** The rows of one user. */
  datatype Rows = Rows(progress: Option<Progress>, candidate: Option<Candidate>)

  datatype Outcome = Success(rows: Rows) | Conflict | BadRequest

  predicate TouchesCandidate(d: Draft) {
    d.details.Some? || d.preferences.Some? || d.skills.Some?
  }

  function CandidatePayload(d: Draft, existing: Option<Candidate>): Payload {
    Payload(
      if d.candidateExpected.Some? then d.candidateExpected.value else RevisionOf(existing),
      if d.details.Some? then d.details.value else map[], d.preferences, d.skills)
  }

  /** The progress half of an autosave; creation is refused by the unique user index. */
  function AutosaveProgress(existing: Option<Progress>, d: Draft, now: int): Option<Progress> {
    if d.expected == 0 then
      if existing.Some? then None
      else Some(Progress(
        InProgress, if d.currentStep.Some? then d.currentStep.value else Goal,
        if d.completedSteps.Some? then d.completedSteps.value else {}, 1, Some(now), None, None))
    else if existing.None? || existing.value.revision != d.expected then None
    else
      var p := existing.value;
      Some(p.(status := InProgress, revision := p.revision + 1,
              currentStep := if d.currentStep.Some? then d.currentStep.value else p.currentStep,
              completedSteps := if d.completedSteps.Some? then d.completedSteps.value else p.completedSteps))
  }

  function Autosave(t: Text, rows: Rows, d: Draft, now: int): Outcome {
    if d.expected > 0 && rows.progress.Some? && InProgress !in AllowedNext(rows.progress.value.status) then BadRequest
    else
      var progress := AutosaveProgress(rows.progress, d, now);
      if progress.None? then Conflict
      else if !TouchesCandidate(d) then Success(rows.(progress := progress))
      else
        var payload := CandidatePayload(d, rows.candidate);
        if !SaveAllowed(rows.candidate, payload) then Conflict
        else Success(Rows(progress, Some(Saved(t, rows.candidate, payload))))
  }

  /** `skip` and `complete`, which differ in the row they write. */
  function Finish(rows: Rows, expected: int, to: Status, now: int): Outcome
    requires to == Skipped || to == Completed
  {
    if expected == 0 then
      if rows.progress.Some? then Conflict
      else if to == Skipped then Success(rows.(progress := Some(Progress(Skipped, Goal, {}, 1, None, None, Some(now)))))
      else Success(rows.(progress := Some(Progress(Completed, Review, ALL_STEPS, 1, None, Some(now), None))))
    else if rows.progress.None? then Conflict
    else
      var p := rows.progress.value;
      if to !in AllowedNext(p.status) then BadRequest
      else if p.revision != expected then Conflict
      else if to == Skipped then Success(rows.(progress := Some(p.(status := Skipped, revision := p.revision + 1, skippedAt := Some(now)))))
      else Success(rows.(progress := Some(p.(status := Completed, revision := p.revision + 1, currentStep := Review,
                                             completedSteps := ALL_STEPS, completedAt := Some(now)))))
  }

  // ---- runs --------------------------------------------------------------------

  datatype Op =
    | AutosaveOp(draft: Draft, now: int)
    | SkipOp(expected: int, now: int)
    | CompleteOp(expected: int, now: int)
    | SaveProfileOp(payload: Payload)

  function Apply(t: Text, rows: Rows, op: Op): Outcome {
    match op
    case AutosaveOp(draft, now) => Autosave(t, rows, draft, now)
    case SkipOp(expected, now) => Finish(rows, expected, Skipped, now)
    case CompleteOp(expected, now) => Finish(rows, expected, Completed, now)
    case SaveProfileOp(payload) =>
      if SaveAllowed(rows.candidate, payload) then Success(rows.(candidate := Some(Saved(t, rows.candidate, payload)))) else Conflict
  }

  function Step(t: Text, rows: Rows, op: Op): Rows {
    if Apply(t, rows, op).Success? then Apply(t, rows, op).rows else rows
  }

  function Run(t: Text, rows: Rows, ops: seq<Op>): Rows
    decreases |ops|
  {
    if ops == [] then rows else Run(t, Step(t, rows, ops[0]), ops[1..])
  }

  const NO_ROWS := Rows(None, None)

  function ProgressRevision(rows: Rows): nat {
    if rows.progress.Some? then rows.progress.value.revision else 0
  }

  /** What a client is shown: a missing row reads as not started. */
  function StatusShown(rows: Rows): Status {
    if rows.progress.Some? then rows.progress.value.status else NotStarted
  }

  /** The progress revision an operation is conditional on, if it writes progress. */
  function ExpectedProgress(op: Op): Option<int> {
    match op
    case AutosaveOp(draft, _) => Some(draft.expected)
    case SkipOp(expected, _) => Some(expected)
    case CompleteOp(expected, _) => Some(expected)
    case SaveProfileOp(_) => None
  }

  // ---- single operations -------------------------------------------------------

  /** Together or not at all: exactly when both parts are current does an autosave succeed,
      and then both revisions move by one; a refused one leaves both rows as they were. */
  lemma AutosaveIsAtomic(t: Text, rows: Rows, d: Draft, now: int)
    requires rows.progress.Some? ==> rows.progress.value.revision > 0
    requires rows.candidate.Some? ==> rows.candidate.value.revision > 0
    ensures var out := Step(t, rows, AutosaveOp(d, now));
      && (Apply(t, rows, AutosaveOp(d, now)).Success? <==>
           && d.expected == ProgressRevision(rows)
           && StatusShown(rows) != Completed
           && (TouchesCandidate(d) && d.candidateExpected.Some? ==> d.candidateExpected.value == RevisionOf(rows.candidate)))
      && (Apply(t, rows, AutosaveOp(d, now)).Success? ==>
           && ProgressRevision(out) == ProgressRevision(rows) + 1
           && StatusShown(out) == InProgress
           && (if TouchesCandidate(d) then out.candidate.Some? && IsSaved(t, rows.candidate, CandidatePayload(d, rows.candidate), out.candidate.value)
               else out.candidate == rows.candidate))
      && (!Apply(t, rows, AutosaveOp(d, now)).Success? ==> out == rows)
  {
  }

  /** An existing record's status only moves along the table, one revision at a time. */
  lemma ExistingRecordFollowsTable(t: Text, rows: Rows, op: Op)
    requires rows.progress.Some?
    ensures var out := Step(t, rows, op);
      && out.progress.Some?
      && (out.progress == rows.progress
          || (StatusShown(out) in AllowedNext(StatusShown(rows)) && ProgressRevision(out) == ProgressRevision(rows) + 1))
  {
  }

  /** As a client sees it the table is broken by exactly one operation: completing with no
      record yet, which reads as going from not started straight to completed. */
  lemma ShownStatusFollowsTable(t: Text, rows: Rows, op: Op)
    ensures var out := Step(t, rows, op);
      (out.progress == rows.progress || StatusShown(out) in AllowedNext(StatusShown(rows)))
      <==> !(rows.progress.None? && op.CompleteOp? && op.expected == 0)
  {
  }

  // ---- whole runs --------------------------------------------------------------

  predicate Ok(rows: Rows) {
    && (rows.progress.Some? ==> rows.progress.value.revision > 0 && rows.progress.value.status != NotStarted)
    && (rows.candidate.Some? ==> rows.candidate.value.revision > 0)
  }

  lemma StepIsMonotone(t: Text, rows: Rows, op: Op)
    requires Ok(rows)
    ensures var out := Step(t, rows, op);
      && Ok(out)
      && ProgressRevision(rows) <= ProgressRevision(out) && RevisionOf(rows.candidate) <= RevisionOf(out.candidate)
      && (ProgressRevision(rows) == ProgressRevision(out) ==> rows.progress == out.progress)
      && (RevisionOf(rows.candidate) == RevisionOf(out.candidate) ==> rows.candidate == out.candidate)
      && (rows.progress.Some? ==> out.progress.Some?)
      && (StatusShown(rows) == Completed ==> StatusShown(out) == Completed)
  {
  }

  lemma {:induction false} RunIsMonotone(t: Text, rows: Rows, ops: seq<Op>)
    requires Ok(rows)
    ensures var out := Run(t, rows, ops);
      && Ok(out)
      && ProgressRevision(rows) <= ProgressRevision(out) && RevisionOf(rows.candidate) <= RevisionOf(out.candidate)
      && (ProgressRevision(rows) == ProgressRevision(out) ==> rows.progress == out.progress)
      && (RevisionOf(rows.candidate) == RevisionOf(out.candidate) ==> rows.candidate == out.candidate)
      && (StatusShown(rows) == Completed ==> StatusShown(out) == Completed)
    decreases |ops|
  {
    if ops != [] {
      StepIsMonotone(t, rows, ops[0]);
      RunIsMonotone(t, Step(t, rows, ops[0]), ops[1..]);
    }
  }

  /** Once completed, completed for good, whatever is tried afterwards. */
  lemma CompletedIsForGood(t: Text, before: seq<Op>, after: seq<Op>)
    requires StatusShown(Run(t, NO_ROWS, before)) == Completed
    ensures StatusShown(Run(t, Run(t, NO_ROWS, before), after)) == Completed
  {
    RunIsMonotone(t, NO_ROWS, before);
    RunIsMonotone(t, Run(t, NO_ROWS, before), after);
  }

  /** No lost update: after a success carrying an expected revision, no later operation
      carrying the same one succeeds; at most one writer builds on a given revision. */
  lemma RevisionIsSpentOnce(t: Text, before: seq<Op>, op: Op, between: seq<Op>, again: Op)
    requires Apply(t, Run(t, NO_ROWS, before), op).Success?
    requires ExpectedProgress(op).Some? && ExpectedProgress(again) == ExpectedProgress(op)
    ensures !Apply(t, Run(t, Step(t, Run(t, NO_ROWS, before), op), between), again).Success?
  {
    RunIsMonotone(t, NO_ROWS, before);
    var rows := Run(t, NO_ROWS, before);
    SuccessSpendsRevision(t, rows, op);
    StepIsMonotone(t, rows, op);
    RunIsMonotone(t, Step(t, rows, op), between);
    var later := Run(t, Step(t, rows, op), between);
    if Apply(t, later, again).Success? { SuccessSpendsRevision(t, later, again); }
  }

  lemma SuccessSpendsRevision(t: Text, rows: Rows, op: Op)
    requires Ok(rows) && ExpectedProgress(op).Some? && Apply(t, rows, op).Success?
    ensures ExpectedProgress(op) == Some(ProgressRevision(rows)) && ProgressRevision(Step(t, rows, op)) == ProgressRevision(rows) + 1
  {
  }

  // ---- the service -------------------------------------------------------------

  datatype Reply = Accepted | Refused(conflict: bool)

  /** Zero stands for no record yet, anything else for the record's revision. */
  predicate IsCurrent(p: Option<Progress>, expected: int) {
    if expected == 0 then p.None? else p.Some? && p.value.revision == expected
  }

  predicate IsCurrentRevision(c: Option<Candidate>, expected: int) {
    if c.Some? then c.value.revision == expected else expected == 0
  }

  /** The record after an autosave: in progress, one revision on, with the step and the
      completed steps of the draft where it gives them and all else as it was; a new record
      starts now, at the first step. */
  predicate StoresDraft(was: Option<Progress>, out: Progress, d: Draft, now: int) {
    var before := if was.Some? then was.value else Progress(InProgress, Goal, {}, 0, Some(now), None, None);
    && out.status == InProgress && out.revision == before.revision + 1
    && out.currentStep == (if d.currentStep.Some? then d.currentStep.value else before.currentStep)
    && out.completedSteps == (if d.completedSteps.Some? then d.completedSteps.value else before.completedSteps)
    && out.startedAt == before.startedAt && out.completedAt == before.completedAt && out.skippedAt == before.skippedAt
  }

  /** The record after skipping or completing, dated now; completing puts it at the review
      with all steps done. */
  predicate Finishes(was: Option<Progress>, out: Progress, to: Status, now: int) {
    var before := if was.Some? then was.value else Progress(to, Goal, {}, 0, None, None, None);
    && out.status == to && out.revision == before.revision + 1 && out.startedAt == before.startedAt
    && (if to == Skipped
        then && out.skippedAt == Some(now) && out.completedAt == before.completedAt
             && out.currentStep == before.currentStep && out.completedSteps == before.completedSteps
        else && out.completedAt == Some(now) && out.skippedAt == before.skippedAt
             && out.currentStep == Review && out.completedSteps == {Goal, Reach, Fit, Review})
  }

  class OnboardingService {
    var progress: Option<Progress>
    var candidate: Option<Candidate>
    const text: Text

    constructor (text: Text)
      ensures progress == None && candidate == None && this.text == text
    {
      progress, candidate, this.text := None, None, text;
    }

    /** Writes go to the transaction's copies and reach the rows only with its commit. */
    method AutosaveTransaction(d: Draft, now: int) returns (reply: Reply)
      modifies this
      ensures var out := Autosave(text, Rows(old(progress), old(candidate)), d, now);
        && reply == (if out.Success? then Accepted else Refused(out.Conflict?))
        && Rows(progress, candidate) == (if out.Success? then out.rows else Rows(old(progress), old(candidate)))
      ensures reply.Accepted? <==>
        && IsCurrent(old(progress), d.expected) && (d.expected != 0 ==> old(progress).value.status != Completed)
        && (TouchesCandidate(d) && d.candidateExpected.Some? ==> IsCurrentRevision(old(candidate), d.candidateExpected.value))
      ensures reply == Refused(false) <==> d.expected > 0 && old(progress).Some? && old(progress).value.status == Completed
      ensures !reply.Accepted? ==> progress == old(progress) && candidate == old(candidate)
      ensures reply.Accepted? ==> progress.Some? && StoresDraft(old(progress), progress.value, d, now)
      ensures reply.Accepted? && !TouchesCandidate(d) ==> candidate == old(candidate)
      ensures reply.Accepted? && TouchesCandidate(d) ==>
        candidate.Some? && StoresPayload(
          text, old(candidate), Payload(0, if d.details.Some? then d.details.value else map[], d.preferences, d.skills), candidate.value)
    {
      var txProgress, txCandidate := progress, candidate;
      if d.expected > 0 && txProgress.Some? {
        if InProgress !in AllowedNext(txProgress.value.status) { return Refused(false); }
      }
      if d.expected == 0 {
        if txProgress.Some? { return Refused(true); }
        txProgress := Some(Progress(
          InProgress, if d.currentStep.Some? then d.currentStep.value else Goal,
          if d.completedSteps.Some? then d.completedSteps.value else {}, 1, Some(now), None, None));
      } else {
        if txProgress.None? || txProgress.value.revision != d.expected { return Refused(true); }
        var row := txProgress.value.(status := InProgress, revision := txProgress.value.revision + 1);
        if d.currentStep.Some? { row := row.(currentStep := d.currentStep.value); }
        if d.completedSteps.Some? { row := row.(completedSteps := d.completedSteps.value); }
        txProgress := Some(row);
      }
      if TouchesCandidate(d) {
        var payload := CandidatePayload(d, txCandidate);
        var saved := SaveCandidateData(text, txCandidate, payload);
        if saved.None? { return Refused(true); }
        SaveIsDetermined(text, txCandidate, payload, saved.value, Saved(text, txCandidate, payload));
        assert StoresPayload(text, txCandidate, payload.(expected := 0), saved.value);
        txCandidate := saved;
      }
      progress, candidate := txProgress, txCandidate;
      reply := Accepted;
    }

    method FinishTransaction(expected: int, to: Status, now: int) returns (reply: Reply)
      requires to == Skipped || to == Completed
      modifies this`progress
      ensures var out := Finish(Rows(old(progress), candidate), expected, to, now);
        && reply == (if out.Success? then Accepted else Refused(out.Conflict?))
        && Rows(progress, candidate) == (if out.Success? then out.rows else Rows(old(progress), candidate))
      ensures reply.Accepted? <==>
        && IsCurrent(old(progress), expected)
        && (expected != 0 ==> old(progress).value.status != if to == Skipped then Completed else NotStarted)
      ensures reply == Refused(false) <==>
        expected != 0 && old(progress).Some? && old(progress).value.status == if to == Skipped then Completed else NotStarted
      ensures !reply.Accepted? ==> progress == old(progress)
      ensures reply.Accepted? ==> progress.Some? && Finishes(old(progress), progress.value, to, now)
    {
      if expected == 0 {
        if progress.Some? { return Refused(true); }
        progress := if to == Skipped then Some(Progress(Skipped, Goal, {}, 1, None, None, Some(now)))
                    else Some(Progress(Completed, Review, ALL_STEPS, 1, None, Some(now), None));
        return Accepted;
      }
      if progress.None? { return Refused(true); }
      if to !in AllowedNext(progress.value.status) { return Refused(false); }
      if progress.value.revision != expected { return Refused(true); }
      var row := progress.value.(status := to, revision := expected + 1);
      if to == Skipped {
        row := row.(skippedAt := Some(now));
      } else {
        row := row.(currentStep := Review, completedSteps := ALL_STEPS, completedAt := Some(now));
      }
      progress := Some(row);
      reply := Accepted;
    }
  }
}
