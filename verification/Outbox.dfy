/** The job outbox: dispatcher, at-least-once queue, worker acknowledgements and reaper.

    Events are kept in creation order and an event's position is its id.  The dispatch
    transaction puts work on the queue before it commits, so a rollback leaves the work
    queued; the queue may deliver an id any number of times, arbitrarily late. */
module Outbox {
  import opened Ordering

  datatype Status = Pending | Processing | Processed | Failed

  datatype Event = Event(jobId: nat, status: Status, attempts: nat, updatedAt: int, hasError: bool)

  function UpdateRows(events: seq<Event>, ids: seq<int>, change: Event -> Event): (out: seq<Event>)
    ensures |out| == |events|
    ensures forall i :: 0 <= i < |events| ==> out[i] == if i in ids then change(events[i]) else events[i]
  {
    seq(|events|, i requires 0 <= i < |events| => if i in ids then change(events[i]) else events[i])
  }

  /** SELECT .. WHERE status = 'PENDING' ORDER BY createdAt LIMIT n FOR UPDATE SKIP LOCKED. */
  function PendingBatch(events: seq<Event>, locked: set<int>, n: nat): (ids: seq<int>)
    ensures |ids| <= n
    ensures forall id :: id in ids ==> 0 <= id < |events| && events[id].status == Pending && id !in locked
    ensures |ids| < n ==> forall id :: 0 <= id < |events| && events[id].status == Pending && id !in locked ==> id in ids
    ensures forall id, older :: id in ids && 0 <= older < id && events[older].status == Pending && older !in locked ==> older in ids
  {
    if events == [] then []
    else
      var last := |events| - 1;
      var ids := PendingBatch(events[..last], locked, n);
      if |ids| < n && events[last].status == Pending && last !in locked then ids + [last] else ids
  }

  function Dispatch(events: seq<Event>, ids: seq<int>, now: int): (out: seq<Event>)
    ensures |out| == |events|
  {
    UpdateRows(events, ids, (e: Event) => e.(status := Processing, updatedAt := now))
  }

  const REAP_LIMIT := 100

  predicate IsStalled(events: seq<Event>, locked: set<int>, cutoff: int, id: int) {
    0 <= id < |events| && events[id].status == Processing && events[id].updatedAt <= cutoff && id !in locked
  }

  predicate TouchedEarlier(events: seq<Event>, a: int, b: int) {
    0 <= a < |events| && 0 <= b < |events| &&
    (events[a].updatedAt < events[b].updatedAt || (events[a].updatedAt == events[b].updatedAt && a < b))
  }

  function AllIds(n: nat): seq<int> {
    seq(n, i => i)
  }

  /** .. WHERE status = 'PROCESSING' AND updatedAt <= cutoff ORDER BY updatedAt LIMIT 100. */
  function StalledBatch(events: seq<Event>, locked: set<int>, cutoff: int): seq<int> {
    var ids := Filter(AllIds(|events|), id => IsStalled(events, locked, cutoff, id));
    TakeUpTo(Sort(ids, (a, b) => TouchedEarlier(events, a, b)), REAP_LIMIT)
  }

  /** A stalled event goes back for another attempt, or fails once attempts are used up. */
  function ReapOne(e: Event, maxAttempts: nat, now: int): Event {
    if e.attempts >= maxAttempts then e.(status := Failed, hasError := true, updatedAt := now)
    else e.(status := Pending, attempts := e.attempts + 1, updatedAt := now)
  }

  function Reap(events: seq<Event>, ids: seq<int>, maxAttempts: nat, now: int): (out: seq<Event>)
    ensures |out| == |events|
  {
    UpdateRows(events, ids, (e: Event) => ReapOne(e, maxAttempts, now))
  }

  function Acknowledge(events: seq<Event>, id: int, now: int): (out: seq<Event>)
    ensures |out| == |events|
  {
    if 0 <= id < |events| then events[id := events[id].(status := Processed, updatedAt := now)] else events
  }

  /** The batch holds stalled, unlocked events, each once; all of them when it is not full,
      otherwise those left alone for longest. */
  lemma StalledBatchFacts(events: seq<Event>, locked: set<int>, cutoff: int)
    ensures var ids := StalledBatch(events, locked, cutoff);
      && Distinct(ids) && |ids| <= 100
      && (forall id | id in ids :: IsStalled(events, locked, cutoff, id))
      && (|ids| < 100 ==> forall id | IsStalled(events, locked, cutoff, id) :: id in ids)
      && (forall id, other | id in ids && IsStalled(events, locked, cutoff, other) && other !in ids ::
           0 <= id < |events| && events[id].updatedAt <= events[other].updatedAt)
  {
    var keep := id => IsStalled(events, locked, cutoff, id);
    var less := (a, b) => TouchedEarlier(events, a, b);
    var all := AllIds(|events|);
    FilterKeeps(all, keep);
    FilterKeepsDistinct(all, keep);
    var kept := Filter(all, keep);
    forall id | id in kept ensures keep(id) {}
    SortSorts(kept, less);
    var sorted := Sort(kept, less);
    IncreasingIsDistinct(sorted, less);
    forall id | id in sorted ensures keep(id) { assert id in Elems(sorted) && id in Elems(kept); }
    if |sorted| <= REAP_LIMIT {
      forall id | keep(id) ensures id in sorted {
        assert all[id] == id;
        assert id in all && id in Elems(kept) && id in Elems(sorted);
      }
    } else {
      forall id | id in sorted[..REAP_LIMIT] ensures keep(id) {
        var i :| 0 <= i < REAP_LIMIT && sorted[..REAP_LIMIT][i] == id;
        assert sorted[i] == id;
      }
      forall q | 0 <= q < REAP_LIMIT ensures sorted[q] in sorted[..REAP_LIMIT] {
        assert sorted[..REAP_LIMIT][q] == sorted[q];
      }
      forall id, other | id in sorted[..REAP_LIMIT] && keep(other) && other !in sorted[..REAP_LIMIT]
        ensures 0 <= id < |events| && events[id].updatedAt <= events[other].updatedAt
      {
        assert all[other] == other && other in all && other in Elems(kept) && other in Elems(sorted);
        var i :| 0 <= i < REAP_LIMIT && sorted[..REAP_LIMIT][i] == id;
        var j :| 0 <= j < |sorted| && sorted[j] == other;
        assert less(sorted[i], sorted[j]);
      }
    }
  }

  // ---- runs --------------------------------------------------------------------

  /** `queued` remembers every id ever put on the queue, `dispatches` counts an event's
      committed dispatches; the latter is bookkeeping of the model. */
  datatype State = State(events: seq<Event>, queued: set<int>, dispatches: seq<nat>)

  datatype Step =
    | CreateEvent(jobId: nat, now: int)
    | DispatchCommits(batch: nat, locked: set<int>, now: int)
    | DispatchRollsBack(batch: nat, locked: set<int>)
    | ReaperRuns(locked: set<int>, threshold: int, now: int)
    | WorkerFinishes(id: int, now: int)

  function IdSet(ids: seq<int>): set<int> {
    set id | id in ids
  }

  /** The worker acknowledges only what the queue has handed out at some time. */
  function Next(s: State, step: Step, maxAttempts: nat): State {
    match step
    case CreateEvent(jobId, now) =>
      State(s.events + [Event(jobId, Pending, 0, now, false)], s.queued, s.dispatches + [0])
    case DispatchCommits(batch, locked, now) =>
      var ids := PendingBatch(s.events, locked, batch);
      State(Dispatch(s.events, ids, now), s.queued + IdSet(ids),
            seq(|s.dispatches|, i requires 0 <= i < |s.dispatches| => s.dispatches[i] + if i in ids then 1 else 0))
    case DispatchRollsBack(batch, locked) =>
      s.(queued := s.queued + IdSet(PendingBatch(s.events, locked, batch)))
    case ReaperRuns(locked, threshold, now) =>
      s.(events := Reap(s.events, StalledBatch(s.events, locked, now - threshold), maxAttempts, now))
    case WorkerFinishes(id, now) =>
      if id in s.queued then s.(events := Acknowledge(s.events, id, now)) else s
  }

  function Run(s: State, steps: seq<Step>, maxAttempts: nat): State
    decreases |steps|
  {
    if steps == [] then s else Run(Next(s, steps[0], maxAttempts), steps[1..], maxAttempts)
  }

  const EMPTY := State([], {}, [])

  /** How often an event has been dispatched is determined by where it stands. */
  predicate EventOk(e: Event, dispatches: nat, maxAttempts: nat) {
    && e.attempts <= maxAttempts
    && match e.status
       case Pending => dispatches == e.attempts
       case Processing => dispatches == e.attempts + 1
       case Failed => e.attempts == maxAttempts && dispatches == maxAttempts + 1
       case Processed => e.attempts <= dispatches <= e.attempts + 1
  }

  ghost predicate Inv(s: State, maxAttempts: nat) {
    && |s.events| == |s.dispatches|
    && forall i :: 0 <= i < |s.events| ==> EventOk(s.events[i], s.dispatches[i], maxAttempts)
  }

  /** A committed dispatch or reap that changes event `id`. */
  predicate Moves(s: State, step: Step, id: nat) {
    match step
    case DispatchCommits(batch, locked, _) => id in PendingBatch(s.events, locked, batch)
    case ReaperRuns(locked, threshold, now) => id in StalledBatch(s.events, locked, now - threshold)
    case _ => false
  }

  /** What one step does to one event. */
  lemma NextOnEvent(s: State, step: Step, maxAttempts: nat, id: nat)
    requires |s.events| == |s.dispatches| && id < |s.events|
    ensures var t := Next(s, step, maxAttempts);
      && |t.events| == |t.dispatches| >= |s.events|
      && (Moves(s, step, id) && step.DispatchCommits? ==>
           s.events[id].status == Pending && t.events[id] == s.events[id].(status := Processing, updatedAt := step.now)
           && t.dispatches[id] == s.dispatches[id] + 1)
      && (Moves(s, step, id) && step.ReaperRuns? ==>
           s.events[id].status == Processing && t.events[id] == ReapOne(s.events[id], maxAttempts, step.now))
      && (!Moves(s, step, id) ==>
           || t.events[id] == s.events[id]
           || (step.WorkerFinishes? && step.id == id && id in s.queued
               && t.events[id] == s.events[id].(status := Processed, updatedAt := step.now)))
      && (!(Moves(s, step, id) && step.DispatchCommits?) ==> t.dispatches[id] == s.dispatches[id])
  {
    if step.ReaperRuns? { StalledBatchFacts(s.events, step.locked, step.now - step.threshold); }
  }

  lemma NextKeepsInv(s: State, step: Step, maxAttempts: nat)
    requires Inv(s, maxAttempts)
    ensures Inv(Next(s, step, maxAttempts), maxAttempts)
  {
    var t := Next(s, step, maxAttempts);
    forall i | 0 <= i < |t.events| ensures |t.events| == |t.dispatches| && EventOk(t.events[i], t.dispatches[i], maxAttempts) {
      if i < |s.events| { NextOnEvent(s, step, maxAttempts, i); }
    }
  }

  lemma {:induction false} RunKeepsInv(s: State, steps: seq<Step>, maxAttempts: nat)
    requires Inv(s, maxAttempts)
    ensures Inv(Run(s, steps, maxAttempts), maxAttempts)
    decreases |steps|
  {
    if steps != [] {
      NextKeepsInv(s, steps[0], maxAttempts);
      RunKeepsInv(Next(s, steps[0], maxAttempts), steps[1..], maxAttempts);
    }
  }

  /** In every reachable state attempts stay within the limit, FAILED means they are used
      up, and committed dispatches number the attempts or one more. */
  lemma ReachableEventsAreAccounted(steps: seq<Step>, maxAttempts: nat, id: nat)
    requires id < |Run(EMPTY, steps, maxAttempts).events|
    ensures var s := Run(EMPTY, steps, maxAttempts);
      && |s.dispatches| == |s.events|
      && s.events[id].attempts <= maxAttempts
      && (s.events[id].status == Failed ==> s.events[id].attempts == maxAttempts)
      && s.events[id].attempts <= s.dispatches[id] <= s.events[id].attempts + 1
  {
    RunKeepsInv(EMPTY, steps, maxAttempts);
  }

  /** PROCESSED is never left: not by the reaper, a dispatch or a second worker. */
  lemma {:induction false} ProcessedIsForGood(s: State, steps: seq<Step>, maxAttempts: nat, id: nat)
    requires |s.events| == |s.dispatches| && id < |s.events| && s.events[id].status == Processed
    ensures id < |Run(s, steps, maxAttempts).events| && Run(s, steps, maxAttempts).events[id].status == Processed
    decreases |steps|
  {
    if steps != [] {
      var t := Next(s, steps[0], maxAttempts);
      NextOnEvent(s, steps[0], maxAttempts, id);
      ProcessedIsForGood(t, steps[1..], maxAttempts, id);
    }
  }

  /** Whatever has been dispatched has been put on the queue. */
  ghost predicate DispatchedIsQueued(s: State) {
    |s.events| == |s.dispatches| && forall i :: 0 <= i < |s.dispatches| && s.dispatches[i] > 0 ==> i in s.queued
  }

  lemma {:induction false} RunKeepsQueue(s: State, steps: seq<Step>, maxAttempts: nat)
    requires DispatchedIsQueued(s)
    ensures DispatchedIsQueued(Run(s, steps, maxAttempts))
    decreases |steps|
  {
    if steps != [] {
      var t := Next(s, steps[0], maxAttempts);
      forall i | 0 <= i < |t.dispatches| && t.dispatches[i] > 0 ensures i in t.queued {
        if i < |s.events| { NextOnEvent(s, steps[0], maxAttempts, i); }
      }
      RunKeepsQueue(t, steps[1..], maxAttempts);
    }
  }

  /** In every reachable state a FAILED event becomes PROCESSED in a step if and only if the
      step is a worker finishing with it, and is left as it is by every other step. */
  lemma FailedBecomesProcessedIffWorkerFinishes(steps: seq<Step>, step: Step, maxAttempts: nat, id: nat)
    requires var s := Run(EMPTY, steps, maxAttempts); id < |s.events| && s.events[id].status == Failed
    ensures var s := Run(EMPTY, steps, maxAttempts); var t := Next(s, step, maxAttempts);
      && |t.events| >= |s.events|
      && (t.events[id].status == Processed <==> step.WorkerFinishes? && step.id == id)
      && (t.events[id] == s.events[id] <==> !(step.WorkerFinishes? && step.id == id))
  {
    var s := Run(EMPTY, steps, maxAttempts);
    RunKeepsInv(EMPTY, steps, maxAttempts);
    RunKeepsQueue(EMPTY, steps, maxAttempts);
    assert EventOk(s.events[id], s.dispatches[id], maxAttempts);
    NextOnEvent(s, step, maxAttempts, id);
  }

  /** Dispatched, never acknowledged in time, reaped; n times over. */
  function Stalls(n: nat): seq<Step> {
    if n == 0 then [] else [DispatchCommits(1, {}, 0), ReaperRuns({}, 0, 0)] + Stalls(n - 1)
  }

  lemma {:induction false} SetOfDistinct(ids: seq<int>, s: set<int>)
    requires Distinct(ids) && forall id :: id in ids ==> id in s
    ensures |ids| <= |s|
    decreases |ids|
  {
    if ids != [] {
      var front, last := ids[..|ids| - 1], ids[|ids| - 1];
      forall id | id in front ensures id in s - {last} {
        var i :| 0 <= i < |front| && front[i] == id;
        assert ids[i] in ids;
      }
      assert last in ids;
      SetOfDistinct(front, s - {last});
    }
  }

  lemma OneStall(s: State, maxAttempts: nat)
    requires |s.events| == |s.dispatches| == 1 && s.events[0].status == Pending
    ensures var t := Next(Next(s, DispatchCommits(1, {}, 0), maxAttempts), ReaperRuns({}, 0, 0), maxAttempts);
      && |t.events| == |t.dispatches| == 1 && 0 in t.queued
      && t.events[0] == ReapOne(s.events[0].(status := Processing, updatedAt := 0), maxAttempts, 0)
  {
    var dispatch, reap := DispatchCommits(1, {}, 0), ReaperRuns({}, 0, 0);
    var mid := Next(s, dispatch, maxAttempts);
    assert Moves(s, dispatch, 0);
    NextOnEvent(s, dispatch, maxAttempts, 0);
    StalledBatchFacts(mid.events, {}, 0);
    assert IsStalled(mid.events, {}, 0, 0);
    SetOfDistinct(StalledBatch(mid.events, {}, 0), {0});
    NextOnEvent(mid, reap, maxAttempts, 0);
  }

  lemma {:induction false} StallsFail(s: State, maxAttempts: nat)
    requires |s.events| == |s.dispatches| == 1 && s.events[0].status == Pending && s.events[0].attempts <= maxAttempts
    ensures var t := Run(s, Stalls(maxAttempts - s.events[0].attempts + 1), maxAttempts);
      |t.events| == 1 && t.events[0].status == Failed && 0 in t.queued
    decreases maxAttempts - s.events[0].attempts
  {
    var dispatch, reap := DispatchCommits(1, {}, 0), ReaperRuns({}, 0, 0);
    var mid := Next(s, dispatch, maxAttempts);
    var t, n := Next(mid, reap, maxAttempts), maxAttempts - s.events[0].attempts;
    OneStall(s, maxAttempts);
    var steps := Stalls(n + 1);
    assert steps[0] == dispatch && steps[1..][0] == reap && steps[1..][1..] == Stalls(n);
    assert Run(s, steps, maxAttempts) == Run(mid, steps[1..], maxAttempts);
    assert Run(mid, steps[1..], maxAttempts) == Run(t, Stalls(n), maxAttempts);
    if n > 0 { StallsFail(t, maxAttempts); }
  }

  /** The departure happens, for every limit on attempts: an event that stalls until it is
      FAILED is PROCESSED when one of its workers finishes after all. */
  lemma LateWorkerRun(maxAttempts: nat)
    ensures var failing := [CreateEvent(0, 0)] + Stalls(maxAttempts + 1);
      && |Run(EMPTY, failing, maxAttempts).events| == 1
      && Run(EMPTY, failing, maxAttempts).events[0].status == Failed
      && |Run(EMPTY, failing + [WorkerFinishes(0, 0)], maxAttempts).events| == 1
      && Run(EMPTY, failing + [WorkerFinishes(0, 0)], maxAttempts).events[0].status == Processed
  {
    var created, stalls := Next(EMPTY, CreateEvent(0, 0), maxAttempts), Stalls(maxAttempts + 1);
    var failing := [CreateEvent(0, 0)] + stalls;
    assert failing[1..] == stalls;
    StallsFail(created, maxAttempts);
    RunAndNext(EMPTY, failing, WorkerFinishes(0, 0), maxAttempts);
  }

  lemma {:induction false} RunAndNext(s: State, steps: seq<Step>, step: Step, maxAttempts: nat)
    ensures Run(s, steps + [step], maxAttempts) == Next(Run(s, steps, maxAttempts), step, maxAttempts)
    decreases |steps|
  {
    if steps == [] {
      assert ([] + [step])[1..] == [] && (steps + [step])[0] == step;
      assert Run(s, steps + [step], maxAttempts) == Run(Next(s, step, maxAttempts), [], maxAttempts);
    } else {
      assert (steps + [step])[1..] == steps[1..] + [step];
      RunAndNext(Next(s, steps[0], maxAttempts), steps[1..], step, maxAttempts);
    }
  }

  /** Remaining dispatch and reap steps of an event. */
  function Fuel(e: Event, maxAttempts: nat): int {
    match e.status
    case Pending => 2 * (maxAttempts - e.attempts) + 2
    case Processing => 2 * (maxAttempts - e.attempts) + 1
    case _ => 0
  }

  function CountMoves(s: State, steps: seq<Step>, maxAttempts: nat, id: nat): nat
    decreases |steps|
  {
    if steps == [] then 0
    else (if Moves(s, steps[0], id) then 1 else 0) + CountMoves(Next(s, steps[0], maxAttempts), steps[1..], maxAttempts, id)
  }

  lemma MoveUsesFuel(s: State, step: Step, maxAttempts: nat, id: nat)
    requires Inv(s, maxAttempts) && id < |s.events|
    ensures id < |Next(s, step, maxAttempts).events|
    ensures 0 <= Fuel(Next(s, step, maxAttempts).events[id], maxAttempts)
    ensures Fuel(Next(s, step, maxAttempts).events[id], maxAttempts) + (if Moves(s, step, id) then 1 else 0)
      <= Fuel(s.events[id], maxAttempts)
  {
    NextKeepsInv(s, step, maxAttempts);
    NextOnEvent(s, step, maxAttempts, id);
  }

  /** Each event has only finitely many committed dispatch and reap steps, even with
      rolled-back dispatches and late workers. */
  lemma {:induction false} MovesAreBounded(s: State, steps: seq<Step>, maxAttempts: nat, id: nat)
    requires Inv(s, maxAttempts) && id < |s.events|
    ensures CountMoves(s, steps, maxAttempts, id) <= Fuel(s.events[id], maxAttempts)
    decreases |steps|
  {
    MoveUsesFuel(s, if steps == [] then CreateEvent(0, 0) else steps[0], maxAttempts, id);
    if steps != [] {
      NextKeepsInv(s, steps[0], maxAttempts);
      MovesAreBounded(Next(s, steps[0], maxAttempts), steps[1..], maxAttempts, id);
    }
  }

  lemma NewEventMovesBounded(s: State, jobId: nat, now: int, steps: seq<Step>, maxAttempts: nat)
    requires Inv(s, maxAttempts)
    ensures CountMoves(Next(s, CreateEvent(jobId, now), maxAttempts), steps, maxAttempts, |s.events|) <= 2 * maxAttempts + 2
  {
    NextKeepsInv(s, CreateEvent(jobId, now), maxAttempts);
    MovesAreBounded(Next(s, CreateEvent(jobId, now), maxAttempts), steps, maxAttempts, |s.events|);
  }

  // ---- the service -------------------------------------------------------------

  class JobOutboxDispatcher {
    var events: seq<Event>
    var queued: set<int>
    var isProcessing: bool

    constructor (events: seq<Event>)
      ensures this.events == events && queued == {} && !isProcessing
    {
      this.events, queued, isProcessing := events, {}, false;
    }

    /** `enqueueFails` and `updateFails` are where the transaction may throw. */
    method DispatchPendingEvents(batchSize: nat, locked: set<int>, now: int, enqueueFails: bool, updateFails: bool)
      returns (count: nat)
      modifies this
      ensures isProcessing == old(isProcessing)
      ensures var ids := PendingBatch(old(events), locked, batchSize);
        if old(isProcessing) || ids == [] || enqueueFails then count == 0 && events == old(events) && queued == old(queued)
        else if updateFails then count == 0 && events == old(events) && queued == old(queued) + IdSet(ids)
        else count == |ids| && events == Dispatch(old(events), ids, now) && queued == old(queued) + IdSet(ids)
      ensures var ids := PendingBatch(old(events), locked, batchSize);
        var done := !old(isProcessing) && ids != [] && !enqueueFails && !updateFails;
        && |events| == |old(events)| && count == (if done then |ids| else 0)
        && (forall id :: id in queued <==> id in old(queued) || (id in ids && !old(isProcessing) && !enqueueFails))
        && forall id :: 0 <= id < |events| ==>
          events[id] == if done && id in ids then Event(old(events)[id].jobId, Processing, old(events)[id].attempts, now, old(events)[id].hasError)
                        else old(events)[id]
    {
      if isProcessing { return 0; }
      isProcessing := true;
      var ids := PendingBatch(events, locked, batchSize);
      if |ids| == 0 || enqueueFails {
        count := 0;
      } else {
        queued := queued + IdSet(ids);
        if updateFails {
          count := 0;
        } else {
          events := Dispatch(events, ids, now);
          count := |ids|;
        }
      }
      isProcessing := false;
    }

    method ReapStalledEvents(locked: set<int>, threshold: int, maxAttempts: nat, now: int) returns (reset: nat, failed: nat)
      modifies this`events
      ensures var ids := StalledBatch(old(events), locked, now - threshold);
        && events == Reap(old(events), ids, maxAttempts, now)
        && reset + failed == |ids|
        && failed == |Filter(ids, id => IsSpent(old(events), id, maxAttempts))|
      ensures var ids := StalledBatch(old(events), locked, now - threshold);
        && |events| == |old(events)|
        && forall id :: 0 <= id < |events| ==>
          var was := old(events)[id];
          events[id] == if id !in ids then was
            else if was.attempts >= maxAttempts then Event(was.jobId, Failed, was.attempts, now, true)
            else Event(was.jobId, Pending, was.attempts + 1, now, was.hasError)
      ensures forall id :: 0 <= id < |events| && events[id] != old(events)[id] ==>
        old(events)[id].status == Processing && old(events)[id].updatedAt <= now - threshold && id !in locked
      ensures reset + failed < 100 ==> forall id :: 0 <= id < |events| ==>
        var was := old(events)[id];
        was.status == Processing && was.updatedAt <= now - threshold && id !in locked ==> events[id].status != Processing
    {
      var stalled := StalledBatch(events, locked, now - threshold);
      StalledBatchFacts(events, locked, now - threshold);
      ghost var before := events;
      var failedIds, resetIds := SplitByAttempts(events, stalled, maxAttempts);
      if |failedIds| > 0 {
        events := UpdateRows(events, failedIds, (e: Event) => e.(status := Failed, hasError := true, updatedAt := now));
      }
      if |resetIds| > 0 {
        events := UpdateRows(events, resetIds, (e: Event) => e.(status := Pending, attempts := e.attempts + 1, updatedAt := now));
      }
      reset, failed := |resetIds|, |failedIds|;
      forall i | 0 <= i < |before| ensures events[i] == Reap(before, stalled, maxAttempts, now)[i] {
        assert i in failedIds <==> i in stalled && IsSpent(before, i, maxAttempts);
        assert i in resetIds <==> i in stalled && !IsSpent(before, i, maxAttempts);
      }
    }
  }

  predicate IsSpent(events: seq<Event>, id: int, maxAttempts: nat) {
    0 <= id < |events| && events[id].attempts >= maxAttempts
  }

  /** The reaper's loop: out of attempts to one side, retryable to the other. */
  method SplitByAttempts(events: seq<Event>, ids: seq<int>, maxAttempts: nat) returns (failedIds: seq<int>, resetIds: seq<int>)
    requires forall id | id in ids :: 0 <= id < |events|
    ensures failedIds == Filter(ids, id => IsSpent(events, id, maxAttempts))
    ensures |failedIds| + |resetIds| == |ids|
    ensures forall id :: id in failedIds <==> id in ids && IsSpent(events, id, maxAttempts)
    ensures forall id :: id in resetIds <==> id in ids && !IsSpent(events, id, maxAttempts)
  {
    ghost var spent := id => IsSpent(events, id, maxAttempts);
    failedIds, resetIds := [], [];
    for i := 0 to |ids|
      invariant failedIds == Filter(ids[..i], spent)
      invariant |failedIds| + |resetIds| == i
      invariant forall id :: id in failedIds <==> id in ids[..i] && spent(id)
      invariant forall id :: id in resetIds <==> id in ids[..i] && !spent(id)
    {
      assert ids[..i + 1] == ids[..i] + [ids[i]];
      FilterSnoc(ids[..i], ids[i], spent);
      assert ids[i] in ids;
      if events[ids[i]].attempts >= maxAttempts { failedIds := failedIds + [ids[i]]; }
      else { resetIds := resetIds + [ids[i]]; }
    }
    assert ids[..|ids|] == ids;
  }
}
