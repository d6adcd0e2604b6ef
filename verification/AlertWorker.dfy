/** The alert evaluation worker: interleaved, repeated and failing deliveries.

    One delivery walks over the candidate alerts of a job in many small database writes.
    Any number of deliveries, of the same event or of others, may interleave between two
    writes; any write may fail; a worker may stop for good anywhere. */
module AlertWorker {
  import opened Ordering

  /** What evaluation yields for a candidate alert; fixed while profile, alert and job are. */
  datatype AlertFacts = AlertFacts(id: nat, matches: bool, inApp: bool, wantsEmail: bool, status: string)

  /** Candidate alerts by job. */
  type Facts = map<nat, seq<AlertFacts>>

  /** The unique key of a match, and of the dedupe keys of notification and e-mail. */
  datatype Key = Key(alert: nat, job: nat)

  /** `notification` and `email` are set together with the states CREATED and SENT. */
  datatype Match = Match(id: nat, status: string, notification: Option<nat>, email: Option<nat>)

  /** `queue` holds the delivery-queue job ids ever added; adding one again is ignored. */
  datatype Db = Db(
    matches: map<Key, Match>, notes: map<Key, nat>, mails: map<Key, nat>, queue: set<nat>,
    stamps: map<nat, int>, processed: set<nat>, nextId: nat)

  const EMPTY := Db(map[], map[], map[], {}, map[], {}, 0)

  // ---- the writes --------------------------------------------------------------

  function UpsertMatch(db: Db, k: Key, status: string): Db {
    if k in db.matches then db
    else db.(matches := db.matches[k := Match(db.nextId, status, None, None)], nextId := db.nextId + 1)
  }

  function UpsertNotification(db: Db, k: Key): Db {
    if k in db.notes then db else db.(notes := db.notes[k := db.nextId], nextId := db.nextId + 1)
  }

  function UpsertDelivery(db: Db, k: Key): Db {
    if k in db.mails then db else db.(mails := db.mails[k := db.nextId], nextId := db.nextId + 1)
  }

  /** update where id: an update of a match that is not there throws. */
  predicate CanUpdate(db: Db, k: Key, m: nat) {
    k in db.matches && db.matches[k].id == m
  }

  function LinkNotification(db: Db, k: Key, n: nat): Db
    requires k in db.matches
  {
    db.(matches := db.matches[k := db.matches[k].(notification := Some(n))])
  }

  function LinkEmail(db: Db, k: Key, d: nat): Db
    requires k in db.matches
  {
    db.(matches := db.matches[k := db.matches[k].(email := Some(d))])
  }

  // ---- one delivery as a program -----------------------------------------------

  datatype Pc =
    | Evaluate
    | Notify(m: nat) | Link(m: nat, n: nat)
    | Deliver(m: nat) | Enqueue(m: nat, d: nat) | LinkMail(m: nat, d: nat)
    | Stamp
    | Acknowledge | Finished

  /** `clean` records that no write of this delivery has failed so far. */
  datatype Worker = Worker(outbox: nat, job: nat, index: nat, pc: Pc, clean: bool)

  function AfterNotify(a: AlertFacts, m: nat): Pc {
    if a.wantsEmail then Deliver(m) else Stamp
  }

  /** The next write of a delivery and where it goes from there; `ok` is whether the
      write succeeds.  A failed match write skips the alert, a failed notification goes on
      to the e-mail, a failed e-mail goes on to the time stamp. */
  function Advance(db: Db, facts: Facts, w: Worker, ok: bool, now: int): (out: (Db, Worker))
    requires w.job in facts
    ensures out.1.job == w.job && out.1.outbox == w.outbox
  {
    var alerts := facts[w.job];
    if w.pc == Finished then (db, w)
    else if w.pc == Acknowledge then (if ok then db.(processed := db.processed + {w.outbox}) else db, w.(pc := Finished))
    else if w.index >= |alerts| then (db, w.(pc := Acknowledge))
    else
      var a := alerts[w.index];
      var k := Key(a.id, w.job);
      match w.pc
      case Evaluate =>
        if !a.matches then (db, w.(index := w.index + 1))
        else if !ok then (db, w.(index := w.index + 1, clean := false))
        else
          var out := UpsertMatch(db, k, a.status);
          var m := out.matches[k].id;
          (out, w.(pc := if a.inApp then Notify(m) else AfterNotify(a, m)))
      case Notify(m) =>
        if !ok then (db, w.(pc := AfterNotify(a, m), clean := false))
        else
          var out := UpsertNotification(db, k);
          (out, w.(pc := Link(m, out.notes[k])))
      case Link(m, n) =>
        if !ok || !CanUpdate(db, k, m) then (db, w.(pc := AfterNotify(a, m), clean := false))
        else (LinkNotification(db, k, n), w.(pc := AfterNotify(a, m)))
      case Deliver(m) =>
        if !ok then (db, w.(pc := Stamp, clean := false))
        else
          var out := UpsertDelivery(db, k);
          (out, w.(pc := Enqueue(m, out.mails[k])))
      case Enqueue(m, d) =>
        if !ok then (db, w.(pc := Stamp, clean := false))
        else (db.(queue := db.queue + {d}), w.(pc := LinkMail(m, d)))
      case LinkMail(m, d) =>
        if !ok || !CanUpdate(db, k, m) then (db, w.(pc := Stamp, clean := false))
        else (LinkEmail(db, k, d), w.(pc := Stamp))
      case Stamp =>
        (if ok then db.(stamps := db.stamps[a.id := now]) else db, w.(index := w.index + 1, pc := Evaluate))
  }

  // ---- runs of many deliveries -------------------------------------------------

  datatype State = State(db: Db, workers: map<nat, Worker>)

  datatype Event =
    | Start(worker: nat, outbox: nat, job: nat)
    | Write(worker: nat, ok: bool, now: int)

  function Step(s: State, facts: Facts, e: Event): State {
    match e
    case Start(worker, outbox, job) =>
      if worker in s.workers || job !in facts then s
      else s.(workers := s.workers[worker := Worker(outbox, job, 0, Evaluate, true)])
    case Write(worker, ok, now) =>
      if worker !in s.workers || s.workers[worker].job !in facts then s
      else
        var (db, w) := Advance(s.db, facts, s.workers[worker], ok, now);
        State(db, s.workers[worker := w])
  }

  function Run(s: State, facts: Facts, es: seq<Event>): State
    decreases |es|
  {
    if es == [] then s else Run(Step(s, facts, es[0]), facts, es[1..])
  }

  const INITIAL := State(EMPTY, map[])

  // ---- what holds all along ----------------------------------------------------

  predicate Wants(facts: Facts, k: Key, wanted: AlertFacts -> bool) {
    && k.job in facts
    && exists i :: 0 <= i < |facts[k.job]| && facts[k.job][i].id == k.alert && facts[k.job][i].matches && wanted(facts[k.job][i])
  }

  const ANY := (a: AlertFacts) => true
  const IN_APP := (a: AlertFacts) => a.inApp
  const EMAIL := (a: AlertFacts) => a.wantsEmail

  /** Some matching candidate alert of the key has this eligibility status. */
  predicate WantsStatus(facts: Facts, k: Key, status: string) {
    && k.job in facts
    && exists i :: 0 <= i < |facts[k.job]| && facts[k.job][i].id == k.alert && facts[k.job][i].matches && facts[k.job][i].status == status
  }

  /** Rows exist only for matching alerts, and a match links only to the one
      notification and the one e-mail of its own key. */
  ghost predicate DbOk(db: Db, facts: Facts) {
    && (forall k | k in db.matches ::
         && Wants(facts, k, ANY) && WantsStatus(facts, k, db.matches[k].status)
         && (db.matches[k].notification.Some? ==> k in db.notes && db.matches[k].notification == Some(db.notes[k]))
         && (db.matches[k].email.Some? ==> k in db.mails && db.matches[k].email == Some(db.mails[k]) && db.mails[k] in db.queue))
    && (forall k | k in db.notes :: Wants(facts, k, IN_APP))
    && (forall k | k in db.mails :: Wants(facts, k, EMAIL))
  }

  predicate Linked(db: Db, k: Key) {
    k in db.matches && k in db.notes && db.matches[k].notification == Some(db.notes[k])
  }

  predicate Mailed(db: Db, k: Key) {
    k in db.matches && k in db.mails && db.matches[k].email == Some(db.mails[k]) && db.mails[k] in db.queue
  }

  /** Everything a delivery does for this alert has been done. */
  predicate Settled(db: Db, job: nat, a: AlertFacts) {
    a.matches ==>
      var k := Key(a.id, job);
      && k in db.matches
      && (a.inApp ==> Linked(db, k))
      && (a.wantsEmail ==> Mailed(db, k))
  }

  ghost predicate JobSettled(db: Db, facts: Facts, job: nat)
    requires job in facts
  {
    forall i :: 0 <= i < |facts[job]| ==> Settled(db, job, facts[job][i])
  }

  ghost predicate WorkerOk(db: Db, facts: Facts, w: Worker) {
    && w.job in facts && w.index <= |facts[w.job]|
    && (w.clean ==> forall i :: 0 <= i < w.index ==> Settled(db, w.job, facts[w.job][i]))
    && (w.pc == Acknowledge || w.pc == Finished ==> w.index == |facts[w.job]|)
    && (w.pc != Acknowledge && w.pc != Finished && w.pc != Evaluate ==>
         && w.index < |facts[w.job]|
         && var a := facts[w.job][w.index];
            var k := Key(a.id, w.job);
            a.matches && k in db.matches && PcOk(db, k, a, w))
  }

  ghost predicate PcOk(db: Db, k: Key, a: AlertFacts, w: Worker)
    requires k in db.matches
  {
    match w.pc
    case Notify(m) => a.inApp && m == db.matches[k].id
    case Link(m, n) => a.inApp && m == db.matches[k].id && k in db.notes && n == db.notes[k]
    case Deliver(m) => a.wantsEmail && m == db.matches[k].id && (w.clean && a.inApp ==> Linked(db, k))
    case Enqueue(m, d) =>
      a.wantsEmail && m == db.matches[k].id && k in db.mails && d == db.mails[k] && (w.clean && a.inApp ==> Linked(db, k))
    case LinkMail(m, d) =>
      a.wantsEmail && m == db.matches[k].id && k in db.mails && d == db.mails[k] && d in db.queue && (w.clean && a.inApp ==> Linked(db, k))
    case Stamp => w.clean ==> (a.inApp ==> Linked(db, k)) && (a.wantsEmail ==> Mailed(db, k))
    case _ => true
  }

  /** Nothing is ever replaced or removed: ids, texts and links stay as first written. */
  ghost predicate Grows(a: Db, b: Db) {
    && (forall k | k in a.matches ::
         && k in b.matches && b.matches[k].id == a.matches[k].id && b.matches[k].status == a.matches[k].status
         && (a.matches[k].notification.Some? ==> b.matches[k].notification == a.matches[k].notification)
         && (a.matches[k].email.Some? ==> b.matches[k].email == a.matches[k].email))
    && (forall k | k in a.notes :: k in b.notes && b.notes[k] == a.notes[k])
    && (forall k | k in a.mails :: k in b.mails && b.mails[k] == a.mails[k])
    && a.queue <= b.queue
  }

  lemma WantsCurrent(facts: Facts, w: Worker, wanted: AlertFacts -> bool)
    requires w.job in facts && w.index < |facts[w.job]| && facts[w.job][w.index].matches && wanted(facts[w.job][w.index])
    ensures Wants(facts, Key(facts[w.job][w.index].id, w.job), wanted)
  {
  }

  lemma MatchWriteKeepsDb(db: Db, facts: Facts, k: Key, status: string)
    requires DbOk(db, facts) && Wants(facts, k, ANY) && WantsStatus(facts, k, status)
    ensures DbOk(UpsertMatch(db, k, status), facts) && Grows(db, UpsertMatch(db, k, status))
  {
  }

  lemma NoteWriteKeepsDb(db: Db, facts: Facts, k: Key)
    requires DbOk(db, facts) && Wants(facts, k, IN_APP)
    ensures DbOk(UpsertNotification(db, k), facts) && Grows(db, UpsertNotification(db, k))
  {
  }

  lemma MailWriteKeepsDb(db: Db, facts: Facts, k: Key)
    requires DbOk(db, facts) && Wants(facts, k, EMAIL)
    ensures DbOk(UpsertDelivery(db, k), facts) && Grows(db, UpsertDelivery(db, k))
  {
  }

  lemma NoteLinkKeepsDb(db: Db, facts: Facts, k: Key, id: nat)
    requires DbOk(db, facts) && k in db.matches && k in db.notes && id == db.notes[k]
    ensures DbOk(LinkNotification(db, k, id), facts) && Grows(db, LinkNotification(db, k, id))
  {
  }

  lemma MailLinkKeepsDb(db: Db, facts: Facts, k: Key, id: nat)
    requires DbOk(db, facts) && k in db.matches && k in db.mails && id == db.mails[k] && id in db.queue
    ensures DbOk(LinkEmail(db, k, id), facts) && Grows(db, LinkEmail(db, k, id))
  {
  }

  /** Nothing but queue entries, time stamps and the event status was written. */
  ghost predicate SameTables(a: Db, b: Db) {
    a.matches == b.matches && a.notes == b.notes && a.mails == b.mails && a.queue <= b.queue
  }

  lemma SameTablesKeepDb(db: Db, out: Db, facts: Facts)
    requires DbOk(db, facts) && SameTables(db, out)
    ensures DbOk(out, facts) && Grows(db, out)
  {
  }

  /** Which table each program counter writes. */
  lemma AdvanceWrites(db: Db, facts: Facts, w: Worker, ok: bool, now: int)
    requires w.job in facts
    ensures var out := Advance(db, facts, w, ok, now).0;
      SameTables(db, out) || (
        && w.index < |facts[w.job]|
        && var a := facts[w.job][w.index]; var k := Key(a.id, w.job);
           match w.pc
           case Evaluate => a.matches && out == UpsertMatch(db, k, a.status)
           case Notify(_) => out == UpsertNotification(db, k)
           case Link(m, n) => CanUpdate(db, k, m) && out == LinkNotification(db, k, n)
           case Deliver(_) => out == UpsertDelivery(db, k)
           case LinkMail(m, d) => CanUpdate(db, k, m) && out == LinkEmail(db, k, d)
           case _ => false)
  {
  }

  lemma AdvanceKeepsDb(db: Db, facts: Facts, w: Worker, ok: bool, now: int)
    requires DbOk(db, facts) && WorkerOk(db, facts, w)
    ensures DbOk(Advance(db, facts, w, ok, now).0, facts) && Grows(db, Advance(db, facts, w, ok, now).0)
  {
    AdvanceWrites(db, facts, w, ok, now);
    var out := Advance(db, facts, w, ok, now).0;
    if SameTables(db, out) {
      SameTablesKeepDb(db, out, facts);
    } else {
      var a := facts[w.job][w.index];
      var k := Key(a.id, w.job);
      match w.pc
      case Evaluate => WantsCurrent(facts, w, ANY); MatchWriteKeepsDb(db, facts, k, a.status);
      case Notify(_) => WantsCurrent(facts, w, IN_APP); NoteWriteKeepsDb(db, facts, k);
      case Link(_, n) => NoteLinkKeepsDb(db, facts, k, n);
      case Deliver(_) => WantsCurrent(facts, w, EMAIL); MailWriteKeepsDb(db, facts, k);
      case LinkMail(_, d) => MailLinkKeepsDb(db, facts, k, d);
      case _ =>
    }
  }

  lemma GrowthKeepsSettledPrefix(a: Db, b: Db, facts: Facts, job: nat, n: nat)
    requires Grows(a, b) && DbOk(a, facts) && DbOk(b, facts) && job in facts && n <= |facts[job]|
    requires forall i :: 0 <= i < n ==> Settled(a, job, facts[job][i])
    ensures forall i :: 0 <= i < n ==> Settled(b, job, facts[job][i])
  {
    forall i | 0 <= i < n ensures Settled(b, job, facts[job][i]) { assert Settled(a, job, facts[job][i]); }
  }

  lemma AdvanceKeepsWorker(db: Db, facts: Facts, w: Worker, ok: bool, now: int)
    requires DbOk(db, facts) && WorkerOk(db, facts, w)
    ensures WorkerOk(Advance(db, facts, w, ok, now).0, facts, Advance(db, facts, w, ok, now).1)
  {
    AdvanceKeepsDb(db, facts, w, ok, now);
    var (db', w') := Advance(db, facts, w, ok, now);
    if w.clean { GrowthKeepsSettledPrefix(db, db', facts, w.job, w.index); }
    if w.index < |facts[w.job]| && w.pc != Acknowledge && w.pc != Finished {
      var a := facts[w.job][w.index];
      AdvanceReachesPc(db, facts, w, ok, now, a, Key(a.id, w.job));
    }
  }

  lemma AdvanceReachesPc(db: Db, facts: Facts, w: Worker, ok: bool, now: int, a: AlertFacts, k: Key)
    requires WorkerOk(db, facts, w)
    requires w.index < |facts[w.job]| && a == facts[w.job][w.index] && k == Key(a.id, w.job)
    requires w.pc != Acknowledge && w.pc != Finished
    ensures var (db', w') := Advance(db, facts, w, ok, now);
      && (w'.index == w.index ==> a.matches && k in db'.matches && PcOk(db', k, a, w') && w'.pc != Acknowledge && w'.pc != Finished)
      && (w'.index != w.index ==> w'.index == w.index + 1 && w'.pc == Evaluate && (w'.clean ==> w.clean && Settled(db', w.job, a)))
      && (w'.clean ==> w.clean) && w'.job == w.job
  {
  }

  /** Other deliveries' writes do not disturb a delivery in progress. */
  lemma GrowthKeepsWorker(a: Db, b: Db, facts: Facts, w: Worker)
    requires Grows(a, b) && DbOk(a, facts) && DbOk(b, facts) && WorkerOk(a, facts, w)
    ensures WorkerOk(b, facts, w)
  {
    if w.clean { GrowthKeepsSettledPrefix(a, b, facts, w.job, w.index); }
  }

  ghost predicate Inv(s: State, facts: Facts) {
    DbOk(s.db, facts) && forall r | r in s.workers :: WorkerOk(s.db, facts, s.workers[r])
  }

  lemma StepKeepsInv(s: State, facts: Facts, e: Event)
    requires Inv(s, facts)
    ensures Inv(Step(s, facts, e), facts) && Grows(s.db, Step(s, facts, e).db)
  {
    var t := Step(s, facts, e);
    if e.Write? && e.worker in s.workers {
      var w := s.workers[e.worker];
      AdvanceKeepsDb(s.db, facts, w, e.ok, e.now);
      AdvanceKeepsWorker(s.db, facts, w, e.ok, e.now);
      forall r | r in t.workers ensures WorkerOk(t.db, facts, t.workers[r]) {
        if r != e.worker { GrowthKeepsWorker(s.db, t.db, facts, s.workers[r]); }
      }
    }
  }

  lemma {:induction false} RunKeepsInv(s: State, facts: Facts, es: seq<Event>)
    requires Inv(s, facts)
    ensures Inv(Run(s, facts, es), facts) && Grows(s.db, Run(s, facts, es).db)
    decreases |es|
  {
    if es != [] {
      StepKeepsInv(s, facts, es[0]);
      RunKeepsInv(Step(s, facts, es[0]), facts, es[1..]);
    }
  }

  ghost predicate SameAt<V>(a: map<Key, V>, b: map<Key, V>, k: Key) {
    (k in a <==> k in b) && (k in a ==> a[k] == b[k])
  }

  ghost predicate SameRowsAt(a: Db, b: Db, k: Key) {
    SameAt(a.matches, b.matches, k) && SameAt(a.notes, b.notes, k) && SameAt(a.mails, b.mails, k)
  }

  /** The rows that concern one job are the same. */
  ghost predicate SameRows(a: Db, b: Db, job: nat) {
    forall k: Key | k.job == job :: SameRowsAt(a, b, k)
  }

  /** Over every interleaving of deliveries and write failures, a delivery that finishes
      without an error has settled every candidate alert, whatever other deliveries did or
      left half done before or in between; and so it stays, row for row, ever after. */
  lemma CleanFinishSettlesJob(facts: Facts, es: seq<Event>, worker: nat, rest: seq<Event>)
    requires var s := Run(INITIAL, facts, es);
      worker in s.workers && s.workers[worker].pc == Finished && s.workers[worker].clean
    ensures var s := Run(INITIAL, facts, es);
      var job, t := s.workers[worker].job, Run(s, facts, rest);
      job in facts && JobSettled(s.db, facts, job) && JobSettled(t.db, facts, job) && SameRows(s.db, t.db, job)
  {
    var s := Run(INITIAL, facts, es);
    RunKeepsInv(INITIAL, facts, es);
    assert WorkerOk(s.db, facts, s.workers[worker]);
    SettledJobNeverChanges(s, facts, rest, s.workers[worker].job);
  }

  lemma WantedIsSettled(db: Db, facts: Facts, k: Key, wanted: AlertFacts -> bool)
    requires Wants(facts, k, wanted) && JobSettled(db, facts, k.job)
    ensures k in db.matches
    ensures wanted == IN_APP ==> Linked(db, k)
    ensures wanted == EMAIL ==> Mailed(db, k)
  {
    var i :| 0 <= i < |facts[k.job]| && facts[k.job][i].id == k.alert && facts[k.job][i].matches && wanted(facts[k.job][i]);
    assert Settled(db, k.job, facts[k.job][i]);
  }

  /** A write concerns the current alert's key only. */
  lemma AdvanceTouchesOneKey(db: Db, facts: Facts, w: Worker, ok: bool, now: int, k: Key)
    requires w.job in facts
    requires w.index < |facts[w.job]| ==> k != Key(facts[w.job][w.index].id, w.job)
    ensures SameRowsAt(db, Advance(db, facts, w, ok, now).0, k)
  {
  }

  lemma AdvanceLeavesSettledKeyAlone(db: Db, facts: Facts, w: Worker, ok: bool, now: int, a: AlertFacts)
    requires WorkerOk(db, facts, w) && w.index < |facts[w.job]| && a == facts[w.job][w.index]
    requires Settled(db, w.job, a)
    ensures SameRowsAt(db, Advance(db, facts, w, ok, now).0, Key(a.id, w.job))
    ensures Advance(db, facts, w, ok, now).0.queue == db.queue
  {
  }

  lemma AdvanceLeavesSettledJobAlone(db: Db, facts: Facts, w: Worker, ok: bool, now: int, job: nat)
    requires WorkerOk(db, facts, w)
    requires job in facts && JobSettled(db, facts, job)
    ensures SameRows(db, Advance(db, facts, w, ok, now).0, job)
    ensures w.job == job ==> Advance(db, facts, w, ok, now).0.queue == db.queue
  {
    var db' := Advance(db, facts, w, ok, now).0;
    if w.job == job && w.index < |facts[job]| {
      AdvanceLeavesSettledKeyAlone(db, facts, w, ok, now, facts[job][w.index]);
    }
    forall k: Key | k.job == job ensures SameRowsAt(db, db', k) {
      if w.index >= |facts[w.job]| || k != Key(facts[w.job][w.index].id, w.job) {
        AdvanceTouchesOneKey(db, facts, w, ok, now, k);
      }
    }
  }

  /** Idempotence over every interleaving.  Once one delivery for a job has finished
      without an error, all later or still running deliveries, failing or not, change
      nothing about its matches, notifications and e-mails. */
  lemma {:induction false} SettledJobNeverChanges(s: State, facts: Facts, es: seq<Event>, job: nat)
    requires Inv(s, facts) && job in facts && JobSettled(s.db, facts, job)
    ensures SameRows(s.db, Run(s, facts, es).db, job)
    ensures JobSettled(Run(s, facts, es).db, facts, job)
    decreases |es|
  {
    if es != [] {
      var e, t := es[0], Step(s, facts, es[0]);
      StepKeepsInv(s, facts, e);
      GrowthKeepsSettledPrefix(s.db, t.db, facts, job, |facts[job]|);
      if e.Write? && e.worker in s.workers {
        AdvanceLeavesSettledJobAlone(s.db, facts, s.workers[e.worker], e.ok, e.now, job);
      }
      SettledJobNeverChanges(t, facts, es[1..], job);
    }
  }

  /** The end result, exactly: after a clean delivery there is a match for precisely the
      matching alerts, a notification for precisely those with an in-app channel, an
      e-mail for precisely those wanting one, each linked from its match. */
  lemma CleanDeliveryGivesExactRows(facts: Facts, es: seq<Event>, worker: nat, k: Key)
    requires var s := Run(INITIAL, facts, es);
      worker in s.workers && s.workers[worker].pc == Finished && s.workers[worker].clean && s.workers[worker].job == k.job
    ensures var db := Run(INITIAL, facts, es).db;
      && (k in db.matches <==> Wants(facts, k, ANY))
      && (k in db.matches ==> WantsStatus(facts, k, db.matches[k].status))
      && (k in db.notes <==> Wants(facts, k, IN_APP))
      && (k in db.mails <==> Wants(facts, k, EMAIL))
      && (k in db.notes ==> Linked(db, k))
      && (k in db.mails ==> Mailed(db, k))
  {
    RunKeepsInv(INITIAL, facts, es);
    var s := Run(INITIAL, facts, es);
    CleanFinishSettlesJob(facts, es, worker, []);
    if Wants(facts, k, ANY) { WantedIsSettled(s.db, facts, k, ANY); }
    if Wants(facts, k, IN_APP) { WantedIsSettled(s.db, facts, k, IN_APP); }
    if Wants(facts, k, EMAIL) { WantedIsSettled(s.db, facts, k, EMAIL); }
  }

  /** Before any clean delivery there is still at most one row per (alert, job): a
      notification or e-mail id, once assigned to a key, is that key's for good. */
  lemma IdsAreAssignedOnce(facts: Facts, before: seq<Event>, after: seq<Event>, k: Key)
    ensures var a, b := Run(INITIAL, facts, before).db, Run(Run(INITIAL, facts, before), facts, after).db;
      && (k in a.matches ==> k in b.matches && b.matches[k].id == a.matches[k].id && b.matches[k].status == a.matches[k].status)
      && (k in a.notes ==> k in b.notes && b.notes[k] == a.notes[k])
      && (k in a.mails ==> k in b.mails && b.mails[k] == a.mails[k])
  {
    RunKeepsInv(INITIAL, facts, before);
    RunKeepsInv(Run(INITIAL, facts, before), facts, after);
  }

  // ---- the processor -----------------------------------------------------------

  /** A delivery running by itself: its writes in order, with their success or failure. */
  function Solo(db: Db, facts: Facts, w: Worker, oks: seq<bool>, now: int): (out: (Db, Worker))
    requires w.job in facts
    ensures out.1.job == w.job && out.1.outbox == w.outbox
    decreases |oks|
  {
    if oks == [] then (db, w)
    else
      var (d, v) := Advance(db, facts, w, oks[0], now);
      Solo(d, facts, v, oks[1..], now)
  }

  lemma {:induction false} SoloAppend(db: Db, facts: Facts, w: Worker, xs: seq<bool>, ys: seq<bool>, now: int)
    requires w.job in facts
    ensures var mid := Solo(db, facts, w, xs, now);
      Solo(db, facts, w, xs + ys, now) == Solo(mid.0, facts, mid.1, ys, now)
    decreases |xs|
  {
    if xs == [] {
      assert xs + ys == ys;
    } else {
      assert (xs + ys)[1..] == xs[1..] + ys;
      var (d, v) := Advance(db, facts, w, xs[0], now);
      SoloAppend(d, facts, v, xs[1..], ys, now);
    }
  }

  lemma SoloOne(db: Db, facts: Facts, w: Worker, ok: bool, now: int)
    requires w.job in facts
    ensures Solo(db, facts, w, [ok], now) == Advance(db, facts, w, ok, now)
  {
    var (d, v) := Advance(db, facts, w, ok, now);
    assert [ok][1..] == [];
  }

  lemma GrowsTransitive(a: Db, b: Db, c: Db)
    requires Grows(a, b) && Grows(b, c)
    ensures Grows(a, c)
  {
  }

  lemma SameRowsTransitive(a: Db, b: Db, c: Db, job: nat)
    requires SameRows(a, b, job) && SameRows(b, c, job)
    ensures SameRows(a, c, job)
  {
    forall k: Key | k.job == job ensures SameRowsAt(a, c, k) {
      assert SameRowsAt(a, b, k) && SameRowsAt(b, c, k);
    }
  }

  /** A delivery alone keeps the invariants. */
  lemma {:induction false} SoloKeepsInvariants(db: Db, facts: Facts, w: Worker, oks: seq<bool>, now: int)
    requires DbOk(db, facts) && WorkerOk(db, facts, w)
    ensures var (d, v) := Solo(db, facts, w, oks, now);
      DbOk(d, facts) && WorkerOk(d, facts, v) && Grows(db, d)
    decreases |oks|
  {
    if oks != [] {
      AdvanceKeepsDb(db, facts, w, oks[0], now);
      AdvanceKeepsWorker(db, facts, w, oks[0], now);
      var (d, v) := Advance(db, facts, w, oks[0], now);
      SoloKeepsInvariants(d, facts, v, oks[1..], now);
      GrowsTransitive(db, d, Solo(d, facts, v, oks[1..], now).0);
    }
  }

  /** A delivery alone changes no row of a job that is settled already. */
  lemma {:induction false} SoloLeavesSettledJobAlone(db: Db, facts: Facts, w: Worker, oks: seq<bool>, now: int)
    requires DbOk(db, facts) && WorkerOk(db, facts, w) && JobSettled(db, facts, w.job)
    ensures SameRows(db, Solo(db, facts, w, oks, now).0, w.job)
    ensures Solo(db, facts, w, oks, now).0.queue == db.queue
    decreases |oks|
  {
    if oks != [] {
      AdvanceKeepsDb(db, facts, w, oks[0], now);
      AdvanceKeepsWorker(db, facts, w, oks[0], now);
      AdvanceLeavesSettledJobAlone(db, facts, w, oks[0], now, w.job);
      var (d, v) := Advance(db, facts, w, oks[0], now);
      GrowthKeepsSettledPrefix(db, d, facts, w.job, |facts[w.job]|);
      SoloLeavesSettledJobAlone(d, facts, v, oks[1..], now);
      SameRowsTransitive(db, d, Solo(d, facts, v, oks[1..], now).0, w.job);
    }
  }

  /** What a whole delivery run by itself from the start comes to. */
  lemma SoloDelivery(db: Db, facts: Facts, outbox: nat, job: nat, oks: seq<bool>, now: int, d: Db, clean: bool)
    requires DbOk(db, facts) && job in facts
    requires var w := Worker(outbox, job, 0, Evaluate, true);
      Solo(db, facts, w, oks, now) == (d, w.(index := |facts[job]|, clean := clean))
    ensures DbOk(d, facts) && Grows(db, d)
    ensures clean ==> JobSettled(d, facts, job)
    ensures JobSettled(db, facts, job) ==> SameRows(db, d, job) && d.queue == db.queue
  {
    var w := Worker(outbox, job, 0, Evaluate, true);
    SoloKeepsInvariants(db, facts, w, oks, now);
    if JobSettled(db, facts, job) { SoloLeavesSettledJobAlone(db, facts, w, oks, now); }
  }

  datatype Write = WriteMatch | WriteNote | LinkNote | WriteMail | AddToQueue | LinkDelivery | WriteStamp | WriteStatus

  /** Put under the key unless something is there already. */
  ghost predicate PutOnce<V>(before: map<Key, V>, after: map<Key, V>, k: Key) {
    && k in after && (k in before ==> after[k] == before[k])
    && forall other :: other != k ==> SameAt(before, after, other)
  }

  /** The notification block.  There is a notification of the key unless its write fails; the
      match names it exactly if both writes succeed and the match is still there. */
  ghost predicate Notifies(before: Db, after: Db, k: Key, m: nat, fails: Write -> bool, ok: bool) {
    && (ok <==> !fails(WriteNote) && !fails(LinkNote) && k in before.matches && before.matches[k].id == m)
    && (if fails(WriteNote) then after.notes == before.notes else PutOnce(before.notes, after.notes, k))
    && (!ok ==> after.matches == before.matches)
    && (ok ==>
         && k in after.notes && k in before.matches
         && after.matches == before.matches[k := before.matches[k].(notification := Some(after.notes[k]))])
    && after.mails == before.mails && after.queue == before.queue && after.stamps == before.stamps && after.processed == before.processed
  }

  /** The e-mail block.  There is a delivery of the key unless its write fails, it is on the
      queue unless that fails too, and the match names it exactly if all three succeed. */
  ghost predicate Mails(before: Db, after: Db, k: Key, m: nat, fails: Write -> bool, ok: bool) {
    && (ok <==> !fails(WriteMail) && !fails(AddToQueue) && !fails(LinkDelivery) && k in before.matches && before.matches[k].id == m)
    && (if fails(WriteMail) then after.mails == before.mails else PutOnce(before.mails, after.mails, k))
    && (if fails(WriteMail) || fails(AddToQueue) then after.queue == before.queue
        else k in after.mails && after.queue == before.queue + {after.mails[k]})
    && (!ok ==> after.matches == before.matches)
    && (ok ==>
         && k in after.mails && k in before.matches
         && after.matches == before.matches[k := before.matches[k].(email := Some(after.mails[k]))])
    && after.notes == before.notes && after.stamps == before.stamps && after.processed == before.processed
  }

  /** The match row: with the status evaluated, or as it was; linked to notification and
      e-mail when all writes for them succeed. */
  ghost predicate RecordsMatch(before: Db, after: Db, a: AlertFacts, k: Key, fails: Write -> bool) {
    && k in after.matches
    && after.matches[k].status == (if k in before.matches then before.matches[k].status else a.status)
    && (a.inApp && !fails(WriteNote) && !fails(LinkNote) ==> Linked(after, k))
    && (a.wantsEmail && !fails(WriteMail) && !fails(AddToQueue) && !fails(LinkDelivery) ==> Mailed(after, k))
    && forall other :: other != k ==> SameAt(before.matches, after.matches, other)
  }

  /** A notification exactly for an in-app channel, an e-mail exactly if one is wanted, the
      time stamp; each as far as its writes succeed, one failure not keeping the next from
      being tried. */
  ghost predicate InformsUser(before: Db, after: Db, a: AlertFacts, k: Key, fails: Write -> bool, now: int) {
    && (if a.inApp && !fails(WriteNote) then PutOnce(before.notes, after.notes, k) else after.notes == before.notes)
    && (if a.wantsEmail && !fails(WriteMail) then PutOnce(before.mails, after.mails, k) else after.mails == before.mails)
    && (if a.wantsEmail && !fails(WriteMail) && !fails(AddToQueue)
        then k in after.mails && after.queue == before.queue + {after.mails[k]} else after.queue == before.queue)
    && after.stamps == (if fails(WriteStamp) then before.stamps else before.stamps[a.id := now])
    && after.processed == before.processed
  }

  predicate AllWritten(a: AlertFacts, fails: Write -> bool) {
    && (a.inApp ==> !fails(WriteNote) && !fails(LinkNote))
    && (a.wantsEmail ==> !fails(WriteMail) && !fails(AddToQueue) && !fails(LinkDelivery))
  }

  /** The two blocks run after the match was written, or were not called for. */
  ghost predicate BlocksRan(
    before: Db, noted: Db, mailed: Db, a: AlertFacts, k: Key, fails: Write -> bool, noteOk: bool, mailOk: bool)
  {
    var matched := UpsertMatch(before, k, a.status);
    && (if a.inApp then Notifies(matched, noted, k, matched.matches[k].id, fails, noteOk) else noted == matched && noteOk)
    && (if a.wantsEmail then Mails(noted, mailed, k, matched.matches[k].id, fails, mailOk) else mailed == noted && mailOk)
  }

  function Stamped(db: Db, a: AlertFacts, fails: Write -> bool, now: int): Db {
    if fails(WriteStamp) then db else db.(stamps := db.stamps[a.id := now])
  }

  /** A delivery that has come to the time stamp goes on to the next alert with it. */
  lemma StampIsLast(start: Db, facts: Facts, w: Worker, oks: seq<bool>, db: Db, v: Worker, ok: bool, now: int)
    requires w.job in facts && Solo(start, facts, w, oks, now) == (db, v)
    requires v.pc == Stamp && v.job == w.job && v.index < |facts[w.job]|
    ensures Solo(start, facts, w, oks + [ok], now)
      == (if ok then db.(stamps := db.stamps[facts[w.job][v.index].id := now]) else db, v.(index := v.index + 1, pc := Evaluate))
  {
    SoloOne(db, facts, v, ok, now);
    SoloAppend(start, facts, w, oks, [ok], now);
  }

  /** Only the key's match has changed, and of it only the links. */
  ghost predicate SameButLinks(before: Db, after: Db, k: Key) {
    && k in before.matches && k in after.matches
    && after.matches[k].id == before.matches[k].id && after.matches[k].status == before.matches[k].status
    && forall other :: other != k ==> SameAt(before.matches, after.matches, other)
  }

  lemma NotifyingLinks(matched: Db, noted: Db, k: Key, fails: Write -> bool, ok: bool)
    requires k in matched.matches && Notifies(matched, noted, k, matched.matches[k].id, fails, ok)
    ensures SameButLinks(matched, noted, k) && (ok <==> !fails(WriteNote) && !fails(LinkNote)) && (ok ==> Linked(noted, k))
  {
  }

  lemma MailingLinks(noted: Db, mailed: Db, k: Key, fails: Write -> bool, ok: bool)
    requires k in noted.matches && Mails(noted, mailed, k, noted.matches[k].id, fails, ok)
    ensures SameButLinks(noted, mailed, k) && (ok <==> !fails(WriteMail) && !fails(AddToQueue) && !fails(LinkDelivery))
    ensures (ok ==> Mailed(mailed, k)) && (Linked(noted, k) ==> Linked(mailed, k))
  {
  }

  lemma BlocksRecordMatch(
    before: Db, noted: Db, mailed: Db, a: AlertFacts, k: Key, fails: Write -> bool, noteOk: bool, mailOk: bool, now: int)
    requires BlocksRan(before, noted, mailed, a, k, fails, noteOk, mailOk)
    ensures RecordsMatch(before, Stamped(mailed, a, fails, now), a, k, fails)
    ensures noteOk && mailOk <==> AllWritten(a, fails)
  {
    var matched := UpsertMatch(before, k, a.status);
    if a.inApp { NotifyingLinks(matched, noted, k, fails, noteOk); }
    if a.wantsEmail { MailingLinks(noted, mailed, k, fails, mailOk); }
    LinksRecordMatch(before, matched, noted, mailed, a, k, fails);
    assert Stamped(mailed, a, fails, now).matches == mailed.matches && Stamped(mailed, a, fails, now).notes == mailed.notes
      && Stamped(mailed, a, fails, now).mails == mailed.mails && Stamped(mailed, a, fails, now).queue == mailed.queue;
  }

  lemma LinksRecordMatch(before: Db, matched: Db, noted: Db, mailed: Db, a: AlertFacts, k: Key, fails: Write -> bool)
    requires k in matched.matches && forall other :: other != k ==> SameAt(before.matches, matched.matches, other)
    requires matched.matches[k].status == if k in before.matches then before.matches[k].status else a.status
    requires SameButLinks(matched, noted, k) && SameButLinks(noted, mailed, k)
    requires a.inApp && !fails(WriteNote) && !fails(LinkNote) ==> Linked(noted, k)
    requires Linked(noted, k) ==> Linked(mailed, k)
    requires a.wantsEmail && !fails(WriteMail) && !fails(AddToQueue) && !fails(LinkDelivery) ==> Mailed(mailed, k)
    ensures RecordsMatch(before, mailed, a, k, fails)
  {
    forall other | other != k ensures SameAt(before.matches, mailed.matches, other) {
      assert SameAt(before.matches, matched.matches, other) && SameAt(matched.matches, noted.matches, other)
        && SameAt(noted.matches, mailed.matches, other);
    }
  }

  lemma BlocksInformUser(
    before: Db, noted: Db, mailed: Db, a: AlertFacts, k: Key, fails: Write -> bool, noteOk: bool, mailOk: bool, now: int)
    requires BlocksRan(before, noted, mailed, a, k, fails, noteOk, mailOk)
    ensures InformsUser(before, Stamped(mailed, a, fails, now), a, k, fails, now)
  {
    var matched := UpsertMatch(before, k, a.status);
    assert matched.notes == before.notes && matched.mails == before.mails && matched.queue == before.queue
      && matched.stamps == before.stamps && matched.processed == before.processed;
    assert noted.mails == before.mails && noted.queue == before.queue && noted.stamps == before.stamps && noted.processed == before.processed;
    assert mailed.notes == noted.notes && mailed.stamps == before.stamps && mailed.processed == before.processed;
  }

  class AlertEvaluationProcessor {
    var db: Db

    constructor ()
      ensures db == EMPTY
    {
      db := EMPTY;
    }

    /** Step 4: the in-app notification; its errors are logged and swallowed. */
    method CreateNotification(k: Key, m: nat, fails: Write -> bool, ghost facts: Facts, ghost w: Worker, ghost now: int)
      returns (ok: bool, ghost oks: seq<bool>)
      requires w.job in facts && w.index < |facts[w.job]| && w.pc == Notify(m)
      requires k == Key(facts[w.job][w.index].id, w.job)
      modifies this
      ensures Solo(old(db), facts, w, oks, now)
        == (db, w.(pc := AfterNotify(facts[w.job][w.index], m), clean := w.clean && ok))
      ensures Notifies(old(db), db, k, m, fails, ok)
    {
      if fails(WriteNote) {
        SoloOne(db, facts, w, false, now);
        return false, [false];
      }
      ghost var before := db;
      SoloOne(db, facts, w, true, now);
      db := UpsertNotification(db, k);
      var n := db.notes[k];
      ok := !fails(LinkNote) && CanUpdate(db, k, m);
      SoloOne(db, facts, w.(pc := Link(m, n)), ok, now);
      SoloAppend(before, facts, w, [true], [ok], now);
      if ok { db := LinkNotification(db, k, n); }
      oks := [true] + [ok];
    }

    /** Step 5: `queueImmediateEmail`; its errors are logged and swallowed. */
    method QueueImmediateEmail(k: Key, m: nat, fails: Write -> bool, ghost facts: Facts, ghost w: Worker, ghost now: int)
      returns (ok: bool, ghost oks: seq<bool>)
      requires w.job in facts && w.index < |facts[w.job]| && w.pc == Deliver(m)
      requires k == Key(facts[w.job][w.index].id, w.job)
      modifies this
      ensures Solo(old(db), facts, w, oks, now) == (db, w.(pc := Stamp, clean := w.clean && ok))
      ensures Mails(old(db), db, k, m, fails, ok)
    {
      if fails(WriteMail) {
        SoloOne(db, facts, w, false, now);
        return false, [false];
      }
      ghost var before := db;
      SoloOne(db, facts, w, true, now);
      db := UpsertDelivery(db, k);
      var d := db.mails[k];
      ghost var w1 := w.(pc := Enqueue(m, d));
      if fails(AddToQueue) {
        SoloOne(db, facts, w1, false, now);
        SoloAppend(before, facts, w, [true], [false], now);
        return false, [true] + [false];
      }
      SoloOne(db, facts, w1, true, now);
      SoloAppend(before, facts, w, [true], [true], now);
      db := db.(queue := db.queue + {d});
      ok := !fails(LinkDelivery) && CanUpdate(db, k, m);
      SoloOne(db, facts, w.(pc := LinkMail(m, d)), ok, now);
      SoloAppend(before, facts, w, [true] + [true], [ok], now);
      if ok { db := LinkEmail(db, k, d); }
      oks := [true] + [true] + [ok];
    }

    /** One round of the loop over the candidate alerts. */
    method EvaluateAlert(a: AlertFacts, k: Key, fails: Write -> bool, now: int, ghost facts: Facts, ghost w: Worker)
      returns (matched: bool, ok: bool, ghost oks: seq<bool>)
      requires w.job in facts && w.index < |facts[w.job]| && w.pc == Evaluate
      requires a == facts[w.job][w.index] && k == Key(a.id, w.job)
      modifies this
      ensures Solo(old(db), facts, w, oks, now) == (db, w.(index := w.index + 1, clean := w.clean && ok))
      ensures matched <==> a.matches && !fails(WriteMatch)
      ensures !matched ==> db == old(db) && (ok <==> !a.matches)
      ensures matched ==>
        RecordsMatch(old(db), db, a, k, fails) && InformsUser(old(db), db, a, k, fails, now) && (ok <==> AllWritten(a, fails))
    {
      if !a.matches {
        SoloOne(db, facts, w, true, now);
        return false, true, [true];
      }
      if fails(WriteMatch) {
        SoloOne(db, facts, w, false, now);
        return false, false, [false];
      }
      ghost var before := db;
      SoloOne(db, facts, w, true, now);
      db := UpsertMatch(db, k, a.status);
      var m := db.matches[k].id;
      ghost var v := w.(pc := if a.inApp then Notify(m) else AfterNotify(a, m));
      ghost var more: seq<bool>;
      ok, more := InformOfMatch(a, k, m, fails, now, facts, v, before);
      SoloAppend(before, facts, w, [true], more, now);
      matched, oks := true, [true] + more;
    }

    /** Steps 4 and 5, for a match that was written. */
    method RunBlocks(a: AlertFacts, k: Key, m: nat, fails: Write -> bool, ghost facts: Facts, ghost w: Worker, ghost now: int, ghost before: Db)
      returns (noteOk: bool, mailOk: bool, ghost noted: Db, ghost oks: seq<bool>)
      requires w.job in facts && w.index < |facts[w.job]| && a == facts[w.job][w.index] && k == Key(a.id, w.job)
      requires w.pc == if a.inApp then Notify(m) else AfterNotify(a, m)
      requires db == UpsertMatch(before, k, a.status) && m == db.matches[k].id
      modifies this
      ensures Solo(old(db), facts, w, oks, now) == (db, w.(pc := Stamp, clean := w.clean && noteOk && mailOk))
      ensures BlocksRan(before, noted, db, a, k, fails, noteOk, mailOk)
    {
      ghost var start, v := db, w;
      noteOk, mailOk, oks := true, true, [];
      if a.inApp {
        noteOk, oks := CreateNotification(k, m, fails, facts, w, now);
        v := w.(pc := AfterNotify(a, m), clean := w.clean && noteOk);
      }
      noted := db;
      if a.wantsEmail {
        ghost var more: seq<bool>;
        mailOk, more := QueueImmediateEmail(k, m, fails, facts, v, now);
        SoloAppend(start, facts, w, oks, more, now);
        oks := oks + more;
      }
    }

    /** The rest of a round for a match that was written. */
    method InformOfMatch(a: AlertFacts, k: Key, m: nat, fails: Write -> bool, now: int, ghost facts: Facts, ghost w: Worker, ghost before: Db)
      returns (ok: bool, ghost oks: seq<bool>)
      requires w.job in facts && w.index < |facts[w.job]| && a == facts[w.job][w.index] && k == Key(a.id, w.job)
      requires w.pc == if a.inApp then Notify(m) else AfterNotify(a, m)
      requires db == UpsertMatch(before, k, a.status) && m == db.matches[k].id
      modifies this
      ensures Solo(old(db), facts, w, oks, now) == (db, w.(index := w.index + 1, pc := Evaluate, clean := w.clean && ok))
      ensures RecordsMatch(before, db, a, k, fails) && InformsUser(before, db, a, k, fails, now) && (ok <==> AllWritten(a, fails))
    {
      ghost var start := db;
      var noteOk, mailOk;
      ghost var noted;
      noteOk, mailOk, noted, oks := RunBlocks(a, k, m, fails, facts, w, now, before);
      ok := noteOk && mailOk;
      BlocksRecordMatch(before, noted, db, a, k, fails, noteOk, mailOk, now);
      BlocksInformUser(before, noted, db, a, k, fails, noteOk, mailOk, now);
      StampIsLast(start, facts, w, oks, db, w.(pc := Stamp, clean := w.clean && ok), !fails(WriteStamp), now);
      if !fails(WriteStamp) { db := db.(stamps := db.stamps[a.id := now]); }
      oks := oks + [!fails(WriteStamp)];
    }

    /** `process`, for a job that exists; `fails(i, _)` are the write failures at alert i. */
    method Process(outbox: nat, job: nat, alerts: seq<AlertFacts>, fails: (nat, Write) -> bool, now: int, ghost facts: Facts)
      returns (matchedCount: nat, clean: bool)
      requires DbOk(db, facts) && job in facts && facts[job] == alerts
      modifies this
      ensures DbOk(db, facts) && Grows(old(db), db)
      ensures clean ==> JobSettled(db, facts, job)
      ensures JobSettled(old(db), facts, job) ==> SameRows(old(db), db, job) && db.queue == old(db).queue
      ensures db.processed == old(db).processed + if fails(|alerts|, WriteStatus) then {} else {outbox}
      ensures matchedCount == |MatchedUpTo(alerts, fails, |alerts|)|
    {
      ghost var start := Worker(outbox, job, 0, Evaluate, true);
      ghost var oks: seq<bool> := [];
      ghost var before := db;
      matchedCount, clean := 0, true;
      for i := 0 to |alerts|
        invariant Solo(before, facts, start, oks, now) == (db, start.(index := i, clean := clean))
        invariant db.processed == before.processed
        invariant matchedCount == |MatchedUpTo(alerts, fails, i)|
      {
        var matched, ok;
        ghost var more: seq<bool>;
        ghost var w := start.(index := i, clean := clean);
        matched, ok, more := EvaluateAlert(alerts[i], Key(alerts[i].id, job), op => fails(i, op), now, facts, w);
        SoloAppend(before, facts, start, oks, more, now);
        SoloKeepsProcessed(before, facts, start, oks + more, now);
        oks, clean := oks + more, clean && ok;
        MatchedUpToStep(alerts, fails, i);
        if matched { matchedCount := matchedCount + 1; }
      }
      SoloDelivery(before, facts, outbox, job, oks, now, db, clean);
      if !fails(|alerts|, WriteStatus) {
        AcknowledgingChangesNoRows(db, facts, job, outbox);
        db := db.(processed := db.processed + {outbox});
      }
    }
  }

  /** The indices below n of alerts that match and whose match was written. */
  ghost function MatchedUpTo(alerts: seq<AlertFacts>, fails: (nat, Write) -> bool, n: nat): set<int>
    requires n <= |alerts|
  {
    set i | 0 <= i < n && alerts[i].matches && !fails(i, WriteMatch)
  }

  lemma {:induction false} SoloKeepsProcessed(db: Db, facts: Facts, w: Worker, oks: seq<bool>, now: int)
    requires w.job in facts
    requires Solo(db, facts, w, oks, now).1.pc != Finished
    ensures Solo(db, facts, w, oks, now).0.processed == db.processed
    decreases |oks|
  {
    if oks != [] {
      var (d, v) := Advance(db, facts, w, oks[0], now);
      SoloKeepsProcessed(d, facts, v, oks[1..], now);
      if w.pc == Acknowledge { FinishedStays(d, facts, v, oks[1..], now); }
    }
  }

  lemma {:induction false} FinishedStays(db: Db, facts: Facts, w: Worker, oks: seq<bool>, now: int)
    requires w.job in facts && w.pc == Finished
    ensures Solo(db, facts, w, oks, now) == (db, w)
    decreases |oks|
  {
    if oks != [] { FinishedStays(db, facts, w, oks[1..], now); }
  }

  lemma MatchedUpToStep(alerts: seq<AlertFacts>, fails: (nat, Write) -> bool, n: nat)
    requires n < |alerts|
    ensures |MatchedUpTo(alerts, fails, n + 1)| == |MatchedUpTo(alerts, fails, n)| + if alerts[n].matches && !fails(n, WriteMatch) then 1 else 0
  {
    assert MatchedUpTo(alerts, fails, n + 1)
        == MatchedUpTo(alerts, fails, n) + if alerts[n].matches && !fails(n, WriteMatch) then {n as int} else {};
  }

  lemma AcknowledgingChangesNoRows(db: Db, facts: Facts, job: nat, outbox: nat)
    requires DbOk(db, facts) && job in facts
    ensures var d := db.(processed := db.processed + {outbox});
      && DbOk(d, facts)
      && (forall before: Db :: Grows(before, db) ==> Grows(before, d))
      && (JobSettled(db, facts, job) ==> JobSettled(d, facts, job))
      && (forall before: Db :: SameRows(before, db, job) ==> SameRows(before, d, job))
  {
    var d := db.(processed := db.processed + {outbox});
    forall before: Db | SameRows(before, db, job) ensures SameRows(before, d, job) {
      SameRowsTransitive(before, db, d, job);
    }
    if JobSettled(db, facts, job) {
      GrowthKeepsSettledPrefix(db, d, facts, job, |facts[job]|);
    }
  }
}
