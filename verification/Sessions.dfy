/** Refresh-token families: login, rotation, replay detection, bulk revocation, guard.

    Session rows are kept in creation order and a row's position is its id.  A token is
    identified with its hash.  `refresh` reads a session first and rechecks it inside a
    later transaction; between the two any other request may run.  Every transaction and
    every single statement is atomic. */
module Sessions {
  import opened Ordering

  type UserId = nat
  type Token = nat
  type Family = nat

  datatype Revocation = Revocation(at: int, reason: string)

  datatype Session = Session(
    user: UserId, access: Token, refresh: Token, family: Family,
    createdAt: int, expiresAt: int, accessExpiresAt: int,
    revoked: Option<Revocation>, replacedBy: Option<nat>, lastUsedAt: int)

  /** The WHERE clauses of the bulk revocations, apart from `revokedAt: null`. */
  datatype RevokeFilter =
    | OfFamily(family: Family)
    | OfUser(user: UserId)
    | OfUserFamily(user: UserId, family: Family)
    | OfUserExcept(user: UserId, family: Family)

  predicate Selects(filter: RevokeFilter, s: Session) {
    match filter
    case OfFamily(f) => s.family == f
    case OfUser(u) => s.user == u
    case OfUserFamily(u, f) => s.user == u && s.family == f
    case OfUserExcept(u, f) => s.user == u && s.family != f
  }

  /** updateMany: every unrevoked selected row becomes revoked, nothing else changes. */
  function RevokeMany(rows: seq<Session>, filter: RevokeFilter, why: Revocation): (out: seq<Session>)
    ensures |out| == |rows|
  {
    seq(|rows|, i requires 0 <= i < |rows| =>
      if rows[i].revoked.None? && Selects(filter, rows[i]) then rows[i].(revoked := Some(why)) else rows[i])
  }

  predicate Unused(rows: seq<Session>, token: Token) {
    forall i | 0 <= i < |rows| :: rows[i].access != token && rows[i].refresh != token
  }

  predicate FamilyUnused(rows: seq<Session>, family: Family) {
    forall i | 0 <= i < |rows| :: rows[i].family != family
  }

  function FindBy(rows: seq<Session>, wanted: Session -> bool): (found: Option<nat>)
    ensures found.Some? ==> found.value < |rows| && wanted(rows[found.value])
    ensures found.None? ==> forall i | 0 <= i < |rows| :: !wanted(rows[i])
  {
    if rows == [] then None
    else if wanted(rows[|rows| - 1]) then Some(|rows| - 1)
    else FindBy(rows[..|rows| - 1], wanted)
  }

  /** What the first half of `refresh` decides to do later. */
  datatype Pending =
    | WillRevoke(family: Family, at: int)
    | WillRotate(id: nat, seen: Session, at: int)

  datatype ReadOutcome = Unauthorized | Continue(pending: Pending)

  function RefreshRead(rows: seq<Session>, active: set<UserId>, token: Token, now: int): ReadOutcome {
    var found := FindBy(rows, (s: Session) => s.refresh == token);
    if found.None? then Unauthorized
    else
      var s := rows[found.value];
      if s.revoked.Some? then Continue(WillRevoke(s.family, now))
      else if s.expiresAt <= now || s.user !in active then Unauthorized
      else Continue(WillRotate(found.value, s, now))
  }

  /** The rotation transaction.  Unchanged rows stand for its rollback. */
  function Rotate(rows: seq<Session>, p: Pending, access: Token, refresh: Token, accessTtl: int): seq<Session>
    requires p.WillRotate?
  {
    if p.id >= |rows| || rows[p.id].revoked.Some? then rows
    else if access == refresh || !Unused(rows, access) || !Unused(rows, refresh) then rows
    else
      var next := Session(p.seen.user, access, refresh, p.seen.family, p.at, p.seen.expiresAt,
                          p.at + accessTtl, None, None, p.at);
      rows[p.id := rows[p.id].(revoked := Some(Revocation(p.at, "rotated")), replacedBy := Some(|rows|), lastUsedAt := p.at)] + [next]
  }

  function CreateSession(rows: seq<Session>, user: UserId, access: Token, refresh: Token, family: Family,
                         now: int, ttl: int, accessTtl: int): seq<Session>
  {
    if access == refresh || !Unused(rows, access) || !Unused(rows, refresh) then rows
    else rows + [Session(user, access, refresh, family, now, now + ttl, now + accessTtl, None, None, now)]
  }

  predicate Admits(s: Session, active: set<UserId>, now: int) {
    s.revoked.None? && now < s.expiresAt && now < s.accessExpiresAt && s.user in active
  }

  const THROTTLE_MS := 15 * 60 * 1000

  function Touch(rows: seq<Session>, id: nat, now: int): (out: seq<Session>)
    ensures |out| == |rows|
  {
    if id < |rows| && now - rows[id].lastUsedAt > THROTTLE_MS then rows[id := rows[id].(lastUsedAt := now)] else rows
  }

  // ---- the protocol over whole runs --------------------------------------------

  datatype State = State(rows: seq<Session>, active: set<UserId>, pending: map<nat, Pending>)

  datatype Event =
    | Login(user: UserId, access: Token, refresh: Token, family: Family, now: int)
    | RefreshBegins(request: nat, token: Token, now: int)
    | RefreshEnds(request: nat, access: Token, refresh: Token)
    | BulkRevoke(filter: RevokeFilter, why: Revocation)
    | GuardTouches(id: nat, now: int)
    | UserStatusChanges(user: UserId, isActive: bool)

  datatype Config = Config(refreshTtl: int, accessTtl: int)

  /** One atomic step.  A login draws a family no row has (a random UUID); a draw that
      is already in use is not a step. */
  function Step(s: State, e: Event, c: Config): State {
    match e
    case Login(user, access, refresh, family, now) =>
      if FamilyUnused(s.rows, family)
      then s.(rows := CreateSession(s.rows, user, access, refresh, family, now, c.refreshTtl, c.accessTtl))
      else s
    case RefreshBegins(request, token, now) =>
      var outcome := RefreshRead(s.rows, s.active, token, now);
      if outcome.Continue? then s.(pending := s.pending[request := outcome.pending])
      else s.(pending := s.pending - {request})
    case RefreshEnds(request, access, refresh) =>
      if request !in s.pending then s
      else
        var p := s.pending[request];
        var rows := if p.WillRevoke? then RevokeMany(s.rows, OfFamily(p.family), Revocation(p.at, "refresh_reuse_detected"))
                    else Rotate(s.rows, p, access, refresh, c.accessTtl);
        s.(rows := rows, pending := s.pending - {request})
    case BulkRevoke(filter, why) => s.(rows := RevokeMany(s.rows, filter, why))
    case GuardTouches(id, now) => s.(rows := Touch(s.rows, id, now))
    case UserStatusChanges(user, isActive) =>
      s.(active := if isActive then s.active + {user} else s.active - {user})
  }

  function Run(s: State, es: seq<Event>, c: Config): State
    decreases |es|
  {
    if es == [] then s else Run(Step(s, es[0], c), es[1..], c)
  }

  const INITIAL := State([], {}, map[])

  predicate Related(a: Session, b: Session) {
    a.family == b.family && a.user == b.user && a.expiresAt == b.expiresAt
  }

  /** The next row of the same family, if there is one. */
  ghost predicate IsNextInFamily(rows: seq<Session>, i: nat, j: nat) {
    && i < j < |rows| && rows[i].family == rows[j].family
    && forall k :: i < k < j ==> rows[k].family != rows[i].family
  }

  ghost predicate IsFounder(rows: seq<Session>, i: nat) {
    i < |rows| && forall k :: 0 <= k < i ==> rows[k].family != rows[i].family
  }

  /** Only the newest row of a family may be unrevoked; user and lifetime are shared. */
  ghost predicate OnlyNewestLives(rows: seq<Session>) {
    forall i, j :: 0 <= i < j < |rows| && rows[i].family == rows[j].family ==>
      rows[i].revoked.Some? && Related(rows[i], rows[j])
  }

  ghost predicate NextIsLinked(rows: seq<Session>) {
    forall i, j :: 0 <= i < |rows| && 0 <= j < |rows| && IsNextInFamily(rows, i, j) ==> rows[i].replacedBy == Some(j)
  }

  ghost predicate LinksLeadToNext(rows: seq<Session>) {
    forall i :: 0 <= i < |rows| && rows[i].replacedBy.Some? ==>
      rows[i].revoked.Some? && IsNextInFamily(rows, i, rows[i].replacedBy.value)
  }

  ghost predicate LifetimeFromLogin(rows: seq<Session>, c: Config) {
    forall i :: 0 <= i < |rows| && IsFounder(rows, i) ==> rows[i].expiresAt == rows[i].createdAt + c.refreshTtl
  }

  /** Every family is a chain in creation order: each row but the newest is revoked, a
      replacement link leads exactly to the next row, and the login fixes the lifetime. */
  ghost predicate Chains(rows: seq<Session>, c: Config) {
    OnlyNewestLives(rows) && NextIsLinked(rows) && LinksLeadToNext(rows) && LifetimeFromLogin(rows, c)
  }

  ghost predicate PendingOk(rows: seq<Session>, p: Pending) {
    match p
    case WillRevoke(f, _) => !FamilyUnused(rows, f)
    case WillRotate(id, seen, _) => id < |rows| && Related(seen, rows[id])
  }

  /** The unique indexes on the token hashes. */
  ghost predicate TokensUnique(rows: seq<Session>) {
    forall i, j :: 0 <= i < j < |rows| ==> rows[i].refresh != rows[j].refresh && rows[i].access != rows[j].access
  }

  ghost predicate Inv(s: State, c: Config) {
    && Chains(s.rows, c) && TokensUnique(s.rows)
    && forall r | r in s.pending :: PendingOk(s.rows, s.pending[r])
  }

  /** Rows only ever gain a revocation, a link or a later use: identity never changes. */
  ghost predicate Extends(old_: seq<Session>, new_: seq<Session>) {
    && |old_| <= |new_|
    && forall i :: 0 <= i < |old_| ==>
         && Related(old_[i], new_[i]) && old_[i].createdAt == new_[i].createdAt
         && old_[i].refresh == new_[i].refresh && old_[i].access == new_[i].access
         && (old_[i].revoked.Some? ==> new_[i].revoked == old_[i].revoked)
         && (old_[i].replacedBy.Some? ==> new_[i].replacedBy == old_[i].replacedBy)
  }

  /** Same families and links; only revocations and use times may be added. */
  ghost predicate SameShape(a: seq<Session>, b: seq<Session>) {
    && |a| == |b|
    && forall i :: 0 <= i < |a| ==>
         && Related(a[i], b[i]) && a[i].createdAt == b[i].createdAt && a[i].replacedBy == b[i].replacedBy
         && (a[i].revoked.Some? ==> b[i].revoked.Some?)
  }

  lemma SameShapeKeepsChains(a: seq<Session>, b: seq<Session>, c: Config)
    requires Chains(a, c) && SameShape(a, b)
    ensures Chains(b, c)
  {
    PrefixKeepsShape(a, b);
  }

  /** The shape of the first rows depends on their families only. */
  lemma PrefixKeepsShape(a: seq<Session>, b: seq<Session>)
    requires |a| <= |b| && forall i :: 0 <= i < |a| ==> a[i].family == b[i].family
    ensures forall i: nat, j: nat :: j < |a| ==> (IsNextInFamily(a, i, j) <==> IsNextInFamily(b, i, j))
    ensures forall i: nat :: i < |a| ==> (IsFounder(a, i) <==> IsFounder(b, i))
  {
    forall i: nat, j: nat | j < |a| ensures IsNextInFamily(a, i, j) <==> IsNextInFamily(b, i, j) {
      if IsNextInFamily(b, i, j) {
        forall k | i < k < j ensures a[k].family != a[i].family { assert b[k].family != b[i].family; }
      }
      if IsNextInFamily(a, i, j) {
        forall k | i < k < j ensures b[k].family != b[i].family { assert a[k].family != a[i].family; }
      }
    }
    forall i: nat | i < |a| ensures IsFounder(a, i) <==> IsFounder(b, i) {
      if IsFounder(b, i) {
        forall k | 0 <= k < i ensures a[k].family != a[i].family { assert b[k].family != b[i].family; }
      }
      if IsFounder(a, i) {
        forall k | 0 <= k < i ensures b[k].family != b[i].family { assert a[k].family != a[i].family; }
      }
    }
  }

  lemma AppendKeepsChains(rows: seq<Session>, next: Session, c: Config)
    requires Chains(rows, c) && FamilyUnused(rows, next.family)
    requires next.replacedBy.None? && next.expiresAt == next.createdAt + c.refreshTtl
    ensures Chains(rows + [next], c)
  {
    var out := rows + [next];
    PrefixKeepsShape(rows, out);
  }

  ghost predicate IsNewest(rows: seq<Session>, id: nat) {
    id < |rows| && forall k :: id < k < |rows| ==> rows[k].family != rows[id].family
  }

  /** An unrevoked row is the newest of its family. */
  lemma LiveIsNewest(rows: seq<Session>, id: nat, c: Config)
    requires Chains(rows, c) && id < |rows| && rows[id].revoked.None?
    ensures IsNewest(rows, id) && rows[id].replacedBy.None?
  {
  }

  /** What a committed rotation of row `id` does to the rows. */
  ghost predicate Rotated(rows: seq<Session>, out: seq<Session>, id: nat) {
    && id < |rows| && |out| == |rows| + 1
    && (forall i :: 0 <= i < |rows| && i != id ==> out[i] == rows[i])
    && out[id].revoked.Some? && out[id].replacedBy == Some(|rows|) && Related(out[id], rows[id])
    && out[|rows|].replacedBy.None? && Related(out[|rows|], rows[id])
  }

  lemma NewRowFollowsNewest(rows: seq<Session>, out: seq<Session>, id: nat, i: nat)
    requires Rotated(rows, out, id) && IsNewest(rows, id)
    ensures IsNextInFamily(out, i, |rows|) <==> i == id
  {
    if i == id {
      forall k | id < k < |rows| ensures out[k].family != out[id].family { assert rows[k].family != rows[id].family; }
    } else if i < |rows| && id < i {
      assert rows[i].family != rows[id].family;
    }
  }

  lemma RotateKeepsNextLinked(rows: seq<Session>, out: seq<Session>, id: nat)
    requires Rotated(rows, out, id) && IsNewest(rows, id) && NextIsLinked(rows)
    ensures NextIsLinked(out)
  {
    PrefixKeepsShape(rows, out);
    forall i: nat, j: nat | j < |out| && IsNextInFamily(out, i, j) ensures out[i].replacedBy == Some(j) {
      if j == |rows| {
        NewRowFollowsNewest(rows, out, id, i);
      } else {
        assert IsNextInFamily(rows, i, j);
      }
    }
  }

  lemma RotateKeepsLinksLeadToNext(rows: seq<Session>, out: seq<Session>, id: nat)
    requires Rotated(rows, out, id) && IsNewest(rows, id) && LinksLeadToNext(rows)
    ensures LinksLeadToNext(out)
  {
    PrefixKeepsShape(rows, out);
    NewRowFollowsNewest(rows, out, id, id);
    forall i | 0 <= i < |out| && out[i].replacedBy.Some?
      ensures out[i].revoked.Some? && IsNextInFamily(out, i, out[i].replacedBy.value)
    {
      if i != id { assert IsNextInFamily(rows, i, rows[i].replacedBy.value); }
    }
  }

  lemma RotateKeepsChains(rows: seq<Session>, p: Pending, access: Token, refresh: Token, c: Config)
    requires p.WillRotate? && PendingOk(rows, p) && Chains(rows, c)
    ensures Chains(Rotate(rows, p, access, refresh, c.accessTtl), c)
  {
    var out := Rotate(rows, p, access, refresh, c.accessTtl);
    if |out| > |rows| {
      LiveIsNewest(rows, p.id, c);
      RotateKeepsNextLinked(rows, out, p.id);
      RotateKeepsLinksLeadToNext(rows, out, p.id);
      PrefixKeepsShape(rows, out);
      var n := |rows|;
      assert out[p.id].family == out[n].family;
      assert !IsFounder(out, n);
      forall i, j | 0 <= i < j < |out| && out[i].family == out[j].family
        ensures out[i].revoked.Some? && Related(out[i], out[j])
      {
        if j == n && i != p.id { assert rows[i].family == rows[p.id].family; }
      }
    }
  }

  lemma StepExtends(s: State, e: Event, c: Config)
    requires Inv(s, c)
    ensures Extends(s.rows, Step(s, e, c).rows)
  {
    if e.RefreshEnds? && e.request in s.pending && s.pending[e.request].WillRotate? {
      var p := s.pending[e.request];
      if p.id < |s.rows| && s.rows[p.id].revoked.None? { LiveIsNewest(s.rows, p.id, c); }
    }
  }

  lemma StepKeepsInv(s: State, e: Event, c: Config)
    requires Inv(s, c)
    ensures Inv(Step(s, e, c), c)
  {
    var t := Step(s, e, c);
    match e {
      case Login(user, access, refresh, family, now) =>
        if |t.rows| > |s.rows| { AppendKeepsChains(s.rows, t.rows[|s.rows|], c); }
      case RefreshEnds(request, access, refresh) =>
        if request in s.pending && s.pending[request].WillRotate? {
          RotateKeepsChains(s.rows, s.pending[request], access, refresh, c);
        } else if request in s.pending {
          SameShapeKeepsChains(s.rows, t.rows, c);
        }
      case BulkRevoke(_, _) => SameShapeKeepsChains(s.rows, t.rows, c);
      case GuardTouches(_, _) => SameShapeKeepsChains(s.rows, t.rows, c);
      case _ =>
    }
    StepExtends(s, e, c);
    forall r | r in t.pending ensures PendingOk(t.rows, t.pending[r]) {
      PendingSurvives(s, e, c, r);
    }
  }

  lemma PendingSurvives(s: State, e: Event, c: Config, r: nat)
    requires Inv(s, c) && r in Step(s, e, c).pending && Extends(s.rows, Step(s, e, c).rows)
    ensures PendingOk(Step(s, e, c).rows, Step(s, e, c).pending[r])
  {
    var t := Step(s, e, c);
    if r in s.pending && t.pending[r] == s.pending[r] {
      PendingStays(s.rows, t.rows, s.pending[r]);
    } else {
      ReadPendingIsOk(s.rows, s.active, e.token, e.now);
    }
  }

  lemma ReadPendingIsOk(rows: seq<Session>, active: set<UserId>, token: Token, now: int)
    ensures RefreshRead(rows, active, token, now).Continue? ==> PendingOk(rows, RefreshRead(rows, active, token, now).pending)
  {
  }

  lemma PendingStays(old_: seq<Session>, new_: seq<Session>, p: Pending)
    requires PendingOk(old_, p) && Extends(old_, new_)
    ensures PendingOk(new_, p)
  {
    if p.WillRevoke? {
      var i :| 0 <= i < |old_| && old_[i].family == p.family;
      assert Related(old_[i], new_[i]);
    }
  }

  lemma {:induction false} RunKeepsInv(s: State, es: seq<Event>, c: Config)
    requires Inv(s, c)
    ensures Inv(Run(s, es, c), c) && Extends(s.rows, Run(s, es, c).rows)
    decreases |es|
  {
    if es != [] {
      StepKeepsInv(s, es[0], c);
      StepExtends(s, es[0], c);
      RunKeepsInv(Step(s, es[0], c), es[1..], c);
    }
  }

  /** Over every interleaving, a token family has at most one unrevoked session. */
  lemma AtMostOneLiveSessionPerFamily(es: seq<Event>, c: Config, i: nat, j: nat)
    requires var rows := Run(INITIAL, es, c).rows;
      && i < |rows| && j < |rows| && rows[i].family == rows[j].family
      && rows[i].revoked.None? && rows[j].revoked.None?
    ensures i == j
  {
    RunKeepsInv(INITIAL, es, c);
  }

  ghost predicate DeadFamily(rows: seq<Session>, f: Family) {
    !FamilyUnused(rows, f) && forall i :: 0 <= i < |rows| && rows[i].family == f ==> rows[i].revoked.Some?
  }

  /** A step adds at most one row, and only to an unused family or to a living one. */
  lemma NewRowNeedsLiveFamily(s: State, e: Event, c: Config)
    requires Inv(s, c)
    ensures var rows, out := s.rows, Step(s, e, c).rows;
      && |out| <= |rows| + 1
      && (|out| == |rows| + 1 ==>
        || FamilyUnused(rows, out[|rows|].family)
        || exists j :: 0 <= j < |rows| && rows[j].family == out[|rows|].family && rows[j].revoked.None?)
  {
    if e.RefreshEnds? && e.request in s.pending && s.pending[e.request].WillRotate? {
      var p := s.pending[e.request];
      assert PendingOk(s.rows, p) && s.rows[p.id].family == p.seen.family;
    }
  }

  lemma DeadFamilySurvivesStep(s: State, e: Event, c: Config, f: Family)
    requires Inv(s, c) && DeadFamily(s.rows, f)
    ensures DeadFamily(Step(s, e, c).rows, f)
  {
    var t := Step(s, e, c);
    StepExtends(s, e, c);
    NewRowNeedsLiveFamily(s, e, c);
    var k :| 0 <= k < |s.rows| && s.rows[k].family == f;
    assert t.rows[k].family == f;
    forall i | 0 <= i < |t.rows| && t.rows[i].family == f ensures t.rows[i].revoked.Some? {
      if i < |s.rows| { assert Related(s.rows[i], t.rows[i]); }
    }
  }

  /** Once dead, dead for good: neither a login nor a rotation already under way brings
      a family back. */
  lemma {:induction false} DeadFamilyStaysDead(s: State, es: seq<Event>, c: Config, f: Family)
    requires Inv(s, c) && DeadFamily(s.rows, f)
    ensures DeadFamily(Run(s, es, c).rows, f)
    decreases |es|
  {
    if es != [] {
      StepKeepsInv(s, es[0], c);
      DeadFamilySurvivesStep(s, es[0], c, f);
      DeadFamilyStaysDead(Step(s, es[0], c), es[1..], c, f);
    }
  }

  lemma BulkRevokeKillsFamily(rows: seq<Session>, f: Family, why: Revocation)
    requires !FamilyUnused(rows, f)
    ensures DeadFamily(RevokeMany(rows, OfFamily(f), why), f)
  {
    var out := RevokeMany(rows, OfFamily(f), why);
    var k :| 0 <= k < |rows| && rows[k].family == f;
    assert out[k].family == f;
  }

  predicate Concerns(e: Event, request: nat) {
    (e.RefreshBegins? || e.RefreshEnds?) && e.request == request
  }

  lemma {:induction false} PendingIsKept(s: State, es: seq<Event>, c: Config, request: nat)
    requires request in s.pending && forall i | 0 <= i < |es| :: !Concerns(es[i], request)
    ensures request in Run(s, es, c).pending && Run(s, es, c).pending[request] == s.pending[request]
    decreases |es|
  {
    if es != [] {
      assert !Concerns(es[0], request);
      PendingIsKept(Step(s, es[0], c), es[1..], c, request);
    }
  }

  /** Replay detection.  Presenting the refresh token of a session that is already
      revoked leaves its whole family dead from the moment that request's write lands,
      through everything before (`between`) and after it (`rest`). */
  lemma ReplayKillsFamilyForGood(
    s: State, id: nat, request: nat, now: int, between: seq<Event>, access: Token, refresh: Token, rest: seq<Event>, c: Config)
    requires Inv(s, c) && id < |s.rows| && s.rows[id].revoked.Some?
    requires forall i | 0 <= i < |between| :: !Concerns(between[i], request)
    ensures var asked := Step(s, RefreshBegins(request, s.rows[id].refresh, now), c);
      var answered := Step(Run(asked, between, c), RefreshEnds(request, access, refresh), c);
      DeadFamily(Run(answered, rest, c).rows, s.rows[id].family)
  {
    var begin := RefreshBegins(request, s.rows[id].refresh, now);
    var end := RefreshEnds(request, access, refresh);
    var asked, f := Step(s, begin, c), s.rows[id].family;
    ReplayIsNoticed(s, id, request, now, c);
    StepKeepsInv(s, begin, c);
    PendingIsKept(asked, between, c, request);
    RunKeepsInv(asked, between, c);
    var waiting := Run(asked, between, c);
    StepKeepsInv(waiting, end, c);
    assert PendingOk(waiting.rows, WillRevoke(f, now));
    BulkRevokeKillsFamily(waiting.rows, f, Revocation(now, "refresh_reuse_detected"));
    DeadFamilyStaysDead(Step(waiting, end, c), rest, c, f);
  }

  lemma ReplayIsNoticed(s: State, id: nat, request: nat, now: int, c: Config)
    requires Inv(s, c) && id < |s.rows| && s.rows[id].revoked.Some?
    ensures var asked := Step(s, RefreshBegins(request, s.rows[id].refresh, now), c);
      request in asked.pending && asked.pending[request] == WillRevoke(s.rows[id].family, now)
  {
    var found := FindBy(s.rows, (x: Session) => x.refresh == s.rows[id].refresh);
    assert found.Some?;
    assert found.value == id;
  }

  /** Replacement links point strictly forward in creation order, so they form no cycle,
      and they lead to the very next session of the same family. */
  lemma ReplacementLinksGoForward(es: seq<Event>, c: Config, i: nat)
    requires var rows := Run(INITIAL, es, c).rows; i < |rows| && rows[i].replacedBy.Some?
    ensures var rows := Run(INITIAL, es, c).rows; IsNextInFamily(rows, i, rows[i].replacedBy.value)
  {
    RunKeepsInv(INITIAL, es, c);
  }

  /** Rotation never lengthens a login: the guard admits no session of a family from the
      login time plus the refresh lifetime on. */
  lemma GuardNeverOutlivesLogin(es: seq<Event>, c: Config, founder: nat, i: nat, active: set<UserId>, now: int)
    requires var rows := Run(INITIAL, es, c).rows;
      && i < |rows| && IsFounder(rows, founder) && rows[founder].family == rows[i].family
      && Admits(rows[i], active, now)
    ensures now < Run(INITIAL, es, c).rows[founder].createdAt + c.refreshTtl
  {
    RunKeepsInv(INITIAL, es, c);
  }

  /** The live sessions of a user. */
  ghost function LiveFamilies(rows: seq<Session>, user: UserId): set<Family> {
    set i | 0 <= i < |rows| && rows[i].user == user && rows[i].revoked.None? :: rows[i].family
  }

  // ---- bulk revocations with other requests between their read and their write ---

  /** A logout that read any session of a family leaves the family dead for good, whatever
      ran between its read and its write. */
  lemma LogoutKillsFamilyForGood(s: State, id: nat, between: seq<Event>, why: Revocation, rest: seq<Event>, c: Config)
    requires Inv(s, c) && id < |s.rows|
    ensures var after := Step(Run(s, between, c), BulkRevoke(OfFamily(s.rows[id].family), why), c);
      DeadFamily(Run(after, rest, c).rows, s.rows[id].family)
  {
    var mid, f := Run(s, between, c), s.rows[id].family;
    RunKeepsInv(s, between, c);
    StepKeepsInv(mid, BulkRevoke(OfFamily(f), why), c);
    assert mid.rows[id].family == f;
    BulkRevokeKillsFamily(mid.rows, f, why);
    DeadFamilyStaysDead(Step(mid, BulkRevoke(OfFamily(f), why), c), rest, c, f);
  }

  lemma FamilyHasOneUser(rows: seq<Session>, i: nat, j: nat, c: Config)
    requires Chains(rows, c) && i < |rows| && j < |rows| && rows[i].family == rows[j].family
    ensures rows[i].user == rows[j].user
  {
    if i < j {
      assert Related(rows[i], rows[j]);
    } else if j < i {
      assert Related(rows[j], rows[i]);
    }
  }

  /** A family selected by a user's bulk revocation is dead afterwards: all its rows are
      that user's. */
  lemma SelectedFamilyDies(rows: seq<Session>, user: UserId, f: Family, filter: RevokeFilter, why: Revocation, c: Config)
    requires Chains(rows, c) && f in LiveFamilies(rows, user)
    requires forall x: Session :: x.user == user && x.family == f ==> Selects(filter, x)
    ensures DeadFamily(RevokeMany(rows, filter, why), f)
  {
    var out := RevokeMany(rows, filter, why);
    var k :| 0 <= k < |rows| && rows[k].user == user && rows[k].revoked.None? && rows[k].family == f;
    assert out[k].family == f;
    forall i | 0 <= i < |out| && out[i].family == f ensures out[i].revoked.Some? {
      FamilyHasOneUser(rows, i, k, c);
      assert Selects(filter, rows[i]);
    }
  }

  /** A password change or a sign-out of the others that read the caller's family spares
      exactly that family of all that live when its write lands, and what it kills stays
      dead. */
  lemma OnlyOwnFamilyIsSpared(
    s: State, user: UserId, id: nat, between: seq<Event>, why: Revocation, rest: seq<Event>, c: Config)
    requires Inv(s, c) && id < |s.rows|
    ensures var mid, own := Run(s, between, c), s.rows[id].family;
      var after := Step(mid, BulkRevoke(OfUserExcept(user, own), why), c);
      && LiveFamilies(after.rows, user) == LiveFamilies(mid.rows, user) * {own}
      && (forall other :: other != user ==> LiveFamilies(after.rows, other) == LiveFamilies(mid.rows, other))
      && forall f | f in LiveFamilies(mid.rows, user) && f != own :: DeadFamily(Run(after, rest, c).rows, f)
  {
    var mid, own := Run(s, between, c), s.rows[id].family;
    var filter := OfUserExcept(user, own);
    var after := Step(mid, BulkRevoke(filter, why), c);
    RunKeepsInv(s, between, c);
    StepKeepsInv(mid, BulkRevoke(filter, why), c);
    LiveAfterRevoke(mid.rows, filter, why);
    forall f | f in LiveFamilies(mid.rows, user) && f != own ensures DeadFamily(Run(after, rest, c).rows, f) {
      SelectedFamilyDies(mid.rows, user, f, filter, why, c);
      DeadFamilyStaysDead(after, rest, c, f);
    }
  }

  lemma KnownFamilyStaysKnown(a: seq<Session>, b: seq<Session>, f: Family)
    requires Extends(a, b) && !FamilyUnused(a, f)
    ensures !FamilyUnused(b, f)
  {
    var k :| 0 <= k < |a| && a[k].family == f;
    assert Related(a[k], b[k]);
  }

  lemma RevokingLosesFamily(s: State, user: UserId, f: Family, why: Revocation, c: Config)
    requires Inv(s, c) && !FamilyUnused(s.rows, f)
    ensures var after := Step(s, BulkRevoke(OfUserFamily(user, f), why), c);
      && Inv(after, c) && !FamilyUnused(after.rows, f)
      && LiveFamilies(after.rows, user) == LiveFamilies(s.rows, user) - {f}
      && forall other :: other != user ==> LiveFamilies(after.rows, other) == LiveFamilies(s.rows, other)
  {
    var e := BulkRevoke(OfUserFamily(user, f), why);
    StepKeepsInv(s, e, c);
    StepExtends(s, e, c);
    KnownFamilyStaysKnown(s.rows, Step(s, e, c).rows, f);
    LiveAfterRevoke(s.rows, OfUserFamily(user, f), why);
  }

  /** `revokeSession` writes only if its listing showed the family.  Either way the family
      is not among the user's live ones when it is done, nor ever after. */
  lemma RevokedSessionStaysOut(
    s: State, user: UserId, f: Family, between: seq<Event>, why: Revocation, rest: seq<Event>, c: Config)
    requires Inv(s, c) && !FamilyUnused(s.rows, f)
    ensures var mid := Run(s, between, c);
      var after := if f in LiveFamilies(s.rows, user) then Step(mid, BulkRevoke(OfUserFamily(user, f), why), c) else mid;
      && LiveFamilies(after.rows, user) == LiveFamilies(mid.rows, user) - {f}
      && (forall other :: other != user ==> LiveFamilies(after.rows, other) == LiveFamilies(mid.rows, other))
      && f !in LiveFamilies(Run(after, rest, c).rows, user)
  {
    var mid, filter := Run(s, between, c), OfUserFamily(user, f);
    RunKeepsInv(s, between, c);
    if f in LiveFamilies(s.rows, user) {
      KnownFamilyStaysKnown(s.rows, mid.rows, f);
      RevokingLosesFamily(mid, user, f, why, c);
      LostFamilyStaysLost(Step(mid, BulkRevoke(filter, why), c), rest, user, f, c);
    } else {
      LostFamilyStaysLost(s, between, user, f, c);
      LostFamilyStaysLost(mid, rest, user, f, c);
    }
  }

  /** A known family that is not among a user's live ones never comes back to them. */
  lemma LostFamilyStaysLost(s: State, es: seq<Event>, user: UserId, f: Family, c: Config)
    requires Inv(s, c) && !FamilyUnused(s.rows, f) && f !in LiveFamilies(s.rows, user)
    ensures f !in LiveFamilies(Run(s, es, c).rows, user) && !FamilyUnused(Run(s, es, c).rows, f)
  {
    var k :| 0 <= k < |s.rows| && s.rows[k].family == f;
    var out := Run(s, es, c).rows;
    RunKeepsInv(s, es, c);
    assert Related(s.rows[k], out[k]);
    if s.rows[k].user == user {
      forall i | 0 <= i < |s.rows| && s.rows[i].family == f ensures s.rows[i].revoked.Some? {
        FamilyHasOneUser(s.rows, i, k, c);
      }
      DeadFamilyStaysDead(s, es, c, f);
    } else {
      forall i | 0 <= i < |out| && out[i].family == f ensures out[i].user != user {
        FamilyHasOneUser(out, i, k, c);
      }
    }
  }

  // ---- the endpoints -----------------------------------------------------------

  /** Session id is live and the two tokens handed out are its own, each in its place: the
      refresh token is what a later refresh will rotate it by, until its lifetime ends, and
      the access token is what the guard lets in, until it runs out or the lifetime ends;
      in either case only while the user is active. */
  ghost predicate HandsOut(
    rows: seq<Session>, id: nat, user: UserId, access: Token, refresh: Token, family: Family, now: int, accessEnds: int, ends: int)
  {
    && id < |rows|
    && rows[id] == Session(user, access, refresh, family, now, ends, accessEnds, None, None, now)
    && (forall active, t :: RefreshRead(rows, active, refresh, t)
         == if t < ends && user in active then Continue(WillRotate(id, rows[id], t)) else Unauthorized)
    && (forall active, t :: LetsIn(rows, active, access, t) == if t < ends && t < accessEnds && user in active then Some(id) else None)
  }

  /** The guard's answer: the session it finds by the access token, if that is good. */
  function LetsIn(rows: seq<Session>, active: set<UserId>, access: Token, now: int): Option<nat> {
    var found := FindBy(rows, (s: Session) => s.access == access);
    if found.Some? && Admits(rows[found.value], active, now) then found else None
  }

  /** Tokens that only row id has lead to that row. */
  lemma NewTokensAreFound(rows: seq<Session>, id: nat, access: Token, refresh: Token)
    requires id == |rows| - 1 && rows[id].access == access && rows[id].refresh == refresh
    ensures FindBy(rows, (s: Session) => s.access == access) == Some(id)
    ensures FindBy(rows, (s: Session) => s.refresh == refresh) == Some(id)
  {
  }

  /** The token of a session that has been rotated is taken for a replay. */
  lemma SpentTokenIsReplay(rows: seq<Session>, id: nat)
    requires id < |rows| && rows[id].revoked.Some? && forall i :: 0 <= i < |rows| && i != id ==> rows[i].refresh != rows[id].refresh
    ensures forall active, now :: RefreshRead(rows, active, rows[id].refresh, now) == Continue(WillRevoke(rows[id].family, now))
  {
    var found := FindBy(rows, (s: Session) => s.refresh == rows[id].refresh);
    assert found.Some? && found.value == id;
  }

  class AuthService {
    var rows: seq<Session>
    var active: set<UserId>
    const config: Config

    constructor (config: Config)
      ensures rows == [] && active == {} && this.config == config
    {
      rows, active, this.config := [], {}, config;
    }

    /** The part of `login` after the password check; token clashes are refused by the
        unique indexes. */
    method CreateLoginSession(user: UserId, access: Token, refresh: Token, family: Family, now: int)
      returns (id: Option<nat>)
      requires FamilyUnused(rows, family)
      modifies this`rows
      ensures rows == CreateSession(old(rows), user, access, refresh, family, now, config.refreshTtl, config.accessTtl)
      ensures id == if |rows| == |old(rows)| then None else Some(|old(rows)|)
      ensures id.Some? ==> LiveFamilies(rows, user) == LiveFamilies(old(rows), user) + {family}
      ensures id.None? <==> access == refresh || !Unused(old(rows), access) || !Unused(old(rows), refresh)
      ensures id.Some? ==> old(rows) <= rows && |rows| == |old(rows)| + 1
      ensures id.Some? ==> HandsOut(rows, id.value, user, access, refresh, family, now, now + config.accessTtl, now + config.refreshTtl)
    {
      if access == refresh || !Unused(rows, access) || !Unused(rows, refresh) { return None; }
      var session := Session(user, access, refresh, family, now, now + config.refreshTtl, now + config.accessTtl, None, None, now);
      id := Some(|rows|);
      ghost var before := rows;
      rows := rows + [session];
      LiveAfterAppend(before, session, user);
      NewTokensAreFound(rows, |before|, access, refresh);
    }

    /** The read half of `refresh`: a revoked session's token condemns the family, a usable
        one is rotated, everything else is refused. */
    method BeginRefresh(token: Token, now: int) returns (outcome: ReadOutcome)
      requires TokensUnique(rows)
      ensures outcome == RefreshRead(rows, active, token, now)
      ensures forall i :: 0 <= i < |rows| && rows[i].refresh == token ==>
        && (outcome == Continue(WillRevoke(rows[i].family, now)) <==> rows[i].revoked.Some?)
        && (outcome == Continue(WillRotate(i, rows[i], now))
            <==> rows[i].revoked.None? && now < rows[i].expiresAt && rows[i].user in active)
      ensures outcome == Unauthorized
        <==> forall i :: 0 <= i < |rows| && rows[i].refresh == token ==>
          rows[i].revoked.None? && (rows[i].expiresAt <= now || rows[i].user !in active)
    {
      var existing := FindBy(rows, (s: Session) => s.refresh == token);
      if existing.None? { return Unauthorized; }
      var s := rows[existing.value];
      if s.revoked.Some? { return Continue(WillRevoke(s.family, now)); }
      if s.expiresAt <= now || s.user !in active { return Unauthorized; }
      outcome := Continue(WillRotate(existing.value, s, now));
    }

    /** The replay branch always answers 401; what it leaves behind is a dead family. */
    method RevokeReusedFamily(p: Pending)
      requires p.WillRevoke?
      modifies this`rows
      ensures rows == RevokeMany(old(rows), OfFamily(p.family), Revocation(p.at, "refresh_reuse_detected"))
      ensures !FamilyUnused(old(rows), p.family) ==> DeadFamily(rows, p.family)
    {
      ghost var before := rows;
      rows := RevokeMany(rows, OfFamily(p.family), Revocation(p.at, "refresh_reuse_detected"));
      if !FamilyUnused(before, p.family) {
        BulkRevokeKillsFamily(before, p.family, Revocation(p.at, "refresh_reuse_detected"));
      }
    }

    /** The rotation transaction: recheck, create the successor, revoke the predecessor. */
    method FinishRotation(p: Pending, access: Token, refresh: Token) returns (created: Option<nat>)
      requires p.WillRotate?
      modifies this`rows
      ensures rows == Rotate(old(rows), p, access, refresh, config.accessTtl)
      ensures created.Some? <==> |rows| == |old(rows)| + 1
      ensures created.Some? ==> created.value == |old(rows)| && old(rows)[p.id].revoked.None? && rows[p.id].revoked.Some?
      ensures created.None? <==>
        || p.id >= |old(rows)| || old(rows)[p.id].revoked.Some?
        || access == refresh || !Unused(old(rows), access) || !Unused(old(rows), refresh)
      ensures created.None? ==> rows == old(rows)
      ensures created.Some? ==>
        HandsOut(rows, created.value, p.seen.user, access, refresh, p.seen.family, p.at, p.at + config.accessTtl, p.seen.expiresAt)
      ensures created.Some? ==> forall i :: 0 <= i < |old(rows)| && i != p.id ==> rows[i] == old(rows)[i]
      ensures created.Some? ==> rows[p.id] == old(rows)[p.id].(
        revoked := Some(Revocation(p.at, "rotated")), replacedBy := created, lastUsedAt := p.at)
      ensures created.Some? && TokensUnique(old(rows)) ==>
        forall active, now :: RefreshRead(rows, active, old(rows)[p.id].refresh, now) == Continue(WillRevoke(old(rows)[p.id].family, now))
    {
      ghost var before := rows;
      if p.id >= |rows| || rows[p.id].revoked.Some? { return None; }
      if access == refresh || !Unused(rows, access) || !Unused(rows, refresh) { return None; }
      var next := Session(p.seen.user, access, refresh, p.seen.family, p.at, p.seen.expiresAt,
                          p.at + config.accessTtl, None, None, p.at);
      var nextId := |rows|;
      rows := rows + [next];
      rows := rows[p.id := rows[p.id].(revoked := Some(Revocation(p.at, "rotated")), replacedBy := Some(nextId), lastUsedAt := p.at)];
      created := Some(nextId);
      NewTokensAreFound(rows, nextId, access, refresh);
      if TokensUnique(before) { SpentTokenIsReplay(rows, p.id); }
    }

    /** The lookup `logout` starts with: by access token, and by refresh token when there is
        no access token or no session has it. */
    method FindFamily(access: Option<Token>, refresh: Option<Token>) returns (family: Option<Family>)
      requires TokensUnique(rows)
      ensures forall i :: 0 <= i < |rows| && access == Some(rows[i].access) ==> family == Some(rows[i].family)
      ensures (forall i :: 0 <= i < |rows| ==> access != Some(rows[i].access)) ==>
        forall i :: 0 <= i < |rows| && refresh == Some(rows[i].refresh) ==> family == Some(rows[i].family)
      ensures family.None? <==>
        forall i :: 0 <= i < |rows| ==> access != Some(rows[i].access) && refresh != Some(rows[i].refresh)
      ensures family.Some? ==> !FamilyUnused(rows, family.value)
    {
      var found := None;
      if access.Some? { found := FindBy(rows, (s: Session) => s.access == access.value); }
      if found.None? && refresh.Some? { found := FindBy(rows, (s: Session) => s.refresh == refresh.value); }
      family := if found.Some? then Some(rows[found.value].family) else None;
    }

    method FamilyOf(sessionId: nat) returns (family: Option<Family>)
      ensures family == if sessionId < |rows| then Some(rows[sessionId].family) else None
    {
      family := if sessionId < |rows| then Some(rows[sessionId].family) else None;
    }

    /** The listing `revokeSession` starts with.  `publicId` is the HMAC of the family id,
        taken to be injective. */
    method HasLiveFamily(user: UserId, publicId: Family) returns (found: bool)
      ensures found <==> publicId in LiveFamilies(rows, user)
    {
      found := false;
      var i := 0;
      while !found && i < |rows|
        invariant 0 <= i <= |rows|
        invariant found ==> publicId in LiveFamilies(rows, user)
        invariant !found ==> forall j :: 0 <= j < i && rows[j].user == user && rows[j].revoked.None? ==> rows[j].family != publicId
        decreases |rows| - i, !found
      {
        if rows[i].user == user && rows[i].revoked.None? && rows[i].family == publicId {
          found := true;
        } else {
          i := i + 1;
        }
      }
    }

    /** Every bulk revocation is this one statement; the count is the database's. */
    method RevokeWhere(filter: RevokeFilter, why: Revocation) returns (count: nat)
      modifies this`rows
      ensures rows == RevokeMany(old(rows), filter, why)
      ensures forall user :: LiveFamilies(rows, user) == SparedFamilies(old(rows), filter, user)
      ensures count == |set i | 0 <= i < |rows| && old(rows)[i] != rows[i]|
    {
      ghost var before := rows;
      count := |set i | 0 <= i < |rows| && rows[i].revoked.None? && Selects(filter, rows[i])|;
      rows := RevokeMany(rows, filter, why);
      LiveAfterRevoke(before, filter, why);
      assert (set i | 0 <= i < |before| && before[i] != rows[i])
        == (set i | 0 <= i < |before| && before[i].revoked.None? && Selects(filter, before[i]));
    }

    /** Any token of a family, even of a session revoked long ago, logs the family out. */
    method Logout(access: Option<Token>, refresh: Option<Token>, now: int)
      requires TokensUnique(rows)
      modifies this`rows
      ensures |rows| == |old(rows)|
      ensures forall i :: 0 <= i < |old(rows)| && access == Some(old(rows)[i].access) ==> DeadFamily(rows, old(rows)[i].family)
      ensures (forall i :: 0 <= i < |old(rows)| ==> access != Some(old(rows)[i].access)) ==>
        forall i :: 0 <= i < |old(rows)| && refresh == Some(old(rows)[i].refresh) ==> DeadFamily(rows, old(rows)[i].family)
      ensures (forall i :: 0 <= i < |old(rows)| ==> access != Some(old(rows)[i].access) && refresh != Some(old(rows)[i].refresh))
        ==> rows == old(rows)
      ensures rows == old(rows) || exists f :: rows == RevokeMany(old(rows), OfFamily(f), Revocation(now, "logout"))
    {
      ghost var before := rows;
      var family := FindFamily(access, refresh);
      if family.Some? {
        var _ := RevokeWhere(OfFamily(family.value), Revocation(now, "logout"));
        BulkRevokeKillsFamily(before, family.value, Revocation(now, "logout"));
      }
    }

    /** The session's family is looked up first; a vanished session row would drop the
        exception and revoke everything. */
    method ChangePassword(user: UserId, sessionId: nat, now: int)
      modifies this`rows
      ensures sessionId < |old(rows)| ==>
        LiveFamilies(rows, user) == LiveFamilies(old(rows), user) * {old(rows)[sessionId].family}
      ensures sessionId >= |old(rows)| ==> LiveFamilies(rows, user) == {}
      ensures forall other :: other != user ==> LiveFamilies(rows, other) == LiveFamilies(old(rows), other)
    {
      var family := FamilyOf(sessionId);
      var filter := if family.Some? then OfUserExcept(user, family.value) else OfUser(user);
      var _ := RevokeWhere(filter, Revocation(now, "password_changed"));
    }

    method RevokeSession(user: UserId, publicId: Family, sessionId: nat, now: int) returns (isCurrentRevoked: bool)
      modifies this`rows
      ensures LiveFamilies(rows, user) == LiveFamilies(old(rows), user) - {publicId}
      ensures forall other :: other != user ==> LiveFamilies(rows, other) == LiveFamilies(old(rows), other)
      ensures isCurrentRevoked <==>
        publicId in LiveFamilies(old(rows), user) && sessionId < |old(rows)| && old(rows)[sessionId].family == publicId
    {
      var found := HasLiveFamily(user, publicId);
      if !found { return false; }
      var current := FamilyOf(sessionId);
      isCurrentRevoked := current == Some(publicId);
      var _ := RevokeWhere(OfUserFamily(user, publicId), Revocation(now, "user_revoked"));
    }

    /** No count stands for the error answered when the caller's session row is gone. */
    method RevokeOtherSessions(user: UserId, sessionId: nat, now: int) returns (revokedCount: Option<nat>)
      modifies this`rows
      ensures revokedCount.None? <==> sessionId >= |old(rows)|
      ensures revokedCount.None? ==> rows == old(rows)
      ensures revokedCount.Some? ==> LiveFamilies(rows, user) == LiveFamilies(old(rows), user) * {old(rows)[sessionId].family}
      ensures forall other :: other != user ==> LiveFamilies(rows, other) == LiveFamilies(old(rows), other)
      ensures |rows| == |old(rows)|
      ensures revokedCount.Some? ==> revokedCount.value == |set i | 0 <= i < |rows| && old(rows)[i] != rows[i]|
    {
      var family := FamilyOf(sessionId);
      if family.None? { return None; }
      var count := RevokeWhere(OfUserExcept(user, family.value), Revocation(now, "user_revoked_others"));
      revokedCount := Some(count);
    }

    /** Also what a password reset and an administrator's status or role change do. */
    method LogoutAll(user: UserId, why: Revocation)
      modifies this`rows
      ensures LiveFamilies(rows, user) == {}
      ensures forall other :: other != user ==> LiveFamilies(rows, other) == LiveFamilies(old(rows), other)
    {
      ghost var before := rows;
      rows := RevokeMany(rows, OfUser(user), why);
      LiveAfterRevoke(before, OfUser(user), why);
    }

    /** The guard: who is let in, and the throttled use stamp it leaves. */
    method CanActivate(access: Token, now: int) returns (session: Option<nat>)
      modifies this`rows
      ensures session == LetsIn(old(rows), active, access, now)
      ensures session.Some? ==>
        var s := old(rows)[session.value];
        && s.access == access && s.revoked.None? && now < s.expiresAt && now < s.accessExpiresAt && s.user in active
        && rows == old(rows)[session.value := if now - s.lastUsedAt > 900000 then s.(lastUsedAt := now) else s]
      ensures session.Some? ==>
        && session.value < |old(rows)| && old(rows)[session.value].access == access
        && Admits(old(rows)[session.value], active, now) && rows == Touch(old(rows), session.value, now)
      ensures session.None? ==> rows == old(rows)
      ensures TokensUnique(old(rows)) && session.None? ==>
        forall i :: 0 <= i < |old(rows)| && old(rows)[i].access == access ==> !Admits(old(rows)[i], active, now)
    {
      var found := FindBy(rows, (s: Session) => s.access == access);
      if found.None? { return None; }
      var s := rows[found.value];
      if s.revoked.Some? || s.expiresAt <= now || s.accessExpiresAt <= now || s.user !in active { return None; }
      session := found;
      if now - s.lastUsedAt > THROTTLE_MS {
        rows := rows[found.value := s.(lastUsedAt := now)];
      }
    }
  }

  lemma LiveAfterAppend(rows: seq<Session>, s: Session, user: UserId)
    requires s.user == user && s.revoked.None?
    ensures LiveFamilies(rows + [s], user) == LiveFamilies(rows, user) + {s.family}
  {
    var out := rows + [s];
    forall f ensures f in LiveFamilies(out, user) <==> f in LiveFamilies(rows, user) + {s.family} {
      if f in LiveFamilies(rows, user) {
        var i :| 0 <= i < |rows| && rows[i].user == user && rows[i].revoked.None? && rows[i].family == f;
        assert out[i] == rows[i];
      }
      if f == s.family { assert out[|rows|] == s; }
    }
  }

  ghost function SparedFamilies(rows: seq<Session>, filter: RevokeFilter, user: UserId): set<Family> {
    set i | 0 <= i < |rows| && rows[i].user == user && rows[i].revoked.None? && !Selects(filter, rows[i]) :: rows[i].family
  }

  /** A bulk revocation removes exactly the families it selects from a user's live ones. */
  lemma LiveAfterRevoke(rows: seq<Session>, filter: RevokeFilter, why: Revocation)
    ensures forall user :: LiveFamilies(RevokeMany(rows, filter, why), user) == SparedFamilies(rows, filter, user)
  {
    var out := RevokeMany(rows, filter, why);
    forall user ensures LiveFamilies(out, user) == SparedFamilies(rows, filter, user) {
      forall i | 0 <= i < |rows|
        ensures (out[i].user == user && out[i].revoked.None?)
          <==> (rows[i].user == user && rows[i].revoked.None? && !Selects(filter, rows[i]))
        ensures out[i].family == rows[i].family
      {}
    }
  }
}
