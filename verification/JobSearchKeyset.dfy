/** Job search: ORDER BY clauses and the hand-written keyset cursor predicates.

    Rows, the seven ORDER BY clauses and the cursor's WHERE fragment are modelled as
    data.  The fragment is evaluated in SQL's three-valued logic, its `$n` placeholders
    against the parameter list it shares with the rest of the query. */
module JobSearchKeyset {
  import opened Ordering

  datatype JobSort =
    Relevance | Newest | RecentlyUpdated | DeadlineSoon | SalaryHigh | SalaryLow | TitleAz

  /** A SQL value, and equally a decoded cursor component. */
  datatype Value = Null | Num(n: real) | Instant(ms: int) | Text(s: string)

  datatype Column =
    RoundedRank | PublishedAt | DiscoveredAt | UpdatedAt | DeadlineAt | AnnualHigh | AnnualLow | Title | Id

  /** One job with the two computed salary columns; `rank` is the unrounded search score. */
  datatype JobRow = JobRow(
    id: string, title: string,
    publishedAt: Option<int>, discoveredAt: int, updatedAt: int, deadlineAt: Option<int>,
    annualHigh: Option<real>, annualLow: Option<real>, rank: real)

  /** round(x, 4) on the non-negative search score. */
  function Round4(x: real): (r: real)
    ensures r - 0.00005 <= x < r + 0.00005
    ensures r * 10000.0 == (r * 10000.0).Floor as real
  {
    var r := (x * 10000.0 + 0.5).Floor as real / 10000.0;
    assert r * 10000.0 == (x * 10000.0 + 0.5).Floor as real;
    r
  }

  function OfTime(t: Option<int>): Value {
    if t.None? then Null else Instant(t.value)
  }

  function OfAmount(a: Option<real>): Value {
    if a.None? then Null else Num(a.value)
  }

  function Get(row: JobRow, col: Column): Value {
    match col
    case RoundedRank => Num(Round4(row.rank))
    case PublishedAt => OfTime(row.publishedAt)
    case DiscoveredAt => Instant(row.discoveredAt)
    case UpdatedAt => Instant(row.updatedAt)
    case DeadlineAt => OfTime(row.deadlineAt)
    case AnnualHigh => OfAmount(row.annualHigh)
    case AnnualLow => OfAmount(row.annualLow)
    case Title => Text(row.title)
    case Id => Text(row.id)
  }

  predicate ValueLess(a: Value, b: Value) {
    match (a, b)
    case (Num(x), Num(y)) => x < y
    case (Instant(x), Instant(y)) => x < y
    case (Text(x), Text(y)) => TextLess(x, y)
    case _ => false
  }

  // ---- ORDER BY ----------------------------------------------------------------

  /** `col ASC|DESC [NULLS LAST]`.  Without NULLS LAST, Postgres puts nulls last
      ascending and first descending; `nullsLast` is the resulting position. */
  datatype OrderTerm = OrderTerm(col: Column, desc: bool, nullsLast: bool)

  function Asc(col: Column): OrderTerm { OrderTerm(col, false, true) }
  function Desc(col: Column): OrderTerm { OrderTerm(col, true, false) }
  function DescNullsLast(col: Column): OrderTerm { OrderTerm(col, true, true) }

  function OrderBy(sort: JobSort): seq<OrderTerm> {
    match sort
    case Relevance => [Desc(RoundedRank), DescNullsLast(PublishedAt), Desc(DiscoveredAt), Desc(Id)]
    case RecentlyUpdated => [Desc(UpdatedAt), Desc(Id)]
    case DeadlineSoon => [Asc(DeadlineAt), DescNullsLast(PublishedAt), Desc(DiscoveredAt), Desc(Id)]
    case SalaryHigh => [DescNullsLast(AnnualHigh), DescNullsLast(PublishedAt), Desc(DiscoveredAt), Desc(Id)]
    case SalaryLow => [Asc(AnnualLow), DescNullsLast(PublishedAt), Desc(DiscoveredAt), Desc(Id)]
    case TitleAz => [Asc(Title), Asc(Id)]
    case Newest => [DescNullsLast(PublishedAt), Desc(DiscoveredAt), Desc(Id)]
  }

  predicate TermBefore(term: OrderTerm, a: Value, b: Value) {
    if a.Null? then !b.Null? && !term.nullsLast
    else if b.Null? then term.nullsLast
    else if term.desc then ValueLess(b, a)
    else ValueLess(a, b)
  }

  /** A row strictly precedes another when it does so in the first column where they differ. */
  predicate RowBefore(terms: seq<OrderTerm>, a: JobRow, b: JobRow) {
    if terms == [] then false
    else
      var x, y := Get(a, terms[0].col), Get(b, terms[0].col);
      if x != y then TermBefore(terms[0], x, y) else RowBefore(terms[1..], a, b)
  }

  predicate Before(sort: JobSort, a: JobRow, b: JobRow) {
    RowBefore(OrderBy(sort), a, b)
  }

  // ---- what the orders mean ----------------------------------------------------

  /** A date given comes before none; of two, the later one. */
  predicate LaterDate(a: Option<int>, b: Option<int>) {
    a.Some? && (b.Some? ==> b.value < a.value)
  }

  /** Later publication first, undated jobs last; then later discovery; then larger id. */
  predicate NewerJob(a: JobRow, b: JobRow) {
    if a.publishedAt != b.publishedAt then LaterDate(a.publishedAt, b.publishedAt)
    else if a.discoveredAt != b.discoveredAt then b.discoveredAt < a.discoveredAt
    else TextLess(b.id, a.id)
  }

  /** Each sort in terms of the job's own columns: what it promises by its name, and by
      which columns it decides between jobs it does not tell apart. */
  lemma SortsMeanWhatTheySay(sort: JobSort, a: JobRow, b: JobRow)
    ensures Before(sort, a, b) <==>
      match sort
      case Relevance =>
        if Round4(a.rank) != Round4(b.rank) then Round4(b.rank) < Round4(a.rank) else NewerJob(a, b)
      case Newest => NewerJob(a, b)
      case RecentlyUpdated =>
        if a.updatedAt != b.updatedAt then b.updatedAt < a.updatedAt else TextLess(b.id, a.id)
      case DeadlineSoon =>
        if a.deadlineAt != b.deadlineAt then a.deadlineAt.Some? && (b.deadlineAt.Some? ==> a.deadlineAt.value < b.deadlineAt.value)
        else NewerJob(a, b)
      case SalaryHigh =>
        if a.annualHigh != b.annualHigh then a.annualHigh.Some? && (b.annualHigh.Some? ==> b.annualHigh.value < a.annualHigh.value)
        else NewerJob(a, b)
      case SalaryLow =>
        if a.annualLow != b.annualLow then a.annualLow.Some? && (b.annualLow.Some? ==> a.annualLow.value < b.annualLow.value)
        else NewerJob(a, b)
      case TitleAz =>
        if a.title != b.title then TextLess(a.title, b.title) else TextLess(a.id, b.id)
  {
    TextLessIrreflexive(a.id);
    IdTermDecides(a, b);
    DatedTermsMean(a, b);
    var terms := OrderBy(sort);
    if sort != Newest && sort != RecentlyUpdated && sort != TitleAz {
      assert terms[1..] == [DescNullsLast(PublishedAt), Desc(DiscoveredAt), Desc(Id)];
    } else if sort == RecentlyUpdated {
      assert terms[1..] == [Desc(Id)];
    } else if sort == TitleAz {
      assert terms[1..] == [Asc(Id)];
    }
  }

  lemma IdTermDecides(a: JobRow, b: JobRow)
    ensures RowBefore([Desc(Id)], a, b) <==> TextLess(b.id, a.id)
    ensures RowBefore([Asc(Id)], a, b) <==> TextLess(a.id, b.id)
  {
    TextLessIrreflexive(a.id);
    assert [Desc(Id)][1..] == [] && [Asc(Id)][1..] == [];
  }

  lemma DatedTermsMean(a: JobRow, b: JobRow)
    ensures RowBefore([DescNullsLast(PublishedAt), Desc(DiscoveredAt), Desc(Id)], a, b) <==> NewerJob(a, b)
  {
    IdTermDecides(a, b);
    assert [DescNullsLast(PublishedAt), Desc(DiscoveredAt), Desc(Id)][1..] == [Desc(DiscoveredAt), Desc(Id)];
    assert [Desc(DiscoveredAt), Desc(Id)][1..] == [Desc(Id)];
  }

  lemma TermBeforeIsStrict(term: OrderTerm, a: Value, b: Value, c: Value)
    requires TermBefore(term, a, b)
    ensures a != b && !TermBefore(term, b, a)
    ensures TermBefore(term, b, c) ==> TermBefore(term, a, c)
  {
    if a.Text? { TextLessIrreflexive(a.s); }
    if a.Text? && b.Text? {
      if term.desc && TextLess(a.s, b.s) { TextLessTransitive(a.s, b.s, a.s); }
      if !term.desc && TextLess(b.s, a.s) { TextLessTransitive(a.s, b.s, a.s); }
      if c.Text? && TermBefore(term, b, c) {
        if term.desc { TextLessTransitive(c.s, b.s, a.s); } else { TextLessTransitive(a.s, b.s, c.s); }
      }
    }
  }

  lemma TermBeforeIsTotal(term: OrderTerm, a: JobRow, b: JobRow)
    requires Get(a, term.col) != Get(b, term.col)
    ensures TermBefore(term, Get(a, term.col), Get(b, term.col)) || TermBefore(term, Get(b, term.col), Get(a, term.col))
  {
    var x, y := Get(a, term.col), Get(b, term.col);
    if x.Text? && y.Text? { TextLessTotal(x.s, y.s); }
  }

  lemma {:induction false} RowBeforeTransitive(terms: seq<OrderTerm>, a: JobRow, b: JobRow, c: JobRow)
    requires RowBefore(terms, a, b) && RowBefore(terms, b, c)
    ensures RowBefore(terms, a, c)
    decreases |terms|
  {
    var x, y, z := Get(a, terms[0].col), Get(b, terms[0].col), Get(c, terms[0].col);
    if x != y { TermBeforeIsStrict(terms[0], x, y, z); }
    if y != z { TermBeforeIsStrict(terms[0], y, z, x); }
    if x == y && y == z { RowBeforeTransitive(terms[1..], a, b, c); }
  }

  lemma {:induction false} RowBeforeTotal(terms: seq<OrderTerm>, a: JobRow, b: JobRow)
    requires a.id != b.id && exists t :: t in terms && t.col == Id
    ensures RowBefore(terms, a, b) || RowBefore(terms, b, a)
    decreases |terms|
  {
    var x, y := Get(a, terms[0].col), Get(b, terms[0].col);
    if x != y {
      TermBeforeIsTotal(terms[0], a, b);
    } else {
      assert terms[0].col != Id;
      var t :| t in terms && t.col == Id;
      assert terms == [terms[0]] + terms[1..];
      assert t in terms[1..];
      RowBeforeTotal(terms[1..], a, b);
    }
  }

  lemma {:induction false} RowBeforeIrreflexive(terms: seq<OrderTerm>, a: JobRow)
    ensures !RowBefore(terms, a, a)
    decreases |terms|
  {
    if terms != [] { RowBeforeIrreflexive(terms[1..], a); }
  }

  ghost predicate DistinctIds(rows: set<JobRow>) {
    forall a, b :: a in rows && b in rows && a.id == b.id ==> a == b
  }

  /** Each of the seven ORDER BY clauses is a strict total order on a table with
      distinct ids: no page boundary falls between rows it cannot tell apart. */
  lemma OrderByIsStrictTotal(sort: JobSort, rows: set<JobRow>)
    requires DistinctIds(rows)
    ensures StrictTotalOn((a, b) => Before(sort, a, b), rows)
  {
    forall a | a in rows ensures !Before(sort, a, a) { RowBeforeIrreflexive(OrderBy(sort), a); }
    forall a, b, c | a in rows && b in rows && c in rows && Before(sort, a, b) && Before(sort, b, c)
      ensures Before(sort, a, c)
    {
      RowBeforeTransitive(OrderBy(sort), a, b, c);
    }
    forall a, b | a in rows && b in rows && a != b ensures Before(sort, a, b) || Before(sort, b, a) {
      assert OrderBy(sort)[|OrderBy(sort)| - 1].col == Id;
      RowBeforeTotal(OrderBy(sort), a, b);
    }
  }

  // ---- three-valued logic ------------------------------------------------------

  datatype Truth = True | False | Unknown

  function Not3(a: Truth): Truth {
    match a case True => False case False => True case Unknown => Unknown
  }

  function And3(a: Truth, b: Truth): Truth {
    if a == False || b == False then False else if a == True && b == True then True else Unknown
  }

  function Or3(a: Truth, b: Truth): Truth {
    Not3(And3(Not3(a), Not3(b)))
  }

  datatype CompareOp = Lt | Gt | Eq

  function Compare3(op: CompareOp, a: Value, b: Value): Truth {
    if a.Null? || b.Null? then Unknown
    else
      var holds := match op case Lt => ValueLess(a, b) case Gt => ValueLess(b, a) case Eq => a == b;
      if holds then True else False
  }

  function IsNull3(a: Value): Truth {
    if a.Null? then True else False
  }

  /** A WHERE fragment: comparisons of a column with the n-th parameter (counted from 1). */
  datatype Cond =
    | Cmp(op: CompareOp, col: Column, param: nat)
    | ColumnIsNull(col: Column)
    | And(l: Cond, r: Cond)
    | Or(l: Cond, r: Cond)

  predicate InScope(c: Cond, n: nat) {
    match c
    case Cmp(_, _, p) => 1 <= p <= n
    case ColumnIsNull(_) => true
    case And(l, r) => InScope(l, n) && InScope(r, n)
    case Or(l, r) => InScope(l, n) && InScope(r, n)
  }

  function Eval(c: Cond, row: JobRow, params: seq<Value>): Truth
    requires InScope(c, |params|)
  {
    match c
    case Cmp(op, col, p) => Compare3(op, Get(row, col), params[p - 1])
    case ColumnIsNull(col) => IsNull3(Get(row, col))
    case And(l, r) => And3(Eval(l, row, params), Eval(r, row, params))
    case Or(l, r) => Or3(Eval(l, row, params), Eval(r, row, params))
  }

  /** Parameters pushed later do not change what an already built fragment says. */
  lemma {:induction false} EvalIgnoresLaterParams(c: Cond, row: JobRow, params: seq<Value>, more: seq<Value>)
    requires InScope(c, |params|) && params <= more && InScope(c, |more|)
    ensures Eval(c, row, more) == Eval(c, row, params)
  {
    match c
    case And(l, r) =>
      EvalIgnoresLaterParams(l, row, params, more);
      EvalIgnoresLaterParams(r, row, params, more);
    case Or(l, r) =>
      EvalIgnoresLaterParams(l, row, params, more);
      EvalIgnoresLaterParams(r, row, params, more);
    case _ =>
  }

  lemma {:induction false} ScopeGrows(c: Cond, n: nat, m: nat)
    requires InScope(c, n) && n <= m
    ensures InScope(c, m)
  {
    match c
    case And(l, r) => ScopeGrows(l, n, m); ScopeGrows(r, n, m);
    case Or(l, r) => ScopeGrows(l, n, m); ScopeGrows(r, n, m);
    case _ =>
  }

  /** `col op $n OR (col = $n AND tail)`. */
  function HeadThenTail(op: CompareOp, col: Column, idx: nat, tail: Cond): Cond {
    Or(Cmp(op, col, idx), And(Cmp(Eq, col, idx), tail))
  }

  lemma HeadThenTailTruth(op: CompareOp, col: Column, idx: nat, tail: Cond, params: seq<Value>)
    requires 1 <= idx <= |params| && InScope(tail, |params|)
    ensures InScope(HeadThenTail(op, col, idx, tail), |params|)
    ensures forall row: JobRow ::
      Eval(HeadThenTail(op, col, idx, tail), row, params)
        == HeadTruth(op, col, params[idx - 1], Eval(tail, row, params), row)
  {
    var tied := And(Cmp(Eq, col, idx), tail);
    assert InScope(tied, |params|);
    forall row: JobRow ensures Eval(HeadThenTail(op, col, idx, tail), row, params)
      == HeadTruth(op, col, params[idx - 1], Eval(tail, row, params), row)
    {
      assert Eval(tied, row, params) == And3(Eval(Cmp(Eq, col, idx), row, params), Eval(tail, row, params));
    }
  }

  function DatedTail(pub: nat, disc: nat, id: nat): Cond {
    var same := Cmp(Eq, PublishedAt, pub);
    Or(Or(Or(
      Cmp(Lt, PublishedAt, pub),
      And(same, Cmp(Lt, DiscoveredAt, disc))),
      And(And(same, Cmp(Eq, DiscoveredAt, disc)), Cmp(Lt, Id, id))),
      ColumnIsNull(PublishedAt))
  }

  function UndatedTail(disc: nat, id: nat): Cond {
    And(ColumnIsNull(PublishedAt),
        Or(Cmp(Lt, DiscoveredAt, disc), And(Cmp(Eq, DiscoveredAt, disc), Cmp(Lt, Id, id))))
  }

  lemma EvalOr(l: Cond, r: Cond, row: JobRow, params: seq<Value>)
    requires InScope(l, |params|) && InScope(r, |params|)
    ensures InScope(Or(l, r), |params|)
    ensures Eval(Or(l, r), row, params) == Or3(Eval(l, row, params), Eval(r, row, params))
  {
  }

  lemma EvalAnd(l: Cond, r: Cond, row: JobRow, params: seq<Value>)
    requires InScope(l, |params|) && InScope(r, |params|)
    ensures InScope(And(l, r), |params|)
    ensures Eval(And(l, r), row, params) == And3(Eval(l, row, params), Eval(r, row, params))
  {
  }

  lemma DatedTailTruth(pub: nat, disc: nat, id: nat, row: JobRow, params: seq<Value>)
    requires 1 <= pub <= |params| && 1 <= disc <= |params| && 1 <= id <= |params| && params[pub - 1] != Null
    ensures InScope(DatedTail(pub, disc, id), |params|)
    ensures Eval(DatedTail(pub, disc, id), row, params)
      == SecondaryTruth(params[pub - 1], params[disc - 1], params[id - 1], row)
  {
    var ltPub, same := Cmp(Lt, PublishedAt, pub), Cmp(Eq, PublishedAt, pub);
    var ltDisc, sameDisc := Cmp(Lt, DiscoveredAt, disc), Cmp(Eq, DiscoveredAt, disc);
    var ltId := Cmp(Lt, Id, id);
    EvalAnd(same, ltDisc, row, params);
    EvalAnd(same, sameDisc, row, params);
    EvalAnd(And(same, sameDisc), ltId, row, params);
    EvalOr(ltPub, And(same, ltDisc), row, params);
    EvalOr(Or(ltPub, And(same, ltDisc)), And(And(same, sameDisc), ltId), row, params);
    EvalOr(Or(Or(ltPub, And(same, ltDisc)), And(And(same, sameDisc), ltId)), ColumnIsNull(PublishedAt), row, params);
  }

  lemma UndatedTailTruth(disc: nat, id: nat, row: JobRow, params: seq<Value>)
    requires 1 <= disc <= |params| && 1 <= id <= |params|
    ensures InScope(UndatedTail(disc, id), |params|)
    ensures Eval(UndatedTail(disc, id), row, params) == SecondaryTruth(Null, params[disc - 1], params[id - 1], row)
  {
    var ltDisc, sameDisc, ltId := Cmp(Lt, DiscoveredAt, disc), Cmp(Eq, DiscoveredAt, disc), Cmp(Lt, Id, id);
    EvalAnd(sameDisc, ltId, row, params);
    EvalOr(ltDisc, And(sameDisc, ltId), row, params);
    EvalAnd(ColumnIsNull(PublishedAt), Or(ltDisc, And(sameDisc, ltId)), row, params);
  }

  /** A row, where a statement holds for every row but a term is needed to name one. */
  const ANY_ROW := JobRow("", "", None, 0, 0, None, None, None, 0.0)

  // ---- the cursor --------------------------------------------------------------

  /** The signed payload after decoding: three sort values and the last row's id. */
  datatype Cursor = Cursor(sort: JobSort, val0: Value, val1: Value, val2: Value, id: string)

  /** sort_val_1 .. sort_val_3 of the SELECT list. */
  function SelectedValues(sort: JobSort, row: JobRow): (Value, Value, Value) {
    match sort
    case Relevance => (Get(row, RoundedRank), Get(row, PublishedAt), Get(row, DiscoveredAt))
    case RecentlyUpdated => (Get(row, UpdatedAt), Null, Null)
    case DeadlineSoon => (Get(row, DeadlineAt), Get(row, PublishedAt), Get(row, DiscoveredAt))
    case SalaryHigh => (Get(row, AnnualHigh), Get(row, PublishedAt), Get(row, DiscoveredAt))
    case SalaryLow => (Get(row, AnnualLow), Get(row, PublishedAt), Get(row, DiscoveredAt))
    case TitleAz => (Get(row, Title), Null, Null)
    case Newest => (Get(row, PublishedAt), Get(row, DiscoveredAt), Null)
  }

  /** The cursor `list` encodes from a page's last row.  Only the relevance query selects
      `rank`, the fallback for a null first value. */
  function MakeCursor(sort: JobSort, last: JobRow): Cursor {
    var (v0, v1, v2) := SelectedValues(sort, last);
    var rankOrNull := if sort == Relevance then Num(last.rank) else Null;
    Cursor(sort, if v0 == Null then rankOrNull else v0, v1, v2, last.id)
  }

  /** JavaScript truthiness of a decoded component. */
  predicate Truthy(v: Value) {
    match v
    case Null => false
    case Num(n) => n != 0.0
    case Instant(_) => true
    case Text(s) => s != ""
  }

  function OrDefault(v: Value, fallback: Value): Value {
    if Truthy(v) then v else fallback
  }

  const EPOCH := Instant(0)

  /** Truth of the shared tail `publishedAt DESC NULLS LAST, discoveredAt DESC, id DESC`. */
  function SecondaryTruth(pub: Value, disc: Value, id: Value, row: JobRow): Truth {
    var p, d, i := Get(row, PublishedAt), Get(row, DiscoveredAt), Get(row, Id);
    if pub != Null then
      Or3(Or3(Or3(
        Compare3(Lt, p, pub),
        And3(Compare3(Eq, p, pub), Compare3(Lt, d, disc))),
        And3(And3(Compare3(Eq, p, pub), Compare3(Eq, d, disc)), Compare3(Lt, i, id))),
        IsNull3(p))
    else
      And3(IsNull3(p), Or3(Compare3(Lt, d, disc), And3(Compare3(Eq, d, disc), Compare3(Lt, i, id))))
  }

  /** Truth of `col op head OR (col = head AND tail)`. */
  function HeadTruth(op: CompareOp, col: Column, head: Value, tail: Truth, row: JobRow): Truth {
    Or3(Compare3(op, Get(row, col), head), And3(Compare3(Eq, Get(row, col), head), tail))
  }

  /** Truth of a nullable leading column: the null rows come last. */
  function NullableHeadTruth(op: CompareOp, col: Column, head: Value, tail: Truth, row: JobRow): Truth {
    if head != Null then Or3(HeadTruth(op, col, head, tail, row), IsNull3(Get(row, col)))
    else And3(IsNull3(Get(row, col)), tail)
  }

  /** The shared tail as the four-key sorts decode it. */
  function TailTruth(cursor: Cursor, id: Value, row: JobRow): Truth {
    SecondaryTruth(OrDefault(cursor.val1, Null), OrDefault(cursor.val2, EPOCH), id, row)
  }

  /** What the generated WHERE fragment says about a row. */
  function CursorTruth(cursor: Cursor, row: JobRow): Truth {
    var id := Text(cursor.id);
    match cursor.sort
    case Relevance =>
      HeadTruth(Lt, RoundedRank, if cursor.val0 != Null then cursor.val0 else Num(0.0), TailTruth(cursor, id, row), row)
    case RecentlyUpdated =>
      HeadTruth(Lt, UpdatedAt, OrDefault(cursor.val0, EPOCH), Compare3(Lt, Get(row, Id), id), row)
    case DeadlineSoon =>
      NullableHeadTruth(Gt, DeadlineAt, OrDefault(cursor.val0, Null), TailTruth(cursor, id, row), row)
    case SalaryHigh =>
      NullableHeadTruth(Lt, AnnualHigh, cursor.val0, TailTruth(cursor, id, row), row)
    case SalaryLow =>
      NullableHeadTruth(Gt, AnnualLow, cursor.val0, TailTruth(cursor, id, row), row)
    case TitleAz =>
      HeadTruth(Gt, Title, OrDefault(cursor.val0, Text("")), Compare3(Gt, Get(row, Id), id), row)
    case Newest =>
      SecondaryTruth(OrDefault(cursor.val0, Null), OrDefault(cursor.val1, EPOCH), id, row)
  }

  const TAIL := [DescNullsLast(PublishedAt), Desc(DiscoveredAt), Desc(Id)]

  lemma ValueLessIsStrict(v: Value)
    ensures !ValueLess(v, v)
  {
    if v.Text? { TextLessIrreflexive(v.s); }
  }

  lemma RowBeforeUnfold(terms: seq<OrderTerm>, a: JobRow, b: JobRow)
    requires terms != []
    ensures RowBefore(terms, a, b) <==>
      var x, y := Get(a, terms[0].col), Get(b, terms[0].col);
      if x != y then TermBefore(terms[0], x, y) else RowBefore(terms[1..], a, b)
  {
  }

  lemma LastTermBefore(term: OrderTerm, a: JobRow, b: JobRow)
    requires term.col == Id
    ensures RowBefore([term], a, b) <==> if term.desc then TextLess(b.id, a.id) else TextLess(a.id, b.id)
  {
    TextLessIrreflexive(a.id);
    assert [term][1..] == [];
  }

  lemma TailBefore(last: JobRow, row: JobRow)
    ensures RowBefore(TAIL, last, row) <==>
      var p, q := Get(last, PublishedAt), Get(row, PublishedAt);
      if p != q then TermBefore(DescNullsLast(PublishedAt), p, q)
      else if last.discoveredAt != row.discoveredAt then row.discoveredAt < last.discoveredAt
      else TextLess(row.id, last.id)
  {
    assert TAIL[1..] == [Desc(DiscoveredAt), Desc(Id)];
    assert TAIL[1..][1..] == [Desc(Id)];
    RowBeforeUnfold(TAIL[1..], last, row);
    LastTermBefore(Desc(Id), last, row);
  }

  lemma SecondaryMeansAfter(last: JobRow, row: JobRow)
    ensures SecondaryTruth(Get(last, PublishedAt), Get(last, DiscoveredAt), Text(last.id), row) == True
      <==> RowBefore(TAIL, last, row)
  {
    TailBefore(last, row);
    TextLessIrreflexive(row.id);
  }

  /** One leading column, non-null on both rows, in front of a tail that is already right. */
  lemma HeadMeansAfter(term: OrderTerm, rest: seq<OrderTerm>, tail: Truth, last: JobRow, row: JobRow)
    requires Get(last, term.col) != Null && Get(row, term.col) != Null
    requires tail == True <==> RowBefore(rest, last, row)
    ensures HeadTruth(if term.desc then Lt else Gt, term.col, Get(last, term.col), tail, row) == True
      <==> RowBefore([term] + rest, last, row)
  {
    ValueLessIsStrict(Get(last, term.col));
    assert ([term] + rest)[1..] == rest;
  }

  /** The same for a column that sorts its nulls last. */
  lemma NullableHeadMeansAfter(term: OrderTerm, rest: seq<OrderTerm>, tail: Truth, last: JobRow, row: JobRow)
    requires term.nullsLast
    requires tail == True <==> RowBefore(rest, last, row)
    ensures NullableHeadTruth(if term.desc then Lt else Gt, term.col, Get(last, term.col), tail, row) == True
      <==> RowBefore([term] + rest, last, row)
  {
    ValueLessIsStrict(Get(last, term.col));
    assert ([term] + rest)[1..] == rest;
  }

  lemma IdMeansAfter(term: OrderTerm, last: JobRow, row: JobRow)
    requires term.col == Id
    ensures Compare3(if term.desc then Lt else Gt, Get(row, Id), Get(last, Id)) == True <==> RowBefore([term], last, row)
  {
    LastTermBefore(term, last, row);
  }

  /** The central law of keyset pagination: for every sort, the fragment built from the
      cursor of `last` is true of exactly the rows strictly after `last`. */
  lemma CursorMeansStrictlyAfter(sort: JobSort, last: JobRow, row: JobRow)
    ensures CursorTruth(MakeCursor(sort, last), row) == True <==> Before(sort, last, row)
  {
    var cursor, terms, id := MakeCursor(sort, last), OrderBy(sort), Text(last.id);
    SecondaryMeansAfter(last, row);
    match sort {
      case Newest =>
        assert terms == TAIL;
      case RecentlyUpdated =>
        IdMeansAfter(Desc(Id), last, row);
        HeadMeansAfter(terms[0], [Desc(Id)], Compare3(Lt, Get(row, Id), id), last, row);
        assert terms == [terms[0]] + [Desc(Id)];
      case TitleAz =>
        IdMeansAfter(Asc(Id), last, row);
        HeadMeansAfter(terms[0], [Asc(Id)], Compare3(Gt, Get(row, Id), id), last, row);
        assert terms == [terms[0]] + [Asc(Id)];
      case Relevance =>
        HeadMeansAfter(terms[0], TAIL, TailTruth(cursor, id, row), last, row);
        assert terms == [terms[0]] + TAIL;
      case _ =>
        NullableHeadMeansAfter(terms[0], TAIL, TailTruth(cursor, id, row), last, row);
        assert terms == [terms[0]] + TAIL;
    }
  }

  lemma TailDecidesEveryRow(pub: Value, disc: int, id: string, row: JobRow)
    ensures SecondaryTruth(pub, Instant(disc), Text(id), row) != Unknown
  {
  }

  /** The fragment decides every row: no null in a sort column makes it Unknown, so the
      rows it leaves out are exactly `last` and the rows before it. */
  lemma CursorDecidesEveryRow(sort: JobSort, last: JobRow, row: JobRow)
    ensures CursorTruth(MakeCursor(sort, last), row) != Unknown
  {
    var cursor := MakeCursor(sort, last);
    TailDecidesEveryRow(OfTime(last.publishedAt), last.discoveredAt, last.id, row);
    match sort
    case Newest =>
    case RecentlyUpdated =>
    case TitleAz =>
    case _ => assert TailTruth(cursor, Text(last.id), row) != Unknown;
  }

  lemma CursorLeavesOutRowsUpToLast(sort: JobSort, last: JobRow, row: JobRow)
    requires row.id != last.id
    ensures CursorTruth(MakeCursor(sort, last), row) == False <==> Before(sort, row, last)
  {
    CursorMeansStrictlyAfter(sort, last, row);
    CursorDecidesEveryRow(sort, last, row);
    var less := (a: JobRow, b: JobRow) => Before(sort, a, b);
    OrderByIsStrictTotal(sort, {last, row});
    assert less(last, row) || less(row, last);
    assert !less(last, last);
    assert !(less(last, row) && less(row, last));
  }

  /** The parameter list that `buildWhereClause` and the cursor builder push onto. */
  class QueryParams {
    var params: seq<Value>

    constructor (given: seq<Value>)
      ensures params == given
    {
      params := given;
    }

    /** `params.push(v)`, then `params.length` as the placeholder number. */
    method Push(v: Value) returns (idx: nat)
      modifies this
      ensures params == old(params) + [v]
      ensures idx == |params|
    {
      params := params + [v];
      idx := |params|;
    }

    method BuildSecondaryTimestampCursor(pub: Value, disc: Value, idIdx: nat) returns (c: Cond)
      requires 1 <= idIdx <= |params|
      modifies this
      ensures old(params) <= params && InScope(c, |params|)
      ensures forall row: JobRow :: Eval(c, row, params) == SecondaryTruth(pub, disc, old(params)[idIdx - 1], row)
    {
      var discIdx := Push(disc);
      if pub != Null {
        var pubIdx := Push(pub);
        c := DatedTail(pubIdx, discIdx, idIdx);
        DatedTailTruth(pubIdx, discIdx, idIdx, ANY_ROW, params);
        forall row: JobRow ensures Eval(c, row, params) == SecondaryTruth(pub, disc, old(params)[idIdx - 1], row) {
          DatedTailTruth(pubIdx, discIdx, idIdx, row, params);
        }
      } else {
        c := UndatedTail(discIdx, idIdx);
        UndatedTailTruth(discIdx, idIdx, ANY_ROW, params);
        forall row: JobRow ensures Eval(c, row, params) == SecondaryTruth(pub, disc, old(params)[idIdx - 1], row) {
          UndatedTailTruth(discIdx, idIdx, row, params);
        }
      }
    }

    method BuildCursorCondition(cursor: Cursor) returns (c: Cond)
      modifies this
      ensures old(params) <= params && |old(params)| < |params| && InScope(c, |params|)
      ensures forall row: JobRow :: Eval(c, row, params) == CursorTruth(cursor, row)
    {
      var idIdx := Push(Text(cursor.id));
      match cursor.sort {
        case Relevance =>
          var rankIdx := Push(if cursor.val0 != Null then cursor.val0 else Num(0.0));
          var tail := BuildSecondaryTimestampCursor(OrDefault(cursor.val1, Null), OrDefault(cursor.val2, EPOCH), idIdx);
          c := HeadThenTail(Lt, RoundedRank, rankIdx, tail);
          HeadThenTailTruth(Lt, RoundedRank, rankIdx, tail, params);
        case RecentlyUpdated =>
          var updIdx := Push(OrDefault(cursor.val0, EPOCH));
          c := HeadThenTail(Lt, UpdatedAt, updIdx, Cmp(Lt, Id, idIdx));
          HeadThenTailTruth(Lt, UpdatedAt, updIdx, Cmp(Lt, Id, idIdx), params);
        case DeadlineSoon =>
          c := BuildNullableHead(Gt, DeadlineAt, OrDefault(cursor.val0, Null), cursor, idIdx);
        case SalaryHigh =>
          c := BuildNullableHead(Lt, AnnualHigh, cursor.val0, cursor, idIdx);
        case SalaryLow =>
          c := BuildNullableHead(Gt, AnnualLow, cursor.val0, cursor, idIdx);
        case TitleAz =>
          var titleIdx := Push(OrDefault(cursor.val0, Text("")));
          c := HeadThenTail(Gt, Title, titleIdx, Cmp(Gt, Id, idIdx));
          HeadThenTailTruth(Gt, Title, titleIdx, Cmp(Gt, Id, idIdx), params);
        case Newest =>
          c := BuildSecondaryTimestampCursor(OrDefault(cursor.val0, Null), OrDefault(cursor.val1, EPOCH), idIdx);
      }
    }

    /** The deadline and salary sorts: the shared tail is built first, then the leading
        value is pushed, unless the last row had none. */
    method BuildNullableHead(op: CompareOp, col: Column, head: Value, cursor: Cursor, idIdx: nat) returns (c: Cond)
      requires 1 <= idIdx <= |params|
      modifies this
      ensures old(params) <= params && InScope(c, |params|)
      ensures forall row: JobRow ::
        Eval(c, row, params) == NullableHeadTruth(op, col, head, TailTruth(cursor, old(params)[idIdx - 1], row), row)
    {
      var tail := BuildSecondaryTimestampCursor(OrDefault(cursor.val1, Null), OrDefault(cursor.val2, EPOCH), idIdx);
      if head != Null {
        ghost var before := params;
        var headIdx := Push(head);
        ScopeGrows(tail, |before|, |params|);
        forall row: JobRow ensures Eval(tail, row, params) == Eval(tail, row, before) {
          EvalIgnoresLaterParams(tail, row, before, params);
        }
        var ranked := HeadThenTail(op, col, headIdx, tail);
        HeadThenTailTruth(op, col, headIdx, tail, params);
        c := Or(ranked, ColumnIsNull(col));
      } else {
        c := And(ColumnIsNull(col), tail);
      }
    }
  }
}
