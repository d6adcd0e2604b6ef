/** The job list endpoint over the cursor fragment, and its page walk. */
module JobListing {
  import opened Ordering
  import opened JobSearchKeyset
  import opened KeysetWalk

  lemma {:induction false} RowBeforeSplits(terms: seq<OrderTerm>, a: JobRow, b: JobRow, c: JobRow)
    requires RowBefore(terms, a, b)
    ensures RowBefore(terms, a, c) || RowBefore(terms, c, b)
    decreases |terms|
  {
    var col := terms[0].col;
    var x, y, z := Get(a, col), Get(b, col), Get(c, col);
    if x == y && y == z {
      RowBeforeSplits(terms[1..], a, b, c);
    } else if z != x && z != y {
      TermBeforeIsTotal(terms[0], a, c);
      if TermBefore(terms[0], z, x) && x != y { TermBeforeIsStrict(terms[0], z, x, y); }
    }
  }

  function Less(sort: JobSort): (JobRow, JobRow) -> bool {
    (a, b) => Before(sort, a, b)
  }

  lemma OrderByIsStrictWeak(sort: JobSort, ever: set<JobRow>)
    ensures StrictWeakOn(Less(sort), ever)
  {
    forall a: JobRow ensures !Before(sort, a, a) { RowBeforeIrreflexive(OrderBy(sort), a); }
    forall a, b, c: JobRow | Before(sort, a, b) && Before(sort, b, c) ensures Before(sort, a, c) {
      RowBeforeTransitive(OrderBy(sort), a, b, c);
    }
    forall a, b, c: JobRow | Before(sort, a, b) ensures Before(sort, a, c) || Before(sort, c, b) {
      RowBeforeSplits(OrderBy(sort), a, b, c);
    }
  }

  ghost predicate JobTable(rows: seq<JobRow>) {
    Distinct(rows) && DistinctIds(Elems(rows))
  }

  ghost predicate JobTables(tables: seq<seq<JobRow>>, limits: seq<nat>) {
    |limits| == |tables| && forall i | 0 <= i < |tables| :: JobTable(tables[i]) && limits[i] >= 1
  }

  ghost function RowsEver(tables: seq<seq<JobRow>>): set<JobRow> {
    set i, row | 0 <= i < |tables| && row in tables[i] :: row
  }

  lemma JobTablesAreTables(sort: JobSort, tables: seq<seq<JobRow>>, limits: seq<nat>, ever: set<JobRow>)
    requires JobTables(tables, limits) && forall i | 0 <= i < |tables| :: Elems(tables[i]) <= ever
    ensures Tables(tables, limits, ever, Less(sort))
  {
    OrderByIsStrictWeak(sort, ever);
    forall i | 0 <= i < |tables| ensures StrictTotalOn(Less(sort), Elems(tables[i])) {
      OrderByIsStrictTotal(sort, Elems(tables[i]));
    }
  }

  /** The columns of the ORDER BY, including the id, agree. */
  ghost predicate SameSortKey(sort: JobSort, a: JobRow, b: JobRow) {
    a.id == b.id && forall t | t in OrderBy(sort) :: Get(a, t.col) == Get(b, t.col)
  }

  lemma {:induction false} EqualColumnsDoNotOrder(terms: seq<OrderTerm>, a: JobRow, b: JobRow)
    requires forall t | t in terms :: Get(a, t.col) == Get(b, t.col)
    ensures !RowBefore(terms, a, b)
    decreases |terms|
  {
    if terms != [] { EqualColumnsDoNotOrder(terms[1..], a, b); }
  }

  lemma DifferentIdsDiffer(sort: JobSort, a: JobRow, b: JobRow)
    requires a.id != b.id
    ensures !SameKey(Less(sort), a, b)
  {
    assert OrderBy(sort)[|OrderBy(sort)| - 1].col == Id;
    RowBeforeTotal(OrderBy(sort), a, b);
  }

  /** Exactly-once delivery for the seven job sorts.  Jobs may be inserted, deleted or
      changed between pages and page sizes may vary; a job that stays with unchanged sort
      columns is on the pages of a finished walk exactly once. */
  lemma JobWalkShowsSurvivorOnce(sort: JobSort, tables: seq<seq<JobRow>>, limits: seq<nat>, k: JobRow)
    requires JobTables(tables, limits)
    requires forall i | 0 <= i < |tables| :: exists x :: x in tables[i] && SameSortKey(sort, x, k)
    requires Walk(tables, limits, None, Less(sort)).finished
    ensures var items := Walk(tables, limits, None, Less(sort)).items;
      exists i :: 0 <= i < |items| && SameSortKey(sort, items[i], k)
        && forall j :: 0 <= j < |items| && items[j].id == k.id ==> j == i
  {
    var ever := RowsEver(tables) + {k};
    forall i | 0 <= i < |tables| ensures Elems(tables[i]) <= ever {
      forall x | x in Elems(tables[i]) ensures x in ever { assert x in tables[i]; }
    }
    JobTablesAreTables(sort, tables, limits, ever);
    forall i | 0 <= i < |tables| ensures exists x :: x in tables[i] && SameKey(Less(sort), x, k) {
      var x :| x in tables[i] && SameSortKey(sort, x, k);
      SameColumnsSameKey(sort, x, k);
    }
    WalkShowsSurvivorOnce(tables, limits, ever, Less(sort), k);
    forall x | x in Walk(tables, limits, None, Less(sort)).items && x.id == k.id ensures SameSortKey(sort, x, k) {
      ShownVersion(sort, tables, limits, ever, k, x);
    }
    OnceByKeyIsOnceById(sort, Walk(tables, limits, None, Less(sort)).items, k);
  }

  lemma OnceByKeyIsOnceById(sort: JobSort, items: seq<JobRow>, k: JobRow)
    requires exists i ::
      && 0 <= i < |items| && SameKey(Less(sort), items[i], k)
      && forall j :: 0 <= j < |items| && SameKey(Less(sort), items[j], k) ==> j == i
    requires forall x :: x in items && x.id == k.id ==> SameSortKey(sort, x, k)
    ensures exists i ::
      && 0 <= i < |items| && SameSortKey(sort, items[i], k)
      && forall j :: 0 <= j < |items| && items[j].id == k.id ==> j == i
  {
    var i :| 0 <= i < |items| && SameKey(Less(sort), items[i], k)
      && forall j :: 0 <= j < |items| && SameKey(Less(sort), items[j], k) ==> j == i;
    if items[i].id != k.id { DifferentIdsDiffer(sort, items[i], k); }
    forall j | 0 <= j < |items| && items[j].id == k.id ensures j == i {
      assert items[j] in items;
      SameColumnsSameKey(sort, items[j], k);
    }
    assert items[i] in items;
  }

  lemma SameColumnsSameKey(sort: JobSort, x: JobRow, k: JobRow)
    requires SameSortKey(sort, x, k)
    ensures SameKey(Less(sort), x, k)
  {
    EqualColumnsDoNotOrder(OrderBy(sort), x, k);
    EqualColumnsDoNotOrder(OrderBy(sort), k, x);
  }

  lemma ShownVersion(sort: JobSort, tables: seq<seq<JobRow>>, limits: seq<nat>, ever: set<JobRow>, k: JobRow, x: JobRow)
    requires JobTables(tables, limits) && Tables(tables, limits, ever, Less(sort))
    requires forall i | 0 <= i < |tables| :: exists y :: y in tables[i] && SameSortKey(sort, y, k)
    requires x in Walk(tables, limits, None, Less(sort)).items && x.id == k.id
    ensures SameSortKey(sort, x, k)
  {
    WalkShowsStoredRows(tables, limits, None, ever, Less(sort), x);
    var i :| 0 <= i < |tables| && x in tables[i];
    var y :| y in tables[i] && SameSortKey(sort, y, k);
    assert x in Elems(tables[i]) && y in Elems(tables[i]);
  }

  /** On a frozen table the pages concatenate to the fully sorted result, and the walk is
      over once the page sizes add up to the number of rows. */
  lemma FrozenJobWalkIsFullSort(sort: JobSort, tables: seq<seq<JobRow>>, limits: seq<nat>, table: set<JobRow>)
    requires JobTables(tables, limits) && tables != []
    requires forall i | 0 <= i < |tables| :: Elems(tables[i]) == table
    requires Total(limits) >= |table|
    ensures Walk(tables, limits, None, Less(sort)).finished
    ensures IsSortOf(Walk(tables, limits, None, Less(sort)).items, table, Less(sort))
  {
    JobTablesAreTables(sort, tables, limits, table);
    assert Remaining(table, None, Less(sort)) == table;
    FrozenWalkIsFullSort(tables, limits, None, table, Less(sort));
  }

  // ---- the second fetch --------------------------------------------------------

  /** The job rows by id, as they are when a page's jobs are fetched. */
  type Store = map<string, JobRow>

  ghost predicate ById(store: Store) {
    forall id :: id in store ==> store[id].id == id
  }

  /** What a page shows: its ids looked up again, jobs deleted meanwhile left out. */
  function Hydrated(items: seq<JobRow>, store: Store): seq<JobRow> {
    if items == [] then []
    else (if items[0].id in store then [store[items[0].id]] else []) + Hydrated(items[1..], store)
  }

  function Ids(rows: seq<JobRow>): (ids: seq<string>)
    ensures |ids| == |rows| && forall i :: 0 <= i < |rows| ==> ids[i] == rows[i].id
  {
    seq(|rows|, i requires 0 <= i < |rows| => rows[i].id)
  }

  /** What a reader is to see: for the ids of the page that still have a row, in the page's
      order, the row as it is now. */
  ghost predicate Shows(data: seq<JobRow>, items: seq<JobRow>, store: Store) {
    var left := Filter(Ids(items), (id: string) => id in store);
    |data| == |left| && forall x :: 0 <= x < |data| ==> left[x] in store && data[x] == store[left[x]]
  }

  lemma {:induction false} HydratedShows(items: seq<JobRow>, store: Store)
    ensures Shows(Hydrated(items, store), items, store)
    decreases |items|
  {
    if items != [] {
      HydratedShows(items[1..], store);
      assert Ids(items)[1..] == Ids(items[1..]);
    }
  }

  /** With rows stored under their ids: the data's ids are the page's, in order, without
      those that are gone. */
  lemma ShownIdsKeepTheOrder(data: seq<JobRow>, items: seq<JobRow>, store: Store)
    requires ById(store) && Shows(data, items, store)
    ensures Ids(data) == Filter(Ids(items), (id: string) => id in store)
    ensures forall x :: 0 <= x < |data| ==> data[x].id in store && data[x] == store[data[x].id]
  {
  }

  lemma {:induction false} HydratingAgreeingStore(items: seq<JobRow>, store: Store)
    requires forall row :: row in items ==> row.id in store && store[row.id] == row
    ensures Hydrated(items, store) == items
    decreases |items|
  {
    if items != [] {
      HydratingAgreeingStore(items[1..], store);
      assert items == [items[0]] + items[1..];
    }
  }

  function CountId(rows: seq<JobRow>, id: string): nat {
    if rows == [] then 0 else (if rows[0].id == id then 1 else 0) + CountId(rows[1..], id)
  }

  /** The jobs shown along a walk; page i is filled from stores[i]. */
  function ShownBy(
    tables: seq<seq<JobRow>>, limits: seq<nat>, stores: seq<Store>, cursor: Option<JobRow>, less: (JobRow, JobRow) -> bool)
    : seq<JobRow>
    requires |limits| == |tables| == |stores|
  {
    if tables == [] then []
    else
      var page := FetchPage(tables[0], cursor, limits[0], less);
      Hydrated(page.items, stores[0])
      + if page.next.None? then [] else ShownBy(tables[1..], limits[1..], stores[1..], page.next, less)
  }

  lemma {:induction false} CountIdJoins(xs: seq<JobRow>, ys: seq<JobRow>, id: string)
    ensures CountId(xs + ys, id) == CountId(xs, id) + CountId(ys, id)
    decreases |xs|
  {
    if xs == [] {
      assert xs + ys == ys;
    } else {
      assert (xs + ys)[1..] == xs[1..] + ys;
      CountIdJoins(xs[1..], ys, id);
    }
  }

  lemma {:induction false} HydratingKeepsCount(items: seq<JobRow>, store: Store, id: string)
    requires ById(store)
    ensures CountId(Hydrated(items, store), id) == if id in store then CountId(items, id) else 0
    decreases |items|
  {
    if items != [] {
      HydratingKeepsCount(items[1..], store, id);
      var head := if items[0].id in store then [store[items[0].id]] else [];
      CountIdJoins(head, Hydrated(items[1..], store), id);
      assert head != [] ==> head[1..] == [];
    }
  }

  lemma {:induction false} ShownCount(
    tables: seq<seq<JobRow>>, limits: seq<nat>, stores: seq<Store>, cursor: Option<JobRow>, less: (JobRow, JobRow) -> bool, id: string)
    requires |limits| == |tables| == |stores|
    requires forall i :: 0 <= i < |stores| ==> ById(stores[i]) && id in stores[i]
    ensures CountId(ShownBy(tables, limits, stores, cursor, less), id) == CountId(Walk(tables, limits, cursor, less).items, id)
    decreases |tables|
  {
    if tables != [] {
      var page := FetchPage(tables[0], cursor, limits[0], less);
      HydratingKeepsCount(page.items, stores[0], id);
      if page.next.None? {
        assert Hydrated(page.items, stores[0]) + [] == Hydrated(page.items, stores[0]);
      } else {
        ShownCount(tables[1..], limits[1..], stores[1..], page.next, less, id);
        CountIdJoins(page.items, Walk(tables[1..], limits[1..], page.next, less).items, id);
        CountIdJoins(Hydrated(page.items, stores[0]), ShownBy(tables[1..], limits[1..], stores[1..], page.next, less), id);
      }
    }
  }

  lemma {:induction false} CountIdZero(rows: seq<JobRow>, id: string)
    requires forall j :: 0 <= j < |rows| ==> rows[j].id != id
    ensures CountId(rows, id) == 0
    decreases |rows|
  {
    if rows != [] { CountIdZero(rows[1..], id); }
  }

  lemma CountIdOne(rows: seq<JobRow>, i: nat, id: string)
    requires i < |rows| && rows[i].id == id && forall j :: 0 <= j < |rows| && rows[j].id == id ==> j == i
    ensures CountId(rows, id) == 1
  {
    assert rows == rows[..i] + ([rows[i]] + rows[i + 1..]);
    assert [rows[i]][1..] == [];
    CountIdZero(rows[..i], id);
    CountIdZero(rows[i + 1..], id);
    CountIdJoins([rows[i]], rows[i + 1..], id);
    CountIdJoins(rows[..i], [rows[i]] + rows[i + 1..], id);
  }

  /** Exactly-once delivery as the reader sees it, second fetch included: a job that stays
      with unchanged sort columns, and is there whenever a page's jobs are fetched, is shown
      exactly once by a finished walk, whatever happens to the other jobs. */
  lemma JobListShowsSurvivorOnce(sort: JobSort, tables: seq<seq<JobRow>>, limits: seq<nat>, stores: seq<Store>, k: JobRow)
    requires JobTables(tables, limits) && |stores| == |tables|
    requires forall i | 0 <= i < |tables| :: exists x :: x in tables[i] && SameSortKey(sort, x, k)
    requires forall i :: 0 <= i < |stores| ==> ById(stores[i]) && k.id in stores[i]
    requires Walk(tables, limits, None, Less(sort)).finished
    ensures CountId(ShownBy(tables, limits, stores, None, Less(sort)), k.id) == 1
  {
    JobWalkShowsSurvivorOnce(sort, tables, limits, k);
    var items := Walk(tables, limits, None, Less(sort)).items;
    var i :| 0 <= i < |items| && SameSortKey(sort, items[i], k)
      && forall j :: 0 <= j < |items| && items[j].id == k.id ==> j == i;
    CountIdOne(items, i, k.id);
    ShownCount(tables, limits, stores, None, Less(sort), k.id);
  }

  lemma {:induction false} ShownOfAgreeingStores(
    tables: seq<seq<JobRow>>, limits: seq<nat>, stores: seq<Store>, cursor: Option<JobRow>, ever: set<JobRow>, less: (JobRow, JobRow) -> bool)
    requires |stores| == |tables| && Tables(tables, limits, ever, less)
    requires forall i, row :: 0 <= i < |tables| && row in tables[i] ==> row.id in stores[i] && stores[i][row.id] == row
    ensures ShownBy(tables, limits, stores, cursor, less) == Walk(tables, limits, cursor, less).items
    decreases |tables|
  {
    if tables != [] {
      var page := FetchPage(tables[0], cursor, limits[0], less);
      PageFacts(tables[0], cursor, limits[0], less);
      HydratingAgreeingStore(page.items, stores[0]);
      TailTables(tables, limits, ever, less);
      if page.next.Some? {
        ShownOfAgreeingStores(tables[1..], limits[1..], stores[1..], page.next, ever, less);
      } else {
        assert page.items + [] == page.items;
      }
    }
  }

  /** The list as the reader sees it: on a frozen table whose jobs are found as listed, the
      pages shown concatenate to the fully sorted result. */
  lemma FrozenJobListIsFullSort(sort: JobSort, tables: seq<seq<JobRow>>, limits: seq<nat>, stores: seq<Store>, table: set<JobRow>)
    requires JobTables(tables, limits) && tables != [] && |stores| == |tables|
    requires forall i | 0 <= i < |tables| :: Elems(tables[i]) == table
    requires forall i, row :: 0 <= i < |tables| && row in tables[i] ==> row.id in stores[i] && stores[i][row.id] == row
    requires Total(limits) >= |table|
    ensures IsSortOf(ShownBy(tables, limits, stores, None, Less(sort)), table, Less(sort))
  {
    FrozenJobWalkIsFullSort(sort, tables, limits, table);
    JobTablesAreTables(sort, tables, limits, table);
    ShownOfAgreeingStores(tables, limits, stores, None, table, Less(sort));
  }

  // ---- the endpoint ------------------------------------------------------------

  datatype ListResult =
    | CursorSortMismatch
    | Listed(items: seq<JobRow>, nextCursor: Option<Cursor>, hasNextPage: bool)

  function ClampLimit(limit: Option<int>): (n: nat)
    ensures 1 <= n <= 50
    ensures limit.None? ==> n == 20
    ensures limit.Some? && 1 <= limit.value <= 50 ==> n == limit.value
  {
    var given := if limit.Some? then limit.value else 20;
    if given < 1 then 1 else if given > 50 then 50 else given
  }

  function EncodeLast(sort: JobSort, last: Option<JobRow>): Option<Cursor> {
    if last.None? then None else Some(MakeCursor(sort, last.value))
  }

  /** WHERE: the rows on which the fragment is True, not merely not False. */
  method SelectWhere(rows: seq<JobRow>, cond: Cond, params: seq<Value>) returns (kept: seq<JobRow>)
    requires InScope(cond, |params|)
    ensures kept == Filter(rows, row => InScope(cond, |params|) && Eval(cond, row, params) == True)
  {
    var holds := (row: JobRow) => InScope(cond, |params|) && Eval(cond, row, params) == True;
    kept := [];
    for i := 0 to |rows|
      invariant kept == Filter(rows[..i], holds)
    {
      FilterSnoc(rows[..i], rows[i], holds);
      assert rows[..i + 1] == rows[..i] + [rows[i]];
      if Eval(cond, rows[i], params) == True { kept := kept + [rows[i]]; }
    }
    assert rows[..|rows|] == rows;
  }

  /** The rows after the cursor, found by running the generated fragment. */
  method SelectAfter(rows: seq<JobRow>, given: seq<Value>, cursor: Cursor) returns (kept: seq<JobRow>, params: seq<Value>)
    ensures given <= params && |given| < |params|
    ensures forall last: JobRow :: cursor == MakeCursor(cursor.sort, last) ==>
      kept == Filter(rows, x => IsAfter(Less(cursor.sort), Some(last), x))
  {
    var q := new QueryParams(given);
    var cond := q.BuildCursorCondition(cursor);
    params := q.params;
    kept := SelectWhere(rows, cond, params);
    var holds := (row: JobRow) => InScope(cond, |params|) && Eval(cond, row, params) == True;
    var truth := (row: JobRow) => CursorTruth(cursor, row) == True;
    FilterCongruence(rows, holds, truth);
    forall last: JobRow | cursor == MakeCursor(cursor.sort, last)
      ensures kept == Filter(rows, x => IsAfter(Less(cursor.sort), Some(last), x))
    {
      CursorFilterIsAfter(rows, cursor, last);
    }
  }

  lemma CursorFilterIsAfter(rows: seq<JobRow>, cursor: Cursor, last: JobRow)
    requires cursor == MakeCursor(cursor.sort, last)
    ensures Filter(rows, (row: JobRow) => CursorTruth(cursor, row) == True)
      == Filter(rows, x => IsAfter(Less(cursor.sort), Some(last), x))
  {
    var after := x => IsAfter(Less(cursor.sort), Some(last), x);
    var truth := (row: JobRow) => CursorTruth(cursor, row) == True;
    forall row ensures truth(row) == after(row) { CursorMeansStrictlyAfter(cursor.sort, last, row); }
    FilterCongruence(rows, truth, after);
  }

  /** `rows` are the rows that pass the query's other filters, `given` their parameters.
      `sent` is what both queries are given: the count query, whose text names only the
      parameters in `given`, gets more of them exactly when there is a cursor. */
  method SearchJobIds(rows: seq<JobRow>, given: seq<Value>, sort: JobSort, cursor: Option<Cursor>, limit: nat)
    returns (items: seq<JobRow>, sent: seq<Value>)
    requires cursor.Some? ==> cursor.value.sort == sort
    requires 1 <= limit <= 50
    ensures forall last: Option<JobRow> :: cursor == EncodeLast(sort, last) ==>
      items == TakeUpTo(Found(rows, last, Less(sort)), limit + 1)
    ensures given <= sent && (|sent| > |given| <==> cursor.Some?)
  {
    var kept := rows;
    sent := given;
    if cursor.Some? {
      kept, sent := SelectAfter(rows, given, cursor.value);
    } else {
      FilterAll(rows, x => IsAfter(Less(sort), None, x));
    }
    items := TakeUpTo(Sort(kept, Less(sort)), limit + 1);
  }

  /** The loop that puts the fetched jobs in page order. */
  method Hydrate(items: seq<JobRow>, store: Store) returns (data: seq<JobRow>)
    ensures data == Hydrated(items, store)
    ensures Shows(data, items, store)
    ensures ById(store) ==> Ids(data) == Filter(Ids(items), (id: string) => id in store)
  {
    HydratedShows(items, store);
    if ById(store) { ShownIdsKeepTheOrder(Hydrated(items, store), items, store); }
    data := [];
    for i := 0 to |items|
      invariant data + Hydrated(items[i..], store) == Hydrated(items, store)
    {
      assert items[i..][0] == items[i] && items[i..][1..] == items[i + 1..];
      if items[i].id in store { data := data + [store[items[i].id]]; }
    }
  }

  /** The answer for a page: its jobs looked up again, and a cursor for its last row exactly
      if more rows follow. */
  ghost predicate IsAnswer(r: ListResult, rows: seq<JobRow>, store: Store, sort: JobSort, last: Option<JobRow>, size: nat) {
    var page := FetchPage(rows, last, size, Less(sort));
    && r.Listed? && Shows(r.items, page.items, store)
    && r.nextCursor == EncodeLast(sort, page.next) && (r.hasNextPage <==> page.next.Some?)
  }

  /** Looking one row further than the page tells whether another page exists. */
  lemma OneMoreTellsTheNext(rows: seq<JobRow>, last: Option<JobRow>, size: nat, less: (JobRow, JobRow) -> bool)
    requires size >= 1
    ensures var items, page := TakeUpTo(Found(rows, last, less), size + 1), FetchPage(rows, last, size, less);
      && (|items| > size <==> page.next.Some?)
      && page.items == (if |items| > size then items[..size] else items)
      && (page.next.Some? ==> page.next.value == items[size - 1])
  {
    var found := Found(rows, last, less);
    if |found| > size { PrefixOfPrefix(found, size, size + 1); }
  }

  lemma AnswerFromIds(rows: seq<JobRow>, store: Store, sort: JobSort, last: Option<JobRow>, size: nat, items: seq<JobRow>)
    requires size >= 1 && items == TakeUpTo(Found(rows, last, Less(sort)), size + 1)
    ensures IsAnswer(
      if |items| > size then Listed(Hydrated(items[..size], store), Some(MakeCursor(sort, items[size - 1])), true)
      else Listed(Hydrated(items, store), None, false),
      rows, store, sort, last, size)
  {
    OneMoreTellsTheNext(rows, last, size, Less(sort));
    HydratedShows(FetchPage(rows, last, size, Less(sort)).items, store);
  }

  /** `rows` is the table at the id query, `store` at the fetch of the page's jobs. */
  method List(rows: seq<JobRow>, store: Store, given: seq<Value>, sort: JobSort, cursor: Option<Cursor>, limit: Option<int>)
    returns (r: ListResult)
    ensures r.CursorSortMismatch? <==> cursor.Some? && cursor.value.sort != sort
    ensures forall last: Option<JobRow> :: cursor == EncodeLast(sort, last) ==>
      IsAnswer(r, rows, store, sort, last, ClampLimit(limit))
  {
    var size := ClampLimit(limit);
    if cursor.Some? && cursor.value.sort != sort {
      return CursorSortMismatch;
    }
    var items, _ := SearchJobIds(rows, given, sort, cursor, size);
    var hasNextPage := |items| > size;
    var pageItems := if hasNextPage then items[..size] else items;
    var nextCursor := None;
    if hasNextPage && |pageItems| > 0 {
      nextCursor := Some(MakeCursor(sort, pageItems[|pageItems| - 1]));
    }
    var data := [];
    if |pageItems| > 0 { data := Hydrate(pageItems, store); }
    r := Listed(data, nextCursor, hasNextPage);
    forall last: Option<JobRow> | cursor == EncodeLast(sort, last)
      ensures IsAnswer(r, rows, store, sort, last, size)
    {
      AnswerFromIds(rows, store, sort, last, size, items);
    }
  }
}

/** Notifications and tracked applications page by (timestamp, id), both descending. */
module StampedFeed {
  import opened Ordering
  import opened KeysetWalk

  datatype Stamped = Stamped(at: int, id: string)

  function Newer(): (Stamped, Stamped) -> bool {
    (a: Stamped, b: Stamped) => b.at < a.at || (b.at == a.at && TextLess(b.id, a.id))
  }

  /** `OR: [{ at: { lt: cursor.at } }, { at: cursor.at, id: { lt: cursor.id } }]`. */
  predicate Boundary(cursor: Stamped, row: Stamped) {
    row.at < cursor.at || (row.at == cursor.at && TextLess(row.id, cursor.id))
  }

  lemma NewerIsStrictWeak(ever: set<Stamped>)
    ensures StrictWeakOn(Newer(), ever)
  {
    var less := Newer();
    forall a: Stamped ensures !less(a, a) { TextLessIrreflexive(a.id); }
    forall a, b, c | less(a, b) && less(b, c) ensures less(a, c) {
      if a.at == b.at == c.at { TextLessTransitive(c.id, b.id, a.id); }
    }
    forall a, b, c | less(a, b) ensures less(a, c) || less(c, b) {
      if a.at == b.at == c.at && !less(a, c) && a.id != c.id {
        TextLessTotal(a.id, c.id);
        TextLessTransitive(b.id, a.id, c.id);
      }
    }
  }

  lemma NewerIsTotal(rows: set<Stamped>)
    ensures StrictTotalOn(Newer(), rows)
  {
    NewerIsStrictWeak(rows);
    var less := Newer();
    forall a, b | a in rows && b in rows && a != b ensures less(a, b) || less(b, a) {
      if a.at == b.at { TextLessTotal(a.id, b.id); }
    }
  }

  /** The boundary leaves out exactly the cursor's row and the rows listed before it; what it
      keeps is "strictly after the cursor" in the list's order, so the generic walk theorems
      apply to both lists. */
  lemma BoundaryMeansAfter(cursor: Stamped, row: Stamped)
    ensures Boundary(cursor, row) <==> row != cursor && !Newer()(row, cursor)
    ensures Boundary(cursor, row) <==> IsAfter(Newer(), Some(cursor), row)
  {
    NewerIsTotal({cursor, row});
    var less := Newer();
    assert !less(cursor, cursor);
    assert less(cursor, row) && less(row, cursor) ==> less(cursor, cursor);
  }

  /** A notification or application whose (timestamp, id) stays put is shown exactly once
      by a finished walk, whatever else arrives, moves or disappears meanwhile. */
  lemma FeedWalkShowsSurvivorOnce(tables: seq<seq<Stamped>>, limits: seq<nat>, k: Stamped)
    requires |limits| == |tables|
    requires forall i | 0 <= i < |tables| :: Distinct(tables[i]) && limits[i] >= 1 && k in tables[i]
    requires Walk(tables, limits, None, Newer()).finished
    ensures var items := Walk(tables, limits, None, Newer()).items;
      exists i :: 0 <= i < |items| && items[i] == k && forall j :: 0 <= j < |items| && items[j] == k ==> j == i
  {
    var less := Newer();
    var ever := (set i, row | 0 <= i < |tables| && row in tables[i] :: row) + {k};
    NewerIsStrictWeak(ever);
    forall i | 0 <= i < |tables| ensures StrictTotalOn(less, Elems(tables[i])) && Elems(tables[i]) <= ever {
      NewerIsTotal(Elems(tables[i]));
    }
    assert SameKey(less, k, k) by { TextLessIrreflexive(k.id); }
    WalkShowsSurvivorOnce(tables, limits, ever, less, k);
    var items := Walk(tables, limits, None, less).items;
    var i :| 0 <= i < |items| && SameKey(less, items[i], k)
      && forall j :: 0 <= j < |items| && SameKey(less, items[j], k) ==> j == i;
    NewerIsTotal({items[i], k});
  }

  /** Over any changes between pages, later times come first on the pages, and of equal
      times the larger id. */
  lemma FeedWalkIsNewestFirst(tables: seq<seq<Stamped>>, limits: seq<nat>)
    requires |limits| == |tables|
    requires forall i | 0 <= i < |tables| :: Distinct(tables[i]) && limits[i] >= 1
    ensures var items := Walk(tables, limits, None, Newer()).items;
      forall i, j :: 0 <= i < j < |items| ==>
        items[j].at < items[i].at || (items[j].at == items[i].at && TextLess(items[j].id, items[i].id))
  {
    var ever := set i, row | 0 <= i < |tables| && row in tables[i] :: row;
    NewerIsStrictWeak(ever);
    forall i | 0 <= i < |tables| ensures StrictTotalOn(Newer(), Elems(tables[i])) && Elems(tables[i]) <= ever {
      NewerIsTotal(Elems(tables[i]));
    }
    WalkIsIncreasing(tables, limits, None, ever, Newer());
  }
}
