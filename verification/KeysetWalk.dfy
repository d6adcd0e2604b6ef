/** Following nextCursor from page to page, over tables that may change in between.

    The walk is stated for any order; the job search, the notification list and the
    tracker list are instances of it. */
module KeysetWalk {
  import opened Ordering

  datatype Page<T> = Page(items: seq<T>, next: Option<T>)

  predicate IsAfter<T>(less: (T, T) -> bool, cursor: Option<T>, x: T) {
    cursor.None? || less(cursor.value, x)
  }

  function Found<T>(rows: seq<T>, cursor: Option<T>, less: (T, T) -> bool): seq<T> {
    Sort(Filter(rows, x => IsAfter(less, cursor, x)), less)
  }

  /** One page: rows after the cursor, sorted, one more than `limit` looked at to learn
      whether a further page exists; the next cursor is the last row shown. */
  function FetchPage<T>(rows: seq<T>, cursor: Option<T>, limit: nat, less: (T, T) -> bool): Page<T> {
    var found := Found(rows, cursor, less);
    if |found| > limit > 0 then Page(found[..limit], Some(found[limit - 1]))
    else if limit == 0 then Page([], None)
    else Page(found, None)
  }

  /** Pages 0, 1, .. against the table as it is when each is asked for.  `finished` says
      that the walk met a page without a next cursor. */
  datatype Outcome<T> = Outcome(items: seq<T>, finished: bool)

  function Walk<T>(tables: seq<seq<T>>, limits: seq<nat>, cursor: Option<T>, less: (T, T) -> bool): Outcome<T>
    requires |limits| == |tables|
  {
    if tables == [] then Outcome([], false)
    else
      var page := FetchPage(tables[0], cursor, limits[0], less);
      if page.next.None? then Outcome(page.items, true)
      else
        var rest := Walk(tables[1..], limits[1..], page.next, less);
        Outcome(page.items + rest.items, rest.finished)
  }

  predicate SameKey<T>(less: (T, T) -> bool, a: T, b: T) {
    !less(a, b) && !less(b, a)
  }

  /** A strict order on all rows ever seen; two versions of a row may share a key. */
  ghost predicate StrictWeakOn<T>(less: (T, T) -> bool, s: set<T>) {
    && (forall a | a in s :: !less(a, a))
    && (forall a, b, c | a in s && b in s && c in s && less(a, b) && less(b, c) :: less(a, c))
    && (forall a, b, c | a in s && b in s && c in s && less(a, b) :: less(a, c) || less(c, b))
  }

  /** What the walk may assume of the tables it meets: each has distinct rows, told apart
      by the order.  Nothing relates one table to the next. */
  ghost predicate Tables<T>(tables: seq<seq<T>>, limits: seq<nat>, ever: set<T>, less: (T, T) -> bool) {
    && |limits| == |tables|
    && StrictWeakOn(less, ever)
    && (forall i | 0 <= i < |tables| ::
      Distinct(tables[i]) && Elems(tables[i]) <= ever && StrictTotalOn(less, Elems(tables[i])) && limits[i] >= 1)
  }

  lemma TailTables<T>(tables: seq<seq<T>>, limits: seq<nat>, ever: set<T>, less: (T, T) -> bool)
    requires Tables(tables, limits, ever, less) && tables != []
    ensures Tables(tables[1..], limits[1..], ever, less)
  {
  }

  lemma FoundFacts<T>(rows: seq<T>, cursor: Option<T>, less: (T, T) -> bool)
    requires Distinct(rows) && StrictTotalOn(less, Elems(rows))
    ensures Increasing(Found(rows, cursor, less), less)
    ensures forall x | x in Found(rows, cursor, less) :: x in rows && IsAfter(less, cursor, x)
    ensures forall x | x in rows && IsAfter(less, cursor, x) :: x in Found(rows, cursor, less)
  {
    var after := x => IsAfter(less, cursor, x);
    var kept := Filter(rows, after);
    FilterKeeps(rows, after);
    FilterKeepsDistinct(rows, after);
    assert Elems(kept) <= Elems(rows);
    StrictTotalOnSubset(less, Elems(rows), Elems(kept));
    SortSorts(kept, less);
    forall x | x in Found(rows, cursor, less) ensures x in rows && IsAfter(less, cursor, x) {
      assert x in Elems(Sort(kept, less)) && x in Elems(kept);
      assert x in Filter(rows, after);
    }
    forall x | x in rows && IsAfter(less, cursor, x) ensures x in Found(rows, cursor, less) {
      assert after(x) && x in Elems(kept);
      assert x in Elems(Sort(kept, less));
    }
  }

  /** A page is a prefix of the sorted rows after the cursor; what it leaves out lies
      after its next cursor. */
  lemma PageFacts<T>(rows: seq<T>, cursor: Option<T>, limit: nat, less: (T, T) -> bool)
    requires Distinct(rows) && StrictTotalOn(less, Elems(rows)) && limit >= 1
    ensures var page := FetchPage(rows, cursor, limit, less);
      && Increasing(page.items, less)
      && (forall x | x in page.items :: x in rows && IsAfter(less, cursor, x))
      && (page.next.None? ==> forall x | x in rows && IsAfter(less, cursor, x) :: x in page.items)
      && (page.next.Some? ==> |page.items| == limit && page.next.value == page.items[limit - 1])
      && (page.next.Some? ==> forall x | x in rows && IsAfter(less, cursor, x) :: x in page.items || less(page.next.value, x))
      && (page.next.Some? ==> exists x :: x in rows && IsAfter(less, cursor, x) && less(page.next.value, x))
  {
    FoundFacts(rows, cursor, less);
    var found := Found(rows, cursor, less);
    if |found| > limit {
      forall x | x in found ensures x in found[..limit] || less(found[limit - 1], x) {
        var i :| 0 <= i < |found| && found[i] == x;
        if i < limit { assert found[..limit][i] == x; }
      }
      var y := found[limit];
      assert y in found && less(found[limit - 1], y);
      assert y in rows && IsAfter(less, cursor, y);
      forall x | x in found[..limit] ensures x in rows && IsAfter(less, cursor, x) {
        var i :| 0 <= i < limit && found[..limit][i] == x;
        assert found[i] == x && x in found;
      }
    }
  }

  lemma PageNextIsMember<T>(rows: seq<T>, cursor: Option<T>, limit: nat, less: (T, T) -> bool)
    requires Distinct(rows) && StrictTotalOn(less, Elems(rows)) && limit >= 1
    ensures FetchPage(rows, cursor, limit, less).next.Some? ==> FetchPage(rows, cursor, limit, less).next.value in rows
  {
    PageFacts(rows, cursor, limit, less);
  }

  /** An increasing page and increasing rows after its last item join to one. */
  lemma JoinIncreasing<T>(page: seq<T>, rest: seq<T>, cursor: Option<T>, ever: set<T>, less: (T, T) -> bool)
    requires StrictWeakOn(less, ever) && page != [] && Increasing(page, less) && Increasing(rest, less)
    requires cursor.Some? ==> cursor.value in ever
    requires forall x | x in page :: x in ever && IsAfter(less, cursor, x)
    requires forall x | x in rest :: x in ever && less(page[|page| - 1], x)
    ensures Increasing(page + rest, less) && forall x | x in page + rest :: x in ever && IsAfter(less, cursor, x)
  {
    var last := |page| - 1;
    assert page[last] in page;
    forall i, j | 0 <= i < |page| && 0 <= j < |rest| ensures less(page[i], rest[j]) {
      assert page[i] in page && rest[j] in rest;
    }
    forall x | x in page + rest ensures x in ever && IsAfter(less, cursor, x) {}
  }

  lemma PageIsKnown<T>(rows: seq<T>, cursor: Option<T>, limit: nat, ever: set<T>, less: (T, T) -> bool)
    requires Distinct(rows) && StrictTotalOn(less, Elems(rows)) && limit >= 1 && Elems(rows) <= ever
    ensures var page := FetchPage(rows, cursor, limit, less);
      && Increasing(page.items, less)
      && (forall x | x in page.items :: x in ever && IsAfter(less, cursor, x))
      && (page.next.Some? ==> page.items != [] && page.next.value == page.items[|page.items| - 1] && page.next.value in ever)
  {
    PageFacts(rows, cursor, limit, less);
    assert forall x :: x in rows ==> x in Elems(rows);
    var page := FetchPage(rows, cursor, limit, less);
    if page.next.Some? { assert page.items[limit - 1] in page.items; }
  }

  /** Whatever happens to the tables, the items come in strictly increasing key order:
      nothing is shown twice. */
  lemma {:induction false} WalkIsIncreasing<T>(
    tables: seq<seq<T>>, limits: seq<nat>, cursor: Option<T>, ever: set<T>, less: (T, T) -> bool)
    requires Tables(tables, limits, ever, less)
    requires cursor.Some? ==> cursor.value in ever
    ensures var items := Walk(tables, limits, cursor, less).items;
      Increasing(items, less) && forall x | x in items :: x in ever && IsAfter(less, cursor, x)
    decreases |tables|
  {
    if tables != [] {
      var page := FetchPage(tables[0], cursor, limits[0], less);
      PageIsKnown(tables[0], cursor, limits[0], ever, less);
      if page.next.Some? {
        TailTables(tables, limits, ever, less);
        WalkIsIncreasing(tables[1..], limits[1..], page.next, ever, less);
        JoinIncreasing(page.items, Walk(tables[1..], limits[1..], page.next, less).items, cursor, ever, less);
      }
    }
  }

  /** Every item shown was read from one of the tables. */
  lemma {:induction false} WalkShowsStoredRows<T>(
    tables: seq<seq<T>>, limits: seq<nat>, cursor: Option<T>, ever: set<T>, less: (T, T) -> bool, x: T)
    requires Tables(tables, limits, ever, less) && x in Walk(tables, limits, cursor, less).items
    ensures exists i :: 0 <= i < |tables| && x in tables[i]
    decreases |tables|
  {
    if tables != [] {
      PageFacts(tables[0], cursor, limits[0], less);
      var page := FetchPage(tables[0], cursor, limits[0], less);
      if x !in page.items {
        TailTables(tables, limits, ever, less);
        WalkShowsStoredRows(tables[1..], limits[1..], page.next, ever, less, x);
        var i :| 0 <= i < |tables[1..]| && x in tables[1..][i];
        assert x in tables[i + 1];
      }
    }
  }

  /** A row present, under the same key, in every table the walk meets is shown. */
  lemma {:induction false} WalkFindsSurvivor<T>(
    tables: seq<seq<T>>, limits: seq<nat>, cursor: Option<T>, ever: set<T>, less: (T, T) -> bool, k: T)
    requires Tables(tables, limits, ever, less) && k in ever
    requires cursor.Some? ==> cursor.value in ever && less(cursor.value, k)
    requires forall i | 0 <= i < |tables| :: exists x :: x in tables[i] && SameKey(less, x, k)
    requires Walk(tables, limits, cursor, less).finished
    ensures exists x :: x in Walk(tables, limits, cursor, less).items && SameKey(less, x, k)
    decreases |tables|
  {
    var page := FetchPage(tables[0], cursor, limits[0], less);
    PageFacts(tables[0], cursor, limits[0], less);
    var x :| x in tables[0] && SameKey(less, x, k);
    assert x in Elems(tables[0]);
    assert IsAfter(less, cursor, x);
    if x in page.items {
      assert x in Walk(tables, limits, cursor, less).items;
    } else {
      assert page.items[|page.items| - 1] in page.items;
      assert page.next.value in Elems(tables[0]);
      TailTables(tables, limits, ever, less);
      WalkFindsSurvivor(tables[1..], limits[1..], page.next, ever, less, k);
    }
  }

  /** Exactly-once delivery.  Whatever other rows come, go or change between pages, a
      finished walk shows every row that stays with an unchanged key exactly once. */
  lemma WalkShowsSurvivorOnce<T>(tables: seq<seq<T>>, limits: seq<nat>, ever: set<T>, less: (T, T) -> bool, k: T)
    requires Tables(tables, limits, ever, less) && k in ever
    requires forall i | 0 <= i < |tables| :: exists x :: x in tables[i] && SameKey(less, x, k)
    requires Walk(tables, limits, None, less).finished
    ensures var items := Walk(tables, limits, None, less).items;
      exists i :: 0 <= i < |items| && SameKey(less, items[i], k)
        && forall j :: 0 <= j < |items| && SameKey(less, items[j], k) ==> j == i
  {
    var items := Walk(tables, limits, None, less).items;
    WalkIsIncreasing(tables, limits, None, ever, less);
    WalkFindsSurvivor(tables, limits, None, ever, less, k);
    var x :| x in items && SameKey(less, x, k);
    var i :| 0 <= i < |items| && items[i] == x;
    forall j | 0 <= j < |items| && SameKey(less, items[j], k) ensures j == i {
      assert items[i] in items && items[j] in items;
    }
  }

  function Total(limits: seq<nat>): nat {
    if limits == [] then 0 else limits[0] + Total(limits[1..])
  }

  function Remaining<T>(table: set<T>, cursor: Option<T>, less: (T, T) -> bool): set<T> {
    set x | x in table && IsAfter(less, cursor, x)
  }

  /** On a frozen table (rows may still arrive in any order) the pages concatenate to the
      one sorted listing, and the walk is over as soon as the limits add up to it. */
  lemma {:induction false} FrozenWalkIsFullSort<T>(
    tables: seq<seq<T>>, limits: seq<nat>, cursor: Option<T>, table: set<T>, less: (T, T) -> bool)
    requires Tables(tables, limits, table, less) && tables != []
    requires forall i | 0 <= i < |tables| :: Elems(tables[i]) == table
    requires cursor.Some? ==> cursor.value in table
    requires Total(limits) >= |Remaining(table, cursor, less)|
    ensures Walk(tables, limits, cursor, less).finished
    ensures IsSortOf(Walk(tables, limits, cursor, less).items, Remaining(table, cursor, less), less)
    decreases |tables|
  {
    var page := FetchPage(tables[0], cursor, limits[0], less);
    PageFacts(tables[0], cursor, limits[0], less);
    assert forall x :: x in tables[0] <==> x in Elems(tables[0]);
    if page.next.None? {
      assert Elems(page.items) == Remaining(table, cursor, less);
    } else {
      PageSplitsRemaining(tables[0], cursor, limits[0], table, less);
      var later := Remaining(table, page.next, less);
      TailTables(tables, limits, table, less);
      PageNextIsMember(tables[0], cursor, limits[0], less);
      FrozenWalkIsFullSort(tables[1..], limits[1..], page.next, table, less);
      var rest := Walk(tables[1..], limits[1..], page.next, less).items;
      WalkIsIncreasing(tables, limits, cursor, table, less);
      ElemsOfConcat(page.items, rest);
    }
  }

  lemma ElemsOfConcat<T>(xs: seq<T>, ys: seq<T>)
    ensures Elems(xs + ys) == Elems(xs) + Elems(ys)
  {
    assert forall x :: x in xs + ys <==> x in xs || x in ys;
  }

  /** A page with a next cursor takes `limit` of the remaining rows and leaves at least one. */
  lemma PageSplitsRemaining<T>(rows: seq<T>, cursor: Option<T>, limit: nat, table: set<T>, less: (T, T) -> bool)
    requires Distinct(rows) && Elems(rows) == table && StrictTotalOn(less, table) && limit >= 1
    requires cursor.Some? ==> cursor.value in table
    requires FetchPage(rows, cursor, limit, less).next.Some?
    ensures var page := FetchPage(rows, cursor, limit, less);
      var later := Remaining(table, page.next, less);
      && Remaining(table, cursor, less) == Elems(page.items) + later
      && |Remaining(table, cursor, less)| == limit + |later| && |later| > 0
  {
    var page := FetchPage(rows, cursor, limit, less);
    var later := Remaining(table, page.next, less);
    PageCoversRemaining(rows, cursor, limit, table, less);
    PageFacts(rows, cursor, limit, less);
    ElemsAreTable(rows, table);
    IncreasingCount(page.items, less);
    var y :| y in rows && IsAfter(less, cursor, y) && less(page.next.value, y);
    assert {y} <= later;
    SubsetSize({y}, later);
  }

  lemma ElemsAreTable<T>(rows: seq<T>, table: set<T>)
    requires Elems(rows) == table
    ensures forall x :: x in rows <==> x in table
  {
    forall x ensures x in rows <==> x in table { assert x in rows <==> x in Elems(rows); }
  }

  /** Page and later rows make up the remaining ones, without overlap. */
  lemma PageCoversRemaining<T>(rows: seq<T>, cursor: Option<T>, limit: nat, table: set<T>, less: (T, T) -> bool)
    requires Distinct(rows) && Elems(rows) == table && StrictTotalOn(less, table) && limit >= 1
    requires cursor.Some? ==> cursor.value in table
    requires FetchPage(rows, cursor, limit, less).next.Some?
    ensures var page := FetchPage(rows, cursor, limit, less);
      var later := Remaining(table, page.next, less);
      Remaining(table, cursor, less) == Elems(page.items) + later && Elems(page.items) !! later
  {
    var page := FetchPage(rows, cursor, limit, less);
    PageFacts(rows, cursor, limit, less);
    ElemsAreTable(rows, table);
    var last, later := page.next.value, Remaining(table, page.next, less);
    assert page.items[limit - 1] in page.items;
    assert last in table;
    forall x ensures x in Remaining(table, cursor, less) <==> x in Elems(page.items) + later {}
    forall x | x in page.items ensures x !in later {
      var i :| 0 <= i < |page.items| && page.items[i] == x;
      if i < limit - 1 { assert less(page.items[i], page.items[limit - 1]); }
    }
  }

  lemma SubsetSize<T>(a: set<T>, b: set<T>)
    requires a <= b
    ensures |a| <= |b|
  {
    assert b == a + (b - a);
  }

  lemma {:induction false} IncreasingCount<T>(xs: seq<T>, less: (T, T) -> bool)
    requires Increasing(xs, less) && forall x | x in xs :: !less(x, x)
    ensures |Elems(xs)| == |xs|
    decreases |xs|
  {
    if xs != [] {
      var init, last := xs[..|xs| - 1], xs[|xs| - 1];
      assert xs == init + [last];
      IncreasingCount(init, less);
      assert last !in init;
      assert Elems(xs) == Elems(init) + {last};
    }
  }
}
