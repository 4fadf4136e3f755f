/** Keyset pagination of evaluator/42-export-pagination: pages follow `nextCursor` until it is null. */
module Pagination {
  import opened Ordering
  import opened Wrappers

  datatype Row = Row(tenantId: string, updatedAt: int, id: string, value: int)

  datatype Key = Key(updatedAt: int, id: string)

  datatype Item = Item(id: string, value: int, updatedAt: int)

  datatype Page = Page(items: seq<Item>, nextCursor: Option<Key>)

  datatype Export = Exported(page: Page) | InvalidLimit

  function KeyOf(row: Row): Key { Key(row.updatedAt, row.id) }

  function ItemOf(row: Row): Item { Item(row.id, row.value, row.updatedAt) }

  /** Negative, zero or positive, as a comparison function for `sort` returns. */
  function CompareKeys(a: Key, b: Key): int {
    if a.updatedAt != b.updatedAt then a.updatedAt - b.updatedAt
    else if a.id == b.id then 0 else if StringLe(a.id, b.id) then -1 else 1
  }

  predicate RowLe(a: Row, b: Row) { CompareKeys(KeyOf(a), KeyOf(b)) <= 0 }

  predicate AfterCursor(key: Key, cursor: Option<Key>) {
    cursor.None? || CompareKeys(key, cursor.value) > 0
  }

  function Wanted(tenantId: string, since: int, cursor: Option<Key>): Row -> bool {
    (row: Row) => row.tenantId == tenantId && row.updatedAt >= since && AfterCursor(KeyOf(row), cursor)
  }

  function Later(cursor: Option<Key>): Row -> bool {
    (row: Row) => AfterCursor(KeyOf(row), cursor)
  }

  function Matching(rows: seq<Row>, tenantId: string, since: int, cursor: Option<Key>): seq<Row> {
    Sort(RowLe, Filter(Wanted(tenantId, since, cursor), rows))
  }

  function Items(rows: seq<Row>): (r: seq<Item>)
    ensures |r| == |rows|
    ensures forall i :: 0 <= i < |r| ==> r[i] == ItemOf(rows[i])
  {
    seq(|rows|, i requires 0 <= i < |rows| => ItemOf(rows[i]))
  }

  function Take(rows: seq<Row>, limit: nat): (r: seq<Row>)
    ensures r == if |rows| <= limit then rows else rows[..limit]
  {
    if |rows| <= limit then rows else rows[..limit]
  }

  function ExportPage(rows: seq<Row>, tenantId: string, since: int, cursor: Option<Key>, limit: int): Export {
    if limit < 1 || limit > 100 then InvalidLimit
    else
      var matching := Matching(rows, tenantId, since, cursor);
      var selected := Take(matching, limit);
      Exported(Page(Items(selected), if |matching| > limit then Some(KeyOf(selected[|selected| - 1])) else None))
  }

  // ----- order -----

  lemma CompareLaws(a: Key, b: Key, c: Key)
    ensures CompareKeys(a, a) == 0
    ensures CompareKeys(a, b) <= 0 || CompareKeys(b, a) < 0
    ensures CompareKeys(a, b) == 0 <==> a == b
    ensures CompareKeys(a, b) > 0 <==> CompareKeys(b, a) < 0
    ensures CompareKeys(a, b) <= 0 && CompareKeys(b, c) <= 0 ==> CompareKeys(a, c) <= 0
  {
    StringLeTotal(a.id, b.id);
    StringLeTotal(b.id, c.id);
    StringLeTotal(a.id, c.id);
    if StringLe(a.id, b.id) && StringLe(b.id, c.id) {
      StringLeTransitive(a.id, b.id, c.id);
    }
  }

  lemma RowOrder()
    ensures TotalPreorder(RowLe)
  {
    forall x, y ensures RowLe(x, y) || RowLe(y, x) {
      CompareLaws(KeyOf(x), KeyOf(y), KeyOf(y));
    }
    forall x, y, z | RowLe(x, y) && RowLe(y, z) ensures RowLe(x, z) {
      CompareLaws(KeyOf(x), KeyOf(y), KeyOf(z));
    }
  }

  /** What the caller wants: this tenant's rows since a time, in order. */
  function Everything(rows: seq<Row>, tenantId: string, since: int): seq<Row> {
    Matching(rows, tenantId, since, None)
  }

  lemma EverythingSorted(rows: seq<Row>, tenantId: string, since: int)
    ensures SortedBy(RowLe, Everything(rows, tenantId, since))
  {
    RowOrder();
    SortSorted(RowLe, Filter(Wanted(tenantId, since, None), rows));
  }

  lemma {:induction false} FilterTwice(tenantId: string, since: int, cursor: Option<Key>, rows: seq<Row>)
    ensures Filter(Wanted(tenantId, since, cursor), rows) ==
      Filter(Later(cursor), Filter(Wanted(tenantId, since, None), rows))
  {
    if rows != [] {
      var init, last := rows[..|rows| - 1], rows[|rows| - 1];
      FilterTwice(tenantId, since, cursor, init);
      if Wanted(tenantId, since, None)(last) {
        FilterSnoc(Later(cursor), Filter(Wanted(tenantId, since, None), init), last);
      } else {
        assert Filter(Wanted(tenantId, since, None), rows) == Filter(Wanted(tenantId, since, None), init);
      }
    }
  }

  /** A page's cursor resumes at the first row whose key is larger than the last one delivered. */
  lemma MatchingAfter(rows: seq<Row>, tenantId: string, since: int, cursor: Option<Key>, p: nat)
    requires p <= |Everything(rows, tenantId, since)|
    requires forall i :: 0 <= i < |Everything(rows, tenantId, since)| ==>
      (AfterCursor(KeyOf(Everything(rows, tenantId, since)[i]), cursor) <==> p <= i)
    ensures Matching(rows, tenantId, since, cursor) == Everything(rows, tenantId, since)[p..]
  {
    RowOrder();
    FilterTwice(tenantId, since, cursor, rows);
    FilterSort(RowLe, Later(cursor), Filter(Wanted(tenantId, since, None), rows));
    FilterSuffix(Later(cursor), Everything(rows, tenantId, since), p);
  }

  // ----- following the cursors -----

  /** Where the rows with a key larger than that of row `i` begin. */
  function Resume(s: seq<Row>, i: nat): (p: nat)
    requires i < |s|
    ensures i < p <= |s|
    decreases |s| - i
  {
    if i + 1 < |s| && KeyOf(s[i + 1]) == KeyOf(s[i]) then Resume(s, i + 1) else i + 1
  }

  lemma {:induction false} ResumeSplits(s: seq<Row>, i: nat)
    requires SortedBy(RowLe, s) && i < |s|
    ensures forall k :: 0 <= k < |s| ==> (AfterCursor(KeyOf(s[k]), Some(KeyOf(s[i]))) <==> Resume(s, i) <= k)
    decreases |s| - i
  {
    if i + 1 < |s| && KeyOf(s[i + 1]) == KeyOf(s[i]) {
      ResumeSplits(s, i + 1);
    } else {
      forall k | 0 <= k < |s|
        ensures AfterCursor(KeyOf(s[k]), Some(KeyOf(s[i]))) <==> i + 1 <= k
      {
        CompareLaws(KeyOf(s[k]), KeyOf(s[i]), KeyOf(s[i]));
        if k > i {
          assert RowLe(s[i], s[i + 1]);
          CompareLaws(KeyOf(s[i]), KeyOf(s[i + 1]), KeyOf(s[k]));
          CompareLaws(KeyOf(s[k]), KeyOf(s[i]), KeyOf(s[i + 1]));
          CompareLaws(KeyOf(s[i + 1]), KeyOf(s[k]), KeyOf(s[i]));
          assert i + 1 < k ==> RowLe(s[i + 1], s[k]);
        } else if k < i {
          assert RowLe(s[k], s[i]);
        }
      }
    }
  }

  /** The pages a client receives, starting at position `p` of the wanted rows. */
  function PagesFrom(s: seq<Row>, limit: nat, p: nat): (r: seq<Page>)
    requires 1 <= limit && p <= |s|
    ensures r != []
    decreases |s| - p
  {
    if |s| - p <= limit then [Page(Items(s[p..]), None)]
    else [FullPage(s, limit, p)] + PagesFrom(s, limit, Resume(s, p + limit - 1))
  }

  function FullPage(s: seq<Row>, limit: nat, p: nat): Page
    requires 1 <= limit && p + limit <= |s|
  {
    Page(Items(s[p..p + limit]), Some(KeyOf(s[p + limit - 1])))
  }

  /** `pages` is what following `nextCursor` from `cursor` until it is null yields. */
  ghost predicate IsTraversal(rows: seq<Row>, tenantId: string, since: int, limit: int, cursor: Option<Key>,
    pages: seq<Page>)
    decreases |pages|
  {
    && pages != []
    && ExportPage(rows, tenantId, since, cursor, limit) == Exported(pages[0])
    && (if pages[0].nextCursor.None? then |pages| == 1
        else IsTraversal(rows, tenantId, since, limit, pages[0].nextCursor, pages[1..]))
  }

  lemma {:induction false} TraversalFrom(rows: seq<Row>, tenantId: string, since: int, limit: nat, cursor: Option<Key>,
    p: nat)
    requires 1 <= limit <= 100 && p <= |Everything(rows, tenantId, since)|
    requires Matching(rows, tenantId, since, cursor) == Everything(rows, tenantId, since)[p..]
    ensures IsTraversal(rows, tenantId, since, limit, cursor, PagesFrom(Everything(rows, tenantId, since), limit, p))
    decreases |Everything(rows, tenantId, since)| - p
  {
    var s := Everything(rows, tenantId, since);
    hide Matching, ExportPage, Everything, IsTraversal, Resume;
    if |s| - p > limit {
      ExportFull(rows, tenantId, since, limit, cursor, p);
      var next, key := Resume(s, p + limit - 1), KeyOf(s[p + limit - 1]);
      ResumeMatches(rows, tenantId, since, p + limit - 1);
      TraversalFrom(rows, tenantId, since, limit, Some(key), next);
      TraversalCons(rows, tenantId, since, limit, cursor, FullPage(s, limit, p), PagesFrom(s, limit, next));
    } else {
      TraversalLast(rows, tenantId, since, limit, cursor, p);
    }
  }

  lemma TraversalLast(rows: seq<Row>, tenantId: string, since: int, limit: nat, cursor: Option<Key>, p: nat)
    requires 1 <= limit <= 100 && p <= |Everything(rows, tenantId, since)| <= p + limit
    requires Matching(rows, tenantId, since, cursor) == Everything(rows, tenantId, since)[p..]
    ensures IsTraversal(rows, tenantId, since, limit, cursor, PagesFrom(Everything(rows, tenantId, since), limit, p))
  {
    ExportLast(rows, tenantId, since, limit, cursor, p);
    hide Everything, Matching, ExportPage;
  }

  lemma ExportLast(rows: seq<Row>, tenantId: string, since: int, limit: nat, cursor: Option<Key>, p: nat)
    requires 1 <= limit <= 100 && p <= |Everything(rows, tenantId, since)| <= p + limit
    requires Matching(rows, tenantId, since, cursor) == Everything(rows, tenantId, since)[p..]
    ensures ExportPage(rows, tenantId, since, cursor, limit)
      == Exported(Page(Items(Everything(rows, tenantId, since)[p..]), None))
  {
    hide Everything, Matching;
  }

  lemma ExportFull(rows: seq<Row>, tenantId: string, since: int, limit: nat, cursor: Option<Key>, p: nat)
    requires 1 <= limit <= 100 && p + limit < |Everything(rows, tenantId, since)|
    requires Matching(rows, tenantId, since, cursor) == Everything(rows, tenantId, since)[p..]
    ensures ExportPage(rows, tenantId, since, cursor, limit)
      == Exported(FullPage(Everything(rows, tenantId, since), limit, p))
  {
    hide Everything, Matching;
    var s := Everything(rows, tenantId, since);
    assert s[p..][..limit] == s[p..p + limit];
  }

  lemma TraversalCons(rows: seq<Row>, tenantId: string, since: int, limit: int, cursor: Option<Key>, page: Page,
    rest: seq<Page>)
    requires ExportPage(rows, tenantId, since, cursor, limit) == Exported(page) && page.nextCursor.Some?
    requires IsTraversal(rows, tenantId, since, limit, page.nextCursor, rest)
    ensures IsTraversal(rows, tenantId, since, limit, cursor, [page] + rest)
  {
    assert ([page] + rest)[1..] == rest;
  }

  lemma ResumeMatches(rows: seq<Row>, tenantId: string, since: int, i: nat)
    requires i < |Everything(rows, tenantId, since)|
    ensures var s := Everything(rows, tenantId, since);
      Matching(rows, tenantId, since, Some(KeyOf(s[i]))) == s[Resume(s, i)..]
  {
    var s := Everything(rows, tenantId, since);
    EverythingSorted(rows, tenantId, since);
    ResumeSplits(s, i);
    MatchingAfter(rows, tenantId, since, Some(KeyOf(s[i])), Resume(s, i));
  }

  lemma {:induction false} TraversalUnique(rows: seq<Row>, tenantId: string, since: int, limit: int,
    cursor: Option<Key>, a: seq<Page>, b: seq<Page>)
    requires IsTraversal(rows, tenantId, since, limit, cursor, a)
      && IsTraversal(rows, tenantId, since, limit, cursor, b)
    ensures a == b
    decreases |a|
  {
    if a[0].nextCursor.Some? {
      TraversalUnique(rows, tenantId, since, limit, a[0].nextCursor, a[1..], b[1..]);
      assert a == [a[0]] + a[1..] && b == [b[0]] + b[1..];
    }
  }

  function AllItems(pages: seq<Page>): seq<Item> {
    if pages == [] then [] else pages[0].items + AllItems(pages[1..])
  }

  /** No full page, counted from position `p`, ends between two rows with the same key. */
  predicate NoTieSplit(s: seq<Row>, limit: nat, p: nat)
    requires 1 <= limit && p <= |s|
    decreases |s| - p
  {
    |s| - p <= limit || (KeyOf(s[p + limit - 1]) != KeyOf(s[p + limit]) && NoTieSplit(s, limit, p + limit))
  }

  /** The exact condition: nothing is lost iff no page boundary splits a tie. */
  lemma {:induction false} DeliveredFrom(s: seq<Row>, limit: nat, p: nat)
    requires 1 <= limit && p <= |s|
    ensures |AllItems(PagesFrom(s, limit, p))| <= |s| - p
    ensures NoTieSplit(s, limit, p) ==> AllItems(PagesFrom(s, limit, p)) == Items(s[p..])
    ensures !NoTieSplit(s, limit, p) ==> |AllItems(PagesFrom(s, limit, p))| < |s| - p
    decreases |s| - p
  {
    if |s| - p <= limit {
      LastPage(s, limit, p);
    } else {
      var next := Resume(s, p + limit - 1);
      DeliveredFrom(s, limit, next);
      AllItemsCons(FullPage(s, limit, p), PagesFrom(s, limit, next));
      if NoTieSplit(s, limit, p) {
        assert next == p + limit;
        ItemsSplit(s, p, p + limit);
      }
    }
  }

  lemma LastPage(s: seq<Row>, limit: nat, p: nat)
    requires 1 <= limit && p <= |s| <= p + limit
    ensures AllItems(PagesFrom(s, limit, p)) == Items(s[p..])
  {
    var last := Page(Items(s[p..]), None);
    AllItemsCons(last, []);
    assert [last] + [] == PagesFrom(s, limit, p);
    assert last.items + [] == last.items;
  }

  lemma AllItemsCons(page: Page, rest: seq<Page>)
    ensures AllItems([page] + rest) == page.items + AllItems(rest)
  {
    assert ([page] + rest)[1..] == rest;
  }

  lemma ItemsSplit(s: seq<Row>, p: nat, q: nat)
    requires p <= q <= |s|
    ensures Items(s[p..]) == Items(s[p..q]) + Items(s[q..])
  {
  }

  lemma PagesStep(s: seq<Row>, limit: nat, p: nat)
    requires 1 <= limit && p + limit < |s| && NoTieSplit(s, limit, p)
    ensures NoTieSplit(s, limit, p + limit) && |FullPage(s, limit, p).items| == limit
    ensures PagesFrom(s, limit, p) == [FullPage(s, limit, p)] + PagesFrom(s, limit, p + limit)
  {
  }

  /** Every page but the last is full. */
  predicate FullButLast(pages: seq<Page>, limit: nat) {
    forall k :: 0 <= k < |pages| - 1 ==> |pages[k].items| == limit
  }

  lemma FullCons(page: Page, rest: seq<Page>, limit: nat)
    requires |page.items| == limit && FullButLast(rest, limit)
    ensures FullButLast([page] + rest, limit)
  {
  }

  /** Is this the number of pages, all but the last full, that hold `left` rows? At least one. */
  predicate Fits(pages: nat, limit: nat, left: nat) {
    (pages == 1 || (pages - 1) * limit < left) && left <= pages * limit
  }

  lemma OneFits(limit: nat, left: nat)
    requires left <= limit
    ensures Fits(1, limit, left)
  {
  }

  lemma OneMoreFits(pages: nat, limit: nat, left: nat)
    requires pages > 0 && limit < left && Fits(pages, limit, left - limit)
    ensures Fits(pages + 1, limit, left)
  {
    assert pages * limit == (pages - 1) * limit + limit;
    assert (pages + 1) * limit == pages * limit + limit;
  }

  lemma OnePage(s: seq<Row>, limit: nat, p: nat)
    requires 1 <= limit && p <= |s| <= p + limit
    ensures |PagesFrom(s, limit, p)| == 1 && FullButLast(PagesFrom(s, limit, p), limit)
  {
  }

  /** Every page but the last is full, so there are max(1, ceil(n / limit)) of them. */
  lemma {:induction false} PageShape(s: seq<Row>, limit: nat, p: nat)
    requires 1 <= limit && p <= |s| && NoTieSplit(s, limit, p)
    ensures FullButLast(PagesFrom(s, limit, p), limit) && Fits(|PagesFrom(s, limit, p)|, limit, |s| - p)
    decreases |s| - p
  {
    hide *;
    if |s| - p <= limit {
      OnePage(s, limit, p);
      OneFits(limit, |s| - p);
    } else {
      PagesStep(s, limit, p);
      PageShape(s, limit, p + limit);
      FullCons(FullPage(s, limit, p), PagesFrom(s, limit, p + limit), limit);
      OneMoreFits(|PagesFrom(s, limit, p + limit)|, limit, |s| - p);
    }
  }

  ghost predicate DistinctKeys(s: seq<Row>) {
    forall i, j :: 0 <= i < j < |s| ==> KeyOf(s[i]) != KeyOf(s[j])
  }

  lemma TraversalIs(rows: seq<Row>, tenantId: string, since: int, limit: nat, pages: seq<Page>)
    requires 1 <= limit <= 100 && IsTraversal(rows, tenantId, since, limit, None, pages)
    ensures pages == PagesFrom(Everything(rows, tenantId, since), limit, 0)
  {
    var s := Everything(rows, tenantId, since);
    assert s[0..] == s;
    TraversalFrom(rows, tenantId, since, limit, None, 0);
    TraversalUnique(rows, tenantId, since, limit, None, pages, PagesFrom(s, limit, 0));
  }

  /** Following the cursors yields every wanted row once and in order exactly when no boundary splits a
      tie; then every page but the last is full, and there are max(1, ceil(n / limit)) pages. */
  lemma TraversalTheorem(rows: seq<Row>, tenantId: string, since: int, limit: nat, pages: seq<Page>)
    requires 1 <= limit <= 100 && IsTraversal(rows, tenantId, since, limit, None, pages)
    ensures AllItems(pages) == Items(Everything(rows, tenantId, since))
      <==> NoTieSplit(Everything(rows, tenantId, since), limit, 0)
    ensures NoTieSplit(Everything(rows, tenantId, since), limit, 0) ==>
      FullButLast(pages, limit) && Fits(|pages|, limit, |Everything(rows, tenantId, since)|)
  {
    hide *;
    var s := Everything(rows, tenantId, since);
    TraversalIs(rows, tenantId, since, limit, pages);
    assert s[0..] == s;
    DeliveredFrom(s, limit, 0);
    if NoTieSplit(s, limit, 0) {
      PageShape(s, limit, 0);
    }
  }

  /** Distinct keys within the tenant are enough, for every limit. */
  lemma DistinctKeysSuffice(rows: seq<Row>, tenantId: string, since: int, limit: nat, pages: seq<Page>)
    requires 1 <= limit <= 100 && IsTraversal(rows, tenantId, since, limit, None, pages)
    requires DistinctKeys(Everything(rows, tenantId, since))
    ensures AllItems(pages) == Items(Everything(rows, tenantId, since))
  {
    DistinctNoTie(Everything(rows, tenantId, since), limit, 0);
    TraversalTheorem(rows, tenantId, since, limit, pages);
  }

  lemma {:induction false} DistinctNoTie(s: seq<Row>, limit: nat, p: nat)
    requires DistinctKeys(s) && 1 <= limit && p <= |s|
    ensures NoTieSplit(s, limit, p)
    decreases |s| - p
  {
    if |s| - p > limit {
      DistinctNoTie(s, limit, p + limit);
    }
  }

  /** With pages of one row, distinct keys are also necessary: any duplicate loses a row. */
  lemma TiesLoseRows(rows: seq<Row>, tenantId: string, since: int, pages: seq<Page>)
    requires IsTraversal(rows, tenantId, since, 1, None, pages)
    ensures AllItems(pages) == Items(Everything(rows, tenantId, since))
      <==> DistinctKeys(Everything(rows, tenantId, since))
  {
    var s := Everything(rows, tenantId, since);
    TraversalTheorem(rows, tenantId, since, 1, pages);
    if DistinctKeys(s) {
      DistinctNoTie(s, 1, 0);
    }
    EverythingSorted(rows, tenantId, since);
    if NoTieSplit(s, 1, 0) {
      forall i, j | 0 <= i < j < |s| ensures KeyOf(s[i]) != KeyOf(s[j]) {
        NeighboursDiffer(s, 0, i);
        assert RowLe(s[i], s[i + 1]);
        CompareLaws(KeyOf(s[i]), KeyOf(s[i + 1]), KeyOf(s[j]));
        CompareLaws(KeyOf(s[i + 1]), KeyOf(s[j]), KeyOf(s[i]));
        assert i + 1 < j ==> RowLe(s[i + 1], s[j]);
      }
    }
  }

  lemma {:induction false} NeighboursDiffer(s: seq<Row>, p: nat, i: nat)
    requires p <= i && i + 1 < |s| && NoTieSplit(s, 1, p)
    ensures KeyOf(s[i]) != KeyOf(s[i + 1])
    decreases i - p
  {
    if p < i {
      NeighboursDiffer(s, p + 1, i);
    }
  }

  // ----- what is delivered, on the rows themselves -----

  /** The tenant's rows since a time as items, in the order of the rows. */
  function TenantItems(rows: seq<Row>, tenantId: string, since: int): seq<Item> {
    if rows == [] then []
    else
      var row := rows[|rows| - 1];
      TenantItems(rows[..|rows| - 1], tenantId, since)
      + (if row.tenantId == tenantId && row.updatedAt >= since then [Item(row.id, row.value, row.updatedAt)] else [])
  }

  /** Earlier, or at the same time with an id that does not come later. */
  ghost predicate Ascends(a: Item, b: Item) {
    a.updatedAt < b.updatedAt || (a.updatedAt == b.updatedAt && Precedes(a.id, b.id))
  }

  lemma {:induction false} TenantItemsMembers(rows: seq<Row>, tenantId: string, since: int, item: Item)
    ensures item in TenantItems(rows, tenantId, since) <==> IsTenants(rows, tenantId, since, item)
  {
    if rows != [] {
      TenantItemsMembers(rows[..|rows| - 1], tenantId, since, item);
      assert rows == rows[..|rows| - 1] + [rows[|rows| - 1]];
    }
  }

  lemma {:induction false} TenantItemsFiltered(rows: seq<Row>, tenantId: string, since: int)
    ensures TenantItems(rows, tenantId, since) == Items(Filter(Wanted(tenantId, since, None), rows))
  {
    if rows != [] {
      TenantItemsFiltered(rows[..|rows| - 1], tenantId, since);
    }
  }

  lemma {:induction false} ItemsMapped(s: seq<Row>)
    ensures Items(s) == Map(ItemOf, s)
  {
    if s != [] {
      ItemsMapped(s[..|s| - 1]);
    }
  }

  lemma ItemsPermuted(s: seq<Row>, t: seq<Row>)
    requires multiset(s) == multiset(t)
    ensures multiset(Items(s)) == multiset(Items(t))
  {
    ItemsMapped(s);
    ItemsMapped(t);
    MapPermuted(ItemOf, s, t);
  }

  lemma EverythingIsTenants(rows: seq<Row>, tenantId: string, since: int)
    ensures multiset(Items(Everything(rows, tenantId, since))) == multiset(TenantItems(rows, tenantId, since))
    ensures |Everything(rows, tenantId, since)| == |TenantItems(rows, tenantId, since)|
  {
    var kept := Filter(Wanted(tenantId, since, None), rows);
    SortPermutes(RowLe, kept);
    ItemsPermuted(Everything(rows, tenantId, since), kept);
    TenantItemsFiltered(rows, tenantId, since);
  }

  lemma RowsAscend(a: Row, b: Row)
    requires RowLe(a, b)
    ensures Ascends(ItemOf(a), ItemOf(b))
  {
    StringLeMeans(a.id, b.id);
    StringLeTotal(a.id, b.id);
  }

  ghost predicate Ascending(items: seq<Item>) {
    forall i, j :: 0 <= i < j < |items| ==> Ascends(items[i], items[j])
  }

  /** The item is one of the rows from position `p` on. */
  ghost predicate ComesFrom(s: seq<Row>, p: nat, item: Item) { exists k :: p <= k < |s| && item == ItemOf(s[k]) }

  lemma AscendingConcat(s: seq<Row>, p: nat, q: nat, next: nat, rest: seq<Item>)
    requires p <= q <= next <= |s| && SortedBy(RowLe, s) && Ascending(rest)
    requires forall item :: item in rest ==> ComesFrom(s, next, item)
    ensures Ascending(Items(s[p..q]) + rest)
    ensures forall item :: item in Items(s[p..q]) + rest ==> ComesFrom(s, p, item)
  {
    hide RowLe, Ascends, ItemOf;
    var first := Items(s[p..q]);
    assert forall i :: 0 <= i < |first| ==> first[i] == ItemOf(s[p + i]);
    forall i, j | 0 <= i < j < |first| ensures Ascends(first[i], first[j]) {
      RowsAscend(s[p + i], s[p + j]);
    }
    forall i, j | 0 <= i < |first| && 0 <= j < |rest| ensures Ascends(first[i], rest[j]) {
      assert ComesFrom(s, next, rest[j]);
      var k :| next <= k < |s| && rest[j] == ItemOf(s[k]);
      RowsAscend(s[p + i], s[k]);
    }
  }

  /** The items delivered from position `p` on are rows at or after it, in order. */
  lemma {:induction false} DeliveredAscend(s: seq<Row>, limit: nat, p: nat)
    requires 1 <= limit && p <= |s| && SortedBy(RowLe, s)
    ensures Ascending(AllItems(PagesFrom(s, limit, p)))
    ensures forall item :: item in AllItems(PagesFrom(s, limit, p)) ==> ComesFrom(s, p, item)
    decreases |s| - p
  {
    if |s| - p <= limit {
      LastPage(s, limit, p);
      hide *;
      NothingAscends(s, |s|);
      AscendingConcat(s, p, |s|, |s|, []);
      assert Items(s[p..]) + [] == Items(s[p..]) && s[p..|s|] == s[p..];
    } else {
      var next := Resume(s, p + limit - 1);
      DeliveredAscend(s, limit, next);
      AllItemsCons(FullPage(s, limit, p), PagesFrom(s, limit, next));
      hide Ascending, ComesFrom, AllItems, SortedBy, RowLe;
      AscendingConcat(s, p, p + limit, next, AllItems(PagesFrom(s, limit, next)));
    }
  }

  lemma NothingAscends(s: seq<Row>, p: nat)
    ensures Ascending([]) && forall item :: item in [] ==> ComesFrom(s, p, item)
  {
  }

  /** The item is a row of this tenant, not older than `since`. */
  ghost predicate IsTenants(rows: seq<Row>, tenantId: string, since: int, item: Item) {
    exists row :: && row in rows && row.tenantId == tenantId && row.updatedAt >= since
                  && item == Item(row.id, row.value, row.updatedAt)
  }

  /** Whatever the pages: every item is a row of this tenant, not older than `since`, and items come in
      ascending order of time and then id. All of the tenant's rows since then are delivered, each as often
      as it occurs, exactly when no page boundary splits a tie. */
  lemma DeliveredRows(rows: seq<Row>, tenantId: string, since: int, limit: nat, pages: seq<Page>)
    requires 1 <= limit <= 100 && IsTraversal(rows, tenantId, since, limit, None, pages)
    ensures forall item :: item in AllItems(pages) ==> IsTenants(rows, tenantId, since, item)
    ensures Ascending(AllItems(pages))
    ensures multiset(AllItems(pages)) == multiset(TenantItems(rows, tenantId, since))
      <==> NoTieSplit(Everything(rows, tenantId, since), limit, 0)
  {
    var s := Everything(rows, tenantId, since);
    TraversalIs(rows, tenantId, since, limit, pages);
    EverythingSorted(rows, tenantId, since);
    DeliveredAscend(s, limit, 0);
    EverythingIsTenants(rows, tenantId, since);
    DeliveredFrom(s, limit, 0);
    assert s[0..] == s;
    hide Everything, IsTraversal, AllItems, PagesFrom, NoTieSplit, TenantItems, Ascending, ItemOf, IsTenants;
    forall item | item in AllItems(pages) ensures IsTenants(rows, tenantId, since, item) {
      assert ComesFrom(s, 0, item);
      var k :| 0 <= k < |s| && item == ItemOf(s[k]);
      assert Items(s)[k] == item && item in multiset(Items(s));
      TenantItemsMembers(rows, tenantId, since, item);
    }
    if !NoTieSplit(s, limit, 0) {
      assert |multiset(AllItems(pages))| < |multiset(TenantItems(rows, tenantId, since))|;
    }
  }

  /** A limit outside 1 to 100 is refused, and no other. */
  lemma RefusedIff(rows: seq<Row>, tenantId: string, since: int, cursor: Option<Key>, limit: int)
    ensures ExportPage(rows, tenantId, since, cursor, limit).Exported? <==> 1 <= limit <= 100
  {
    hide Matching;
  }
}
