// Keyset pagination of a user's jobs, newest first (backend/app/services/job_read_service.py,
// backend/app/repositories/job_repository.py).
module Pagination {
  import opened Domain
  import opened Lifecycle
  import opened Safety
  import opened Store
  import opened Evolution

  datatype JobType = SleepType | ReportType | FlakyType | AlwaysFailType | LlmSummaryType

  function TypeOf(payload: Payload): JobType {
    match payload
    case Sleep(_, _) => SleepType
    case Report(_) => ReportType
    case Flaky(_) => FlakyType
    case AlwaysFail => AlwaysFailType
    case LlmSummary(_, _, _) => LlmSummaryType
  }

  /** Where a row stands in the list, and what a cursor carries. */
  datatype Position = Position(createdAt: Time, id: JobId)

  datatype Filter = Filter(userId: UserId, status: Option<Status>, jobType: Option<JobType>)

  datatype Page = Page(items: seq<Position>, next: Option<Position>, hasMore: bool)

  /** `ORDER BY created_at DESC, id DESC`. */
  predicate Precedes(a: Position, b: Position) {
    a.createdAt > b.createdAt || (a.createdAt == b.createdAt && a.id > b.id)
  }

  predicate Matches(j: Job, filter: Filter) {
    && j.spec.userId == filter.userId
    && (filter.status.Some? ==> j.status == filter.status.value)
    && (filter.jobType.Some? ==> TypeOf(j.spec.payload) == filter.jobType.value)
  }

  function Listed(rows: Table, filter: Filter): set<Position> {
    set id | id in rows && Matches(rows[id].job, filter) :: Position(rows[id].job.spec.createdAt, id)
  }

  /** The rows after the cursor. */
  function From(s: set<Position>, cursor: Option<Position>): set<Position> {
    if cursor.None? then s else set p | p in s && Precedes(cursor.value, p)
  }

  // ---------- the sorted list of a set

  predicate Ordered(l: seq<Position>) { forall i, j :: 0 <= i < j < |l| ==> Precedes(l[i], l[j]) }

  predicate IsTop(s: set<Position>, top: Position) {
    top in s && forall p :: p in s && p != top ==> Precedes(top, p)
  }

  lemma {:induction false} Top(s: set<Position>) returns (top: Position)
    requires s != {}
    ensures IsTop(s, top)
    decreases |s|
  {
    var some :| some in s;
    top := some;
    if s - {some} != {} {
      var other := Top(s - {some});
      top := if Precedes(other, some) then other else some;
    }
    forall p | p in s && p != top ensures Precedes(top, p) {
      assert p == some || p in s - {some};
    }
  }

  lemma HasTop(s: set<Position>)
    requires s != {}
    ensures exists top :: IsTop(s, top)
  {
    var top := Top(s);
  }

  ghost function Sorted(s: set<Position>): (l: seq<Position>)
    decreases |s|
  {
    if s == {} then [] else
    HasTop(s);
    var top :| IsTop(s, top);
    [top] + Sorted(s - {top})
  }

  lemma {:induction false} SortedIs(s: set<Position>)
    ensures Ordered(Sorted(s)) && |Sorted(s)| == |s|
    ensures forall p :: p in Sorted(s) <==> p in s
    decreases |s|
  {
    if s != {} {
      HasTop(s);
      var top :| IsTop(s, top) && Sorted(s) == [top] + Sorted(s - {top});
      SortedIs(s - {top});
      forall p ensures p in Sorted(s) <==> p in s {
        assert p in Sorted(s) <==> p == top || p in Sorted(s - {top});
      }
    }
  }

  lemma BothEmpty(a: seq<Position>, b: seq<Position>)
    requires forall p :: p in a <==> p in b
    ensures |a| > 0 <==> |b| > 0
  {
    if |a| > 0 {
      assert a[0] in b;
    }
    if |b| > 0 {
      assert b[0] in a;
    }
  }

  /** A strictly ordered sequence is determined by its elements. */
  lemma {:induction false} SameOrder(a: seq<Position>, b: seq<Position>)
    requires Ordered(a) && Ordered(b) && forall p :: p in a <==> p in b
    ensures a == b
  {
    BothEmpty(a, b);
    if |a| > 0 {
      assert b[0] in a;
      assert a[0] in b;
      forall p ensures p in a[1..] <==> p in b[1..] {
        assert p in a <==> p == a[0] || p in a[1..];
        assert p in b <==> p == b[0] || p in b[1..];
      }
      SameOrder(a[1..], b[1..]);
    }
  }

  lemma SortedOf(s: set<Position>, l: seq<Position>)
    requires Ordered(l) && forall p :: p in l <==> p in s
    ensures l == Sorted(s)
  {
    SortedIs(s);
    SameOrder(l, Sorted(s));
  }

  lemma SortedTop(s: set<Position>, top: Position)
    requires IsTop(s, top)
    ensures Sorted(s) == [top] + Sorted(s - {top})
  {
    var rest := Sorted(s - {top});
    SortedIs(s - {top});
    forall p ensures p in [top] + rest <==> p in s {
      assert p in [top] + rest <==> p == top || p in rest;
    }
    SortedOf(s, [top] + rest);
  }

  // ---------- what a page must show, over the columns of the rows

  predicate OfType(payload: Payload, jobType: JobType) {
    match jobType
    case SleepType => payload.Sleep?
    case ReportType => payload.Report?
    case FlakyType => payload.Flaky?
    case AlwaysFailType => payload.AlwaysFail?
    case LlmSummaryType => payload.LlmSummary?
  }

  /** The position of a row of the user, of the requested status and type where these are given. */
  predicate Wanted(rows: Table, filter: Filter, p: Position) {
    && p.id in rows && p.createdAt == rows[p.id].job.spec.createdAt
    && rows[p.id].job.spec.userId == filter.userId
    && (filter.status.Some? ==> rows[p.id].job.status == filter.status.value)
    && (filter.jobType.Some? ==> OfType(rows[p.id].job.spec.payload, filter.jobType.value))
  }

  /** Created earlier, or at the same time with a smaller id. */
  predicate Older(p: Position, than: Position) {
    p.createdAt < than.createdAt || (p.createdAt == than.createdAt && p.id < than.id)
  }

  lemma ListedIs(rows: Table, filter: Filter, p: Position)
    ensures p in Listed(rows, filter) <==> Wanted(rows, filter, p)
  {
  }

  /** A row that a page does not show is older than all it shows, and the page is full and says there is more. */
  ghost predicate LeftOff(page: Page, limit: nat, p: Position) {
    page.hasMore && |page.items| == limit && forall q :: q in page.items ==> Older(p, q)
  }

  /** Wanted rows after the cursor, newest first, none left out before the last, and more only on a full page. */
  ghost predicate RightPage(rows: Table, filter: Filter, cursor: Option<Position>, limit: nat, page: Page) {
    && (forall p :: p in page.items ==> Wanted(rows, filter, p) && (cursor.Some? ==> Older(p, cursor.value)))
    && (forall i, j :: 0 <= i < j < |page.items| ==> Older(page.items[j], page.items[i]))
    && (forall p :: Wanted(rows, filter, p) && (cursor.Some? ==> Older(p, cursor.value)) && p !in page.items ==>
          LeftOff(page, limit, p))
    && (page.hasMore ==>
          exists p :: Wanted(rows, filter, p) && (cursor.Some? ==> Older(p, cursor.value)) && p !in page.items)
    && |page.items| <= limit
    && page.next == if page.hasMore && limit > 0 then Some(page.items[|page.items| - 1]) else None
  }

  // ---------- one page

  function Take(l: seq<Position>, n: nat): seq<Position> { if n < |l| then l[..n] else l }

  ghost function PageOf(s: set<Position>, limit: nat): Page {
    var items := Take(Sorted(s), limit);
    Page(items, if |s| > limit && items != [] then Some(items[|items| - 1]) else None, |s| > limit)
  }

  lemma AfterPrefix(l: seq<Position>, n: nat, p: Position, q: Position)
    requires Ordered(l) && n <= |l| && p in l && p !in l[..n] && q in l[..n]
    ensures Precedes(q, p)
  {
    forall k | 0 <= k < n ensures l[k] in l[..n] {
      assert l[..n][k] == l[k];
    }
    var i :| 0 <= i < |l| && l[i] == p;
    var j :| 0 <= j < n && l[j] == q;
  }

  lemma PrefixOf(s: set<Position>, limit: nat)
    ensures var items := Take(Sorted(s), limit);
            && Ordered(items) && (forall p :: p in items ==> p in s)
            && |items| == (if limit < |s| then limit else |s|)
            && (forall p, q :: p in s && p !in items && q in items ==> Precedes(q, p))
  {
    SortedIs(s);
    var l := Sorted(s);
    var n := if limit < |l| then limit else |l|;
    assert Take(l, limit) == l[..n];
    forall p, q | p in s && p !in l[..n] && q in l[..n] ensures Precedes(q, p) {
      AfterPrefix(l, n, p, q);
    }
  }

  lemma SizeOf(s: set<Position>, items: seq<Position>)
    requires Ordered(items) && forall q :: q in items ==> q in s
    ensures |items| <= |s|
    ensures |items| < |s| <==> exists p :: p in s && p !in items
  {
    var shown := set q | q in items;
    OrderedSize(items, shown);
    SubsetCard(shown, s);
    if |items| < |s| {
      if s <= shown {
        SubsetCard(s, shown);
      }
    }
    if p :| p in s && p !in items {
      SubsetCard(shown + {p}, s);
    }
  }

  /** What is on the page of a set and what is not. */
  ghost predicate RightOf(s: set<Position>, limit: nat, page: Page) {
    && (forall p :: p in page.items ==> p in s)
    && (forall i, j :: 0 <= i < j < |page.items| ==> Older(page.items[j], page.items[i]))
    && (forall p :: p in s && p !in page.items ==> LeftOff(page, limit, p))
    && (page.hasMore ==> exists p :: p in s && p !in page.items)
    && |page.items| <= limit
    && page.next == if page.hasMore && limit > 0 then Some(page.items[|page.items| - 1]) else None
  }

  lemma LeftOffOf(s: set<Position>, limit: nat, p: Position)
    requires p in s && p !in PageOf(s, limit).items
    ensures LeftOff(PageOf(s, limit), limit, p)
  {
    var items := PageOf(s, limit).items;
    PrefixOf(s, limit);
    SizeOf(s, items);
    forall q | q in items ensures Older(p, q) {
      assert Precedes(q, p);
    }
  }

  lemma PageOfIsRight(s: set<Position>, limit: nat)
    ensures RightOf(s, limit, PageOf(s, limit))
  {
    var page := PageOf(s, limit);
    PrefixOf(s, limit);
    SizeOf(s, page.items);
    forall p | p in s && p !in page.items ensures LeftOff(page, limit, p) {
      LeftOffOf(s, limit, p);
    }
    forall i, j | 0 <= i < j < |page.items| ensures Older(page.items[j], page.items[i]) {
      assert Precedes(page.items[i], page.items[j]);
    }
  }

  /** The page over the sorted list is the page the columns call for. */
  lemma PageIsRight(rows: Table, filter: Filter, cursor: Option<Position>, limit: nat, page: Page)
    requires page == PageOf(From(Listed(rows, filter), cursor), limit)
    ensures RightPage(rows, filter, cursor, limit, page)
  {
    var s := From(Listed(rows, filter), cursor);
    PageOfIsRight(s, limit);
    forall p ensures p in s <==> Wanted(rows, filter, p) && (cursor.Some? ==> Older(p, cursor.value)) {
      ListedIs(rows, filter, p);
    }
  }

  lemma SubsetCard(a: set<Position>, b: set<Position>)
    requires a <= b
    ensures |a| <= |b|
  {
    assert b == a + (b - a);
  }

  method FirstOf(s: set<Position>, limit: nat) returns (items: seq<Position>)
    ensures items == Take(Sorted(s), limit)
  {
    var rest := s;
    items := [];
    while |items| < limit && rest != {}
      invariant |items| <= limit && Sorted(s) == items + Sorted(rest)
      decreases rest
    {
      HasTop(rest);
      var top :| IsTop(rest, top);
      SortedTop(rest, top);
      items := items + [top];
      rest := rest - {top};
    }
    SortedIs(rest);
  }

  /** The query: sorted, filtered, after the cursor, limited. */
  method ListForUser(rows: Table, filter: Filter, cursor: Option<Position>, limit: nat)
    returns (items: seq<Position>)
    ensures items == Take(Sorted(From(Listed(rows, filter), cursor)), limit)
  {
    items := FirstOf(From(Listed(rows, filter), cursor), limit);
  }

  method ListJobs(rows: Table, filter: Filter, cursor: Option<Position>, limit: nat) returns (page: Page)
    ensures page == PageOf(From(Listed(rows, filter), cursor), limit)
    ensures RightPage(rows, filter, cursor, limit, page)
  {
    var found := ListForUser(rows, filter, cursor, limit + 1);
    SortedIs(From(Listed(rows, filter), cursor));
    var hasMore := |found| > limit;
    var items := if hasMore then found[..limit] else found;
    assert items == Take(Sorted(From(Listed(rows, filter), cursor)), limit);
    var next := if hasMore && items != [] then Some(items[|items| - 1]) else None;
    page := Page(items, next, hasMore);
    PageIsRight(rows, filter, cursor, limit, page);
  }

  // ---------- following the cursors

  /** Each page is read from the table of its moment, after the cursor of the page before it. */
  ghost predicate Traverses(tables: seq<set<Position>>, cursor: Option<Position>, pages: seq<Page>, limit: nat)
    decreases |pages|
  {
    && |tables| == |pages| >= 1
    && pages[0] == PageOf(From(tables[0], cursor), limit)
    && if |pages| == 1 then pages[0].next.None? else
       pages[0].next.Some? && Traverses(tables[1..], pages[0].next, pages[1..], limit)
  }

  function Items(pages: seq<Page>): seq<Position> {
    if pages == [] then [] else pages[0].items + Items(pages[1..])
  }

  /** The items that are in the set, in order. */
  function Restrict(l: seq<Position>, s: set<Position>): seq<Position> {
    if l == [] then [] else (if l[0] in s then [l[0]] else []) + Restrict(l[1..], s)
  }

  predicate Growing(tables: seq<set<Position>>) { forall i, j :: 0 <= i < j < |tables| ==> tables[i] <= tables[j] }

  lemma {:induction false} RestrictIs(l: seq<Position>, s: set<Position>)
    requires Ordered(l)
    ensures Ordered(Restrict(l, s)) && forall p :: p in Restrict(l, s) <==> p in l && p in s
  {
    if l != [] {
      var rest := Restrict(l[1..], s);
      RestrictIs(l[1..], s);
      forall p ensures p in Restrict(l, s) <==> p in l && p in s {
        assert p in l <==> p == l[0] || p in l[1..];
        assert p in Restrict(l, s) <==> (p == l[0] && p in s) || p in rest;
      }
      forall j | 0 <= j < |rest| ensures Precedes(l[0], rest[j]) {
        assert rest[j] in l[1..];
      }
    }
  }

  lemma {:induction false} RestrictJoins(a: seq<Position>, b: seq<Position>, s: set<Position>)
    ensures Restrict(a + b, s) == Restrict(a, s) + Restrict(b, s)
  {
    if a == [] {
      assert a + b == b;
    } else {
      assert (a + b)[0] == a[0] && (a + b)[1..] == a[1..] + b;
      RestrictJoins(a[1..], b, s);
      var first := if a[0] in s then [a[0]] else [];
      assert first + (Restrict(a[1..], s) + Restrict(b, s)) == (first + Restrict(a[1..], s)) + Restrict(b, s);
    }
  }

  /** A sorted list is what comes up to one of its elements and what comes after it. */
  lemma SplitAt(s: set<Position>, n: nat)
    requires n < |s|
    ensures |Sorted(s)| == |s| && Ordered(Sorted(s)[..n + 1])
    ensures forall p :: p in Sorted(s)[..n + 1] <==> p in s && (p == Sorted(s)[n] || Precedes(p, Sorted(s)[n]))
  {
    SortedIs(s);
    var l := Sorted(s);
    forall p ensures p in l[..n + 1] <==> p in s && (p == l[n] || Precedes(p, l[n])) {
      if p in s {
        var i :| 0 <= i < |l| && l[i] == p;
        assert i < n ==> Precedes(l[i], l[n]);
        assert i > n ==> Precedes(l[n], l[i]);
        assert i <= n ==> l[..n + 1][i] == p;
      }
    }
  }

  lemma OrderedJoin(a: seq<Position>, b: seq<Position>, middle: Position)
    requires Ordered(a) && Ordered(b)
    requires forall p :: p in a ==> p == middle || Precedes(p, middle)
    requires forall p :: p in b ==> Precedes(middle, p)
    ensures Ordered(a + b)
  {
    forall i, j | 0 <= i < j < |a + b| ensures Precedes((a + b)[i], (a + b)[j]) {
      if i < |a| <= j {
        assert a[i] in a && b[j - |a|] in b;
      }
    }
  }

  /** A page that is not the last splits what was still to be listed at its last item. */
  lemma PageSplits(s: set<Position>, limit: nat, kept: set<Position>)
    requires limit >= 1 && kept <= s && PageOf(s, limit).next.Some?
    ensures var page := PageOf(s, limit);
            Restrict(page.items, kept) + Sorted(From(kept, page.next)) == Sorted(kept)
  {
    SplitAt(s, limit - 1);
    var page := PageOf(s, limit);
    var head, tail := Restrict(page.items, kept), Sorted(From(kept, page.next));
    RestrictIs(page.items, kept);
    SortedIs(From(kept, page.next));
    OrderedJoin(head, tail, page.next.value);
    forall p ensures p in head + tail <==> p in kept {
      assert p in head + tail <==> p in head || p in tail;
    }
    SortedOf(kept, head + tail);
  }

  lemma LastPage(s: set<Position>, limit: nat, kept: set<Position>)
    requires limit >= 1 && kept <= s && PageOf(s, limit).next.None?
    ensures Restrict(PageOf(s, limit).items, kept) == Sorted(kept)
  {
    SortedIs(s);
    assert PageOf(s, limit).items == Sorted(s);
    RestrictIs(Sorted(s), kept);
    SortedOf(kept, Restrict(Sorted(s), kept));
  }

  lemma CursorMoves(s: set<Position>, cursor: Option<Position>, limit: nat, kept: set<Position>)
    requires kept <= s && PageOf(From(s, cursor), limit).next.Some?
    ensures var next := PageOf(From(s, cursor), limit).next; From(From(kept, cursor), next) == From(kept, next)
  {
    SortedIs(From(s, cursor));
    var page := PageOf(From(s, cursor), limit);
    assert page.next.value in Sorted(From(s, cursor));
  }

  /**
   * Every row present at the start is listed exactly once and in order, however many rows are inserted
   * between the pages.
   */
  lemma {:induction false} TraversalUnderInserts(tables: seq<set<Position>>, cursor: Option<Position>,
                                                 pages: seq<Page>, limit: nat, kept: set<Position>)
    requires limit >= 1 && Traverses(tables, cursor, pages, limit) && Growing(tables) && kept <= tables[0]
    ensures Restrict(Items(pages), kept) == Sorted(From(kept, cursor))
    decreases |pages|
  {
    var page, rest := pages[0], pages[1..];
    RestrictJoins(page.items, Items(rest), kept);
    if |pages| == 1 {
      LastPage(From(tables[0], cursor), limit, From(kept, cursor));
      SortedIs(From(tables[0], cursor));
      SameRestriction(page.items, kept, From(kept, cursor));
      assert Items(rest) == [];
    } else {
      TraversalUnderInserts(tables[1..], page.next, rest, limit, kept);
      PageSplits(From(tables[0], cursor), limit, From(kept, cursor));
      CursorMoves(tables[0], cursor, limit, kept);
      SortedIs(From(tables[0], cursor));
      SameRestriction(page.items, kept, From(kept, cursor));
    }
  }

  lemma {:induction false} SameRestriction(l: seq<Position>, s: set<Position>, t: set<Position>)
    requires forall p :: p in l ==> (p in s <==> p in t)
    ensures Restrict(l, s) == Restrict(l, t)
  {
    if l != [] {
      SameRestriction(l[1..], s, t);
    }
  }

  /** Steps of any processes and submissions only add to an unfiltered or type-filtered list. */
  lemma ListedGrows(cfg: Settings, rows: Table, rows': Table, filter: Filter)
    requires Evolved(cfg, rows, rows') && filter.status.None?
    ensures Listed(rows, filter) <= Listed(rows', filter)
  {
    forall p | p in Listed(rows, filter) ensures p in Listed(rows', filter) {
      assert RowEvolved(cfg, rows, rows', p.id);
      var trace :| After(cfg, rows[p.id], trace) == rows'[p.id];
      SpecForever(cfg, rows[p.id], trace);
    }
  }

  lemma NextIsItem(s: set<Position>, cursor: Option<Position>, limit: nat)
    requires PageOf(From(s, cursor), limit).next.Some?
    ensures var page := PageOf(From(s, cursor), limit);
            && page.next.value in From(s, cursor) && Ordered(page.items) && |page.items| == limit
            && (forall p :: p in page.items <==>
                  p in From(s, cursor) && (p == page.next.value || Precedes(p, page.next.value)))
  {
    SplitAt(From(s, cursor), limit - 1);
    var l := Sorted(From(s, cursor));
    SortedIs(From(s, cursor));
    assert l[limit - 1] in l;
  }

  lemma NextIsShorter(s: set<Position>, cursor: Option<Position>, limit: nat)
    requires PageOf(From(s, cursor), limit).next.Some?
    ensures |From(s, PageOf(From(s, cursor), limit).next)| == |From(s, cursor)| - limit
  {
    var page := PageOf(From(s, cursor), limit);
    NextIsItem(s, cursor, limit);
    var head := set p | p in page.items;
    OrderedSize(page.items, head);
    assert From(s, cursor) == head + From(s, page.next);
  }

  lemma {:induction false} OrderedSize(l: seq<Position>, elements: set<Position>)
    requires Ordered(l) && forall p :: p in elements <==> p in l
    ensures |elements| == |l|
  {
    SortedOf(elements, l);
    SortedIs(elements);
  }

  /** Newest first over all pages together, so no row is ever listed twice. */
  lemma {:induction false} TraversalIsOrdered(tables: seq<set<Position>>, cursor: Option<Position>,
                                              pages: seq<Page>, limit: nat)
    requires limit >= 1 && Traverses(tables, cursor, pages, limit)
    ensures Ordered(Items(pages))
    ensures cursor.Some? ==> forall p :: p in Items(pages) ==> Precedes(cursor.value, p)
    decreases |pages|
  {
    var page := pages[0];
    SortedIs(From(tables[0], cursor));
    if |pages| == 1 {
      assert Items(pages) == page.items + [] == Sorted(From(tables[0], cursor));
    } else {
      TraversalIsOrdered(tables[1..], page.next, pages[1..], limit);
      NextIsItem(tables[0], cursor, limit);
      OrderedJoin(page.items, Items(pages[1..]), page.next.value);
    }
  }

  // ---------- a table that does not change

  function Same(s: set<Position>, n: nat): seq<set<Position>> { seq(n, _ => s) }

  function PageCount(n: nat, limit: nat): nat
    requires limit >= 1
  {
    if n <= limit then 1 else 1 + PageCount(n - limit, limit)
  }

  /** The least number of pages that hold `n` rows, and one page when there are none. */
  predicate Ceiling(pages: nat, n: nat, limit: nat) {
    if n == 0 then pages == 1 else (pages - 1) * limit < n <= pages * limit
  }

  lemma {:induction false} PageCountIs(n: nat, limit: nat)
    requires limit >= 1
    ensures Ceiling(PageCount(n, limit), n, limit)
  {
    if n > limit {
      PageCountIs(n - limit, limit);
      var c := PageCount(n - limit, limit);
      assert (c + 1) * limit == c * limit + limit && (c - 1) * limit == c * limit - limit;
    }
  }

  lemma {:induction false} RestrictAll(l: seq<Position>, s: set<Position>)
    requires forall p :: p in l ==> p in s
    ensures Restrict(l, s) == l
  {
    if l != [] {
      RestrictAll(l[1..], s);
    }
  }

  lemma {:induction false} ItemsWithin(s: set<Position>, cursor: Option<Position>, pages: seq<Page>, limit: nat)
    requires Traverses(Same(s, |pages|), cursor, pages, limit)
    ensures forall p :: p in Items(pages) ==> p in s
    decreases |pages|
  {
    SortedIs(From(s, cursor));
    if |pages| > 1 {
      assert Same(s, |pages|)[1..] == Same(s, |pages| - 1);
      ItemsWithin(s, pages[0].next, pages[1..], limit);
    }
  }

  lemma {:induction false} PagesNeeded(s: set<Position>, cursor: Option<Position>, pages: seq<Page>, limit: nat)
    requires limit >= 1 && Traverses(Same(s, |pages|), cursor, pages, limit)
    ensures |pages| == PageCount(|From(s, cursor)|, limit)
    ensures forall i :: 0 <= i < |pages| - 1 ==> |pages[i].items| == limit
    decreases |pages|
  {
    if |pages| > 1 {
      assert Same(s, |pages|)[1..] == Same(s, |pages| - 1);
      NextIsItem(s, cursor, limit);
      NextIsShorter(s, cursor, limit);
      PagesNeeded(s, pages[0].next, pages[1..], limit);
      assert forall i :: 0 < i < |pages| ==> pages[i] == pages[1..][i - 1];
    } else {
      SortedIs(From(s, cursor));
    }
  }

  /** Following the cursors over a fixed table lists exactly the sorted rows, in ceil(n/limit) pages. */
  lemma TraversalOfFixedTable(s: set<Position>, pages: seq<Page>, limit: nat)
    requires limit >= 1 && Traverses(Same(s, |pages|), None, pages, limit)
    ensures Items(pages) == Sorted(s)
    ensures Ceiling(|pages|, |s|, limit)
    ensures forall i :: 0 <= i < |pages| - 1 ==> |pages[i].items| == limit
  {
    TraversalUnderInserts(Same(s, |pages|), None, pages, limit, s);
    ItemsWithin(s, None, pages, limit);
    PagesNeeded(s, None, pages, limit);
    RestrictAll(Items(pages), s);
    PageCountIs(|s|, limit);
  }

  /** So the pages together show exactly the user's rows that were asked for, newest first. */
  lemma TraversalShowsWanted(rows: Table, filter: Filter, pages: seq<Page>, limit: nat)
    requires limit >= 1 && Traverses(Same(Listed(rows, filter), |pages|), None, pages, limit)
    ensures forall p :: p in Items(pages) <==> Wanted(rows, filter, p)
    ensures forall i, j :: 0 <= i < j < |Items(pages)| ==> Older(Items(pages)[j], Items(pages)[i])
  {
    TraversalOfFixedTable(Listed(rows, filter), pages, limit);
    SortedIs(Listed(rows, filter));
    forall p ensures p in Items(pages) <==> Wanted(rows, filter, p) {
      ListedIs(rows, filter, p);
    }
  }

  /** The rows of one user are the same in both tables. */
  ghost predicate SameForUser(rows: Table, rows': Table, userId: UserId) {
    && (forall id :: id in rows && rows[id].job.spec.userId == userId ==> id in rows' && rows'[id].job == rows[id].job)
    && (forall id :: id in rows' && rows'[id].job.spec.userId == userId ==> id in rows && rows[id].job == rows'[id].job)
  }

  /** Nothing that happens to the jobs of other users shows in a list. */
  lemma OthersDoNotShow(rows: Table, rows': Table, filter: Filter)
    requires SameForUser(rows, rows', filter.userId)
    ensures Listed(rows', filter) == Listed(rows, filter)
  {
    forall p ensures p in Listed(rows', filter) <==> p in Listed(rows, filter) {
      ListedIs(rows, filter, p);
      ListedIs(rows', filter, p);
    }
  }

  /** Every step of a job of another user and every submission of one leave the rows of the user alone. */
  lemma ForeignSteps(cfg: Settings, rows: Table, id: JobId, now: Time, a: Action, spec: JobSpec, userId: UserId)
    requires spec.userId != userId
    ensures id in rows && rows[id].job.spec.userId != userId ==>
              SameForUser(rows, rows[id := Step(cfg, rows[id], now, a)], userId)
    ensures id !in rows ==> SameForUser(rows, rows[id := Submitted(spec)], userId)
  {
    if id in rows {
      SpecStep(cfg, rows[id], now, a);
    }
  }

  /** And there always is such a traversal: the cursors come to an end. */
  lemma {:induction false} TraversalEnds(s: set<Position>, cursor: Option<Position>, limit: nat)
    returns (pages: seq<Page>)
    requires limit >= 1
    ensures Traverses(Same(s, |pages|), cursor, pages, limit)
    decreases |From(s, cursor)|
  {
    var page := PageOf(From(s, cursor), limit);
    pages := [page];
    if page.next.Some? {
      NextIsShorter(s, cursor, limit);
      var rest := TraversalEnds(s, page.next, limit);
      pages := [page] + rest;
      assert Same(s, |pages|)[1..] == Same(s, |rest|);
    }
  }
}
