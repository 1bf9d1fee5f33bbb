/**
 * Runs of the cursor with one result per page: over any engine answer with
 * two stored matches, and over one given answer with the entries user1 and
 * user2, where the engine is taken to rank user2 first. The order and the
 * scores 10 and 20 are illustrative; the engine's real order depends on
 * relevance first and the score second.
 */
module Scenarios {
  import opened Wrappers
  import opened Engine
  import opened Paging
  import opened IndexResults
  import LuceneQuery

  /** A given engine answer: document 2 (user2, score 20) ranked before document 1 (user1, score 10). */
  function TwoUsers(): (e: Engine)
    ensures Count(e) == 2 && AllStored(e)
  {
    Engine([2, 1], map[1 := StoredDoc("user1", 10), 2 := StoredDoc("user2", 20)])
  }

  /** The first page of TwoUsers at page size 1 is user2. */
  lemma TwoUsersPage1()
    ensures PageHits(TwoUsers(), 1, 1) == [ScoreDoc(2, 0)]
    ensures Page(TwoUsers(), 1, 1) == [SimpleIndexResult("user2", 20)]
  {
    var e := TwoUsers();
    assert PageStart(e, 1, 1) == 0 && PageEnd(e, 1, 1) == 1;
    assert HitAt(e, 0) == ScoreDoc(2, 0);
    assert e.store[2] == StoredDoc("user2", 20);
    ResolveSingle(e, ScoreDoc(2, 0));
  }

  /** The second page of TwoUsers at page size 1 is user1. */
  lemma TwoUsersPage2()
    ensures PageHits(TwoUsers(), 2, 1) == [ScoreDoc(1, 1)]
    ensures Page(TwoUsers(), 2, 1) == [SimpleIndexResult("user1", 10)]
  {
    var e := TwoUsers();
    assert PageStart(e, 2, 1) == 1 && PageEnd(e, 2, 1) == 2;
    assert HitAt(e, 1) == ScoreDoc(1, 1);
    assert e.store[1] == StoredDoc("user1", 10);
    ResolveSingle(e, ScoreDoc(1, 1));
  }

  /** A cursor over `e` with page size 1, before any page is selected. */
  method NewCursor(e: Engine) returns (c: LucenceIndexResults)
    ensures fresh(c) && c.Valid() && c.engine == e && c.page == 0 && c.pageSize == 1
    ensures c.index == 0 && c.lastDocIdfromPage == map[] && c.searchLog == []
  {
    var query := LuceneQuery.BooleanQuery([LuceneQuery.TermMatch(LuceneQuery.KEYWORD_FIELD_NAME, "bossky")]);
    c := new LucenceIndexResults(query, LuceneQuery.SortFor(false, true), e, 0, 1);
  }

  /**
   * The walk `for (i = 1; gotoPage(i); i++)` over two stored matches with
   * page size 1: page 1 is fetched from the top, page 2 by resuming after
   * page 1's last hit, page 3 is refused, and the count is 2.
   */
  method WalkTwoMatches(e: Engine)
    returns (page1: seq<IndexResult>, page2: seq<IndexResult>, ok3: bool, n: int, ghost log: seq<SearchCall>)
    requires Count(e) == 2 && AllStored(e)
    ensures page1 == Page(e, 1, 1) && page2 == Page(e, 2, 1)
    ensures !ok3 && n == 2
    ensures log == [SearchCall(None, 1), SearchCall(Some(HitAt(e, 0)), 1)]
  {
    var c := NewCursor(e);
    var ok1 := c.GotoPage(1);
    page1 := c.currentResult;
    var ok2 := c.GotoPage(2);
    page2 := c.currentResult;
    ok3 := c.GotoPage(3);
    n := c.GetCount();
    log := c.searchLog;
  }

  /**
   * gotoPage as written keeps the iteration index: after reading page 1 with
   * next(), page 2 is fetched and non-empty, yet hasNext() is false.
   */
  method StaleIndexAfterGotoPage(e: Engine) returns (ok2: bool, more: bool)
    requires Count(e) == 2 && AllStored(e)
    ensures ok2 && !more
  {
    var c := NewCursor(e);
    var ok1 := c.GotoPage(1);
    var first := c.Next();
    ok2 := c.GotoPage(2);
    PageBound(e, 2, 1);
    more := c.HasNext();
  }

  /** With the index rewound on every fetch, page 2 can be read with next() after page 1. */
  method RewoundIndexAfterGotoPage(e: Engine) returns (ok2: bool, more: bool, second: IndexResult)
    requires Count(e) == 2 && AllStored(e)
    ensures ok2 && more && [second] == Page(e, 2, 1)
  {
    var c := NewCursor(e);
    var ok1 := c.GotoPageRewinding(1);
    var first := c.Next();
    ok2 := c.GotoPageRewinding(2);
    more := c.HasNext();
    second := c.Next();
    PageBound(e, 2, 1);
  }

  /**
   * gotoPage as written never records the page it went to, so a second
   * gotoPage(p) on a fresh cursor fetches again: it shows the same results,
   * and it re-scans from the top a second time, because the cursor the first
   * fetch recorded is page p's own, not page p - 1's.
   */
  method SamePageTwice(e: Engine, p: int) returns (first: seq<IndexResult>, second: seq<IndexResult>, ghost log: seq<SearchCall>)
    requires 1 <= p <= PageSum(Count(e), 1)
    ensures first == second == Page(e, p, 1)
    ensures |log| == 2 && log[0] == log[1] == PlanCall(map[], p, 1)
  {
    var c := NewCursor(e);
    var _ := c.GotoPage(p);
    first := c.currentResult;
    var _ := c.GotoPage(p);
    second := c.currentResult;
    log := c.searchLog;
  }

  /** The walk over user1 and user2: user2 on page 1, user1 on page 2. */
  method WalkTwoUsers() returns (page1: seq<IndexResult>, page2: seq<IndexResult>, ok3: bool, n: int)
    ensures page1 == [SimpleIndexResult("user2", 20)] && page2 == [SimpleIndexResult("user1", 10)]
    ensures !ok3 && n == 2
  {
    TwoUsersPage1();
    TwoUsersPage2();
    ghost var log;
    page1, page2, ok3, n, log := WalkTwoMatches(TwoUsers());
  }

  /** The stale index over user1 and user2. */
  method StaleIndexTwoUsers() returns (ok2: bool, more: bool)
    ensures ok2 && !more
  {
    ok2, more := StaleIndexAfterGotoPage(TwoUsers());
  }

  /** The rewound index over user1 and user2: next() after page 1 and gotoPage(2) reads user1. */
  method RewoundIndexTwoUsers() returns (ok2: bool, more: bool, second: IndexResult)
    ensures ok2 && more && second == SimpleIndexResult("user1", 10)
  {
    TwoUsersPage2();
    ok2, more, second := RewoundIndexAfterGotoPage(TwoUsers());
  }
}
