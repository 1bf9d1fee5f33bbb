/**
 * LucenceIndexResults: the paged result cursor over one (query, sort) pair.
 * It memoises the match count, keeps the current page's results and an
 * iteration index into them, and records for every fetched page the last
 * hit the engine returned, so that the following page can resume after it.
 */
module IndexResults {
  import opened Wrappers
  import opened Engine
  import opened Paging
  import LuceneQuery

  class LucenceIndexResults {
    /** The query and sort the cursor was created for. */
    const query: LuceneQuery.Query
    const sort: Option<LuceneQuery.Sort>
    /** The engine's ranked answer to (query, sort), standing for the searcher. */
    const engine: Engine

    /** The memoised match count; -1 while not yet computed. */
    var count: int
    /** The results of the last fetched page. */
    var currentResult: seq<IndexResult>
    /** The position of next() within currentResult. */
    var index: nat
    /** For each fetched page, the last hit the engine returned for it. */
    var lastDocIdfromPage: map<int, ScoreDoc>

    /** The current page number, kept by AbstractResultPage; nothing shown here updates it. */
    var page: int
    /** The page size, kept by AbstractResultPage. */
    var pageSize: int

    /** Every searchAfter call issued so far, in order. */
    ghost var searchLog: seq<SearchCall>
    /** How many times the engine's count was consulted. */
    ghost var countCalls: nat

    ghost predicate Valid()
      reads this
    {
      && pageSize >= 1
      && (count == -1 || count == Count(engine))
      && countCalls == (if count == -1 then 0 else 1)
      && CursorsValid(engine, lastDocIdfromPage, pageSize)
    }

    /** A fresh cursor: no count, no results, no cursors; page and page size as the base class starts them. */
    constructor (query: LuceneQuery.Query, sort: Option<LuceneQuery.Sort>, engine: Engine, page: int, pageSize: int)
      requires pageSize >= 1
      ensures Valid()
      ensures this.query == query && this.sort == sort && this.engine == engine
      ensures this.page == page && this.pageSize == pageSize
      ensures count == -1 && currentResult == [] && index == 0 && lastDocIdfromPage == map[]
      ensures searchLog == [] && countCalls == 0
    {
      this.query := query;
      this.sort := sort;
      this.engine := engine;
      this.page := page;
      this.pageSize := pageSize;
      count := -1;
      currentResult := [];
      index := 0;
      lastDocIdfromPage := map[];
      searchLog := [];
      countCalls := 0;
    }

    /**
     * doGetResult: fetch page p, resuming after the cursor of page p - 1 when
     * one is recorded and re-scanning from the top otherwise, then record the
     * last returned hit against p.
     */
    method DoGetResult(p: int) returns (list: seq<IndexResult>)
      requires Valid() && p >= 1
      modifies this`lastDocIdfromPage, this`searchLog
      ensures Valid()
      // the search issued: after the previous page's cursor with limit pageSize, or from the top
      ensures searchLog == old(searchLog) + [PlanCall(old(lastDocIdfromPage), p, pageSize)]
      ensures CanResume(old(lastDocIdfromPage), p) ==>
        PlanCall(old(lastDocIdfromPage), p, pageSize) == SearchCall(Some(old(lastDocIdfromPage)[p - 1]), pageSize)
        && PlanSkip(old(lastDocIdfromPage), p, pageSize) == 0
      ensures !CanResume(old(lastDocIdfromPage), p) ==>
        PlanCall(old(lastDocIdfromPage), p, pageSize) == SearchCall(None, (p - 1) * pageSize + pageSize)
        && PlanSkip(old(lastDocIdfromPage), p, pageSize) == (p - 1) * pageSize
      // what it returns: the hits it did not skip, resolved, which is page p
      ensures list == Fetched(engine, old(lastDocIdfromPage), p, pageSize)
      ensures list == Page(engine, p, pageSize)
      ensures |list| <= pageSize
      // the cursor map: unchanged after zero hits, otherwise p maps to the last hit
      ensures lastDocIdfromPage == Recorded(engine, old(lastDocIdfromPage), p, pageSize)
    {
      var call := PlanCall(lastDocIdfromPage, p, pageSize);
      var preNum := PlanSkip(lastDocIdfromPage, p, pageSize);
      searchLog := searchLog + [call];
      var hits := SearchAfter(engine, call.after, call.limit);
      FetchOutcome(engine, lastDocIdfromPage, p, pageSize, hits);
      if hits == [] {
        return [];
      }
      list := ResolveHits(hits, preNum);
      lastDocIdfromPage := lastDocIdfromPage[p := hits[|hits| - 1]];
    }

    /**
     * doGetResult's loop `for (i = preNum; i < hits.length; i++)`: look each
     * hit's document up and add its key and score, skipping null documents.
     */
    method ResolveHits(hits: seq<ScoreDoc>, preNum: nat) returns (list: seq<IndexResult>)
      ensures list == Resolve(engine, Drop(hits, preNum))
    {
      list := [];
      var i := preNum;
      while i < |hits|
        invariant preNum < |hits| ==> preNum <= i <= |hits| && list == Resolve(engine, hits[preNum..i])
        invariant preNum >= |hits| ==> list == []
      {
        ResolveSnoc(engine, hits, preNum, i);
        if hits[i].doc in engine.store {
          var doc := engine.store[hits[i].doc];
          list := list + [SimpleIndexResult(doc.key, doc.score)];
        }
        i := i + 1;
      }
      if preNum < |hits| {
        assert hits[preNum..i] == hits[preNum..];
      }
    }

    /** getCount: consult the engine once, then answer from the memo. */
    method GetCount() returns (c: int)
      requires Valid()
      modifies this`count, this`countCalls
      ensures Valid()
      ensures c == Count(engine)
      ensures count == c
      ensures old(count) != -1 ==> countCalls == old(countCalls)
      ensures countCalls <= 1
    {
      if count == -1 {
        count := Count(engine);
        countCalls := countCalls + 1;
      }
      c := count;
    }

    /** getPageSum, assumed to be the ceiling of getCount() over the page size. */
    method GetPageSum() returns (s: int)
      requires Valid()
      modifies this`count, this`countCalls
      ensures Valid()
      ensures s == PageSum(Count(engine), pageSize)
      ensures count == Count(engine)
      ensures old(count) != -1 ==> countCalls == old(countCalls)
    {
      var c := GetCount();
      s := (c + pageSize - 1) / pageSize;
    }

    /**
     * The fetch that ends gotoPage, `currentResult = doGetResult(page)` and
     * the non-empty test, for a page number within the page sum.
     */
    method FetchPage(p: int) returns (ok: bool)
      requires Valid() && 1 <= p <= PageSum(Count(engine), pageSize)
      modifies this`currentResult, this`lastDocIdfromPage, this`searchLog
      ensures Valid()
      ensures currentResult == Page(engine, p, pageSize)
      ensures ok == (currentResult != [])
      ensures lastDocIdfromPage == Recorded(engine, old(lastDocIdfromPage), p, pageSize)
      ensures searchLog == old(searchLog) + [PlanCall(old(lastDocIdfromPage), p, pageSize)]
      // with every document stored, every page within the page sum is a success
      ensures AllStored(engine) ==> ok
    {
      currentResult := DoGetResult(p);
      ok := |currentResult| > 0;
      WithinSumAllStored(engine, p, pageSize);
    }

    /**
     * gotoPage, as the source writes it: guard the page number, then replace
     * the current results with a fetch of page p. It neither sets the page
     * number nor rewinds the iteration index.
     */
    method GotoPage(p: int) returns (ok: bool)
      requires Valid()
      modifies this`currentResult, this`lastDocIdfromPage, this`searchLog, this`count, this`countCalls
      ensures Valid()
      ensures index == old(index) && page == old(page) && pageSize == old(pageSize)
      // p <= 0: refused, nothing changes
      ensures p <= 0 ==> !ok && count == old(count) && countCalls == old(countCalls)
      // the current page: accepted, nothing fetched
      ensures p > 0 && p == page ==> ok && count == old(count) && countCalls == old(countCalls)
      ensures p <= 0 || p == page ==>
        currentResult == old(currentResult) && lastDocIdfromPage == old(lastDocIdfromPage) && searchLog == old(searchLog)
      // otherwise the page sum is consulted, which memoises the count
      ensures p > 0 && p != page ==> count == Count(engine)
      // past the last page: refused, results and cursors unchanged
      ensures p > 0 && p != page && p > PageSum(Count(engine), pageSize) ==>
        !ok && currentResult == old(currentResult)
        && lastDocIdfromPage == old(lastDocIdfromPage) && searchLog == old(searchLog)
      // otherwise: page p is fetched; success iff it is non-empty
      ensures p > 0 && p != page && p <= PageSum(Count(engine), pageSize) ==>
        && currentResult == Page(engine, p, pageSize)
        && ok == (currentResult != [])
        && lastDocIdfromPage == Recorded(engine, old(lastDocIdfromPage), p, pageSize)
        && searchLog == old(searchLog) + [PlanCall(old(lastDocIdfromPage), p, pageSize)]
      // with every document stored, every page within the page sum is a success
      ensures p > 0 && p != page && p <= PageSum(Count(engine), pageSize) && AllStored(engine) ==> ok
    {
      if p <= 0 {
        return false;
      }
      if p == page {
        return true;
      }
      var sum := GetPageSum();
      if p > sum {
        return false;
      }
      ok := FetchPage(p);
    }

    /**
     * gotoPage as evidently intended: the same guards and fetch, and the
     * iteration index rewound to the start of the newly fetched page.
     */
    method GotoPageRewinding(p: int) returns (ok: bool)
      requires Valid()
      modifies this`currentResult, this`lastDocIdfromPage, this`searchLog, this`count, this`countCalls, this`index
      ensures Valid()
      ensures page == old(page) && pageSize == old(pageSize)
      ensures p <= 0 || p == page ==>
        ok == (p > 0) && index == old(index) && currentResult == old(currentResult)
        && lastDocIdfromPage == old(lastDocIdfromPage) && searchLog == old(searchLog)
        && count == old(count) && countCalls == old(countCalls)
      ensures p > 0 && p != page ==> count == Count(engine)
      ensures p > 0 && p != page && p > PageSum(Count(engine), pageSize) ==>
        !ok && index == old(index) && currentResult == old(currentResult)
        && lastDocIdfromPage == old(lastDocIdfromPage) && searchLog == old(searchLog)
      ensures p > 0 && p != page && p <= PageSum(Count(engine), pageSize) ==>
        && currentResult == Page(engine, p, pageSize)
        && index == 0
        && ok == (currentResult != [])
        && lastDocIdfromPage == Recorded(engine, old(lastDocIdfromPage), p, pageSize)
        && searchLog == old(searchLog) + [PlanCall(old(lastDocIdfromPage), p, pageSize)]
      // after a successful fetch, iteration starts at the page's first result
      ensures p > 0 && p != page && ok ==> index == 0 && index < |currentResult|
    {
      if p <= 0 {
        return false;
      }
      if p == page {
        return true;
      }
      var sum := GetPageSum();
      if p > sum {
        return false;
      }
      ok := FetchPage(p);
      index := 0;
    }

    /**
     * setPageSize: change the size, drop every recorded cursor, and go to the
     * current page. That takes gotoPage's `page <= 0` branch when the current
     * page is not positive and its same-page branch otherwise; neither fetches.
     */
    method SetPageSize(size: int)
      requires Valid() && size >= 1
      modifies this`pageSize, this`lastDocIdfromPage, this`currentResult, this`searchLog, this`count, this`countCalls
      ensures Valid()
      ensures pageSize == size && lastDocIdfromPage == map[]
      ensures currentResult == old(currentResult) && searchLog == old(searchLog)
      ensures count == old(count) && countCalls == old(countCalls)
      ensures page == old(page) && index == old(index)
    {
      pageSize := size;
      lastDocIdfromPage := map[];
      var _ := GotoPage(page);
    }

    /** next: the result at the iteration index, which then moves on by one. */
    method Next() returns (r: IndexResult)
      requires index < |currentResult|
      modifies this`index
      ensures r == currentResult[old(index)]
      ensures index == old(index) + 1
    {
      r := currentResult[index];
      index := index + 1;
    }

    /** hasNext: whether the iteration index is still inside the current page. */
    method HasNext() returns (b: bool)
      ensures b <==> index < |currentResult|
    {
      b := index < |currentResult|;
    }
  }
}
