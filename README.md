# bossky-search-lucene: the paged result cursor and the searcher cache

bossky-search-lucene puts a keyword searcher on top of a Lucene index. This
project models its core, in two parts:

- **`LucenceIndexResults`**, the paged result cursor. It holds one query and
  one optional sort, a memoised match count (`count`, -1 until computed),
  the current page's results (`currentResult`) with an iteration index
  (`index`), and the map `lastDocIdfromPage`. For every fetch that returned
  hits, that map records the last hit the engine returned against the page
  number. `doGetResult(p)` takes one
  of two paths:
  - if a hit is recorded for page `p - 1`, it resumes with
    `searchAfter(that hit, pageSize)`;
  - otherwise it re-scans from the top with
    `searchAfter(null, (p-1)*pageSize + pageSize)` and skips the first
    `(p-1)*pageSize` hits.

  Either way it resolves each kept hit to a stored `(key, score)`, drops a
  hit whose document lookup is null, and, when any hits came back, records
  the last one for `p`.
- **`LuceneSearcher`**, which owns the index at `getPath()` and a lazily
  opened `IndexSearcher` cache. `getIndexSearcher` opens a reader only when
  nothing is cached. `doUpdateEntry` and `doRemoveEntry` close and drop the
  cached reader once their write has succeeded. Both writes delete by the
  term `Term("id", key)`, while the id is stored as a tokenised text field,
  so they delete the documents whose id holds the key as one of its
  whitespace-separated terms; `doUpdateEntry` then adds the new document.
  `doSearch` turns the search options, the range bounds and the query
  keywords into a Lucene `BooleanQuery` of MUST clauses and a `Sort`.
  `createKeyword` joins an entry's keywords with `' '`.

The Lucene engine is abstract. For a fixed (query, sort), it is a ranked
sequence of document references plus a map from reference to stored
document (`Engine.Engine`). A `ScoreDoc` carries its rank, and
`searchAfter(after, n)` returns the next at most `n` ranked hits after that
rank (`Engine.SearchAfter`). On top of this, `Paging` defines what page `p`
of size `ps` should be (`Paging.Page`). It then proves four things:

- both fetch paths return exactly that page (`Paging.ResumeEqualsRescan`,
  `Paging.FetchIsPage`);
- each recorded hit stays the last hit of its page (`Paging.CursorsValid`,
  which is an invariant of the cursor class);
- walking pages 1..k is the first k·ps ranked matches, resolved
  (`Paging.SequentialPages`);
- a page has hits exactly when it is within the page sum, and, when every
  ranked document is stored, it has results exactly then
  (`Paging.PageNonEmptyIffWithinSum`, `Paging.PageNonEmptyAllStored`).

The cursor is a class whose methods follow the Java step by step: the
`doGetResult` loop, `gotoPage`'s guards, the `getCount` memo,
`next`/`hasNext`. The searcher is a class with an `Option<Handle>` cache.
Its `Valid()` invariant says a cached handle is never closed and always sees
the committed index.

Modules: `Wrappers` (Option, Result, Outcome); `Engine`; `Paging`;
`IndexResults` (the cursor); `LuceneQuery` (query and sort translation);
`Keywords` (`createKeyword`); `Searcher` (the cache and the write paths);
`Scenarios` (whole-cursor runs, including the finding below).

Parameters and assumptions:
- **Engine, readers and writes are parameters.** The engine's answer is a
  value. The outcome of opening a reader (`Opened(id)` or an IOException)
  and of a write (`Written` or an IOException) is passed in.
- **`getPageSum` is assumed to be the ceiling of `getCount()` over the page
  size.** Its body is in the unseen base class `AbstractResultPage`.
- **`page` and `pageSize` are plain fields.** They belong to the same base
  class, and nothing in the modelled code updates `page`.

Three behaviours of the code are easy to miss:
- **`setPageSize`** clears the cursor map and calls `gotoPage(getPage())`.
  That takes `gotoPage`'s `page <= 0` branch when the current page is not
  positive, and its same-page branch otherwise. Neither fetches, so the
  current page is not re-fetched at the new size
  (`IndexResults.LucenceIndexResults.SetPageSize`).
- **`gotoPage`** does not rewind the iteration index (see Findings). It does
  not record the page it went to either, so a repeated `gotoPage(p)` fetches
  again instead of being a no-op (`Scenarios.SamePageTwice`).
- **The write paths match the key as a term.** A key that is one term with
  no space is replaced or deleted exactly (`Searcher.WithoutTermSingleTokens`).
  A key with a space is not: writing `"a b"` deletes nothing, so an update
  adds a second document, and writing or removing `"a"` also deletes the
  document of `"a b"` (`Searcher.TwoTokenKeyWrites`).

## Model

| member | source | states |
|---|---|---|
| Paging.ResolveConcat | src/main/java/org/bossky/search/lucene/LucenceIndexResults.java:97-105 | resolving hits keeps their order: resolving a joined run is resolving each part, one after the other |
| Paging.ResolveBound | src/main/java/org/bossky/search/lucene/LucenceIndexResults.java:97-105 | the result list never has more entries than there were hits |
| Paging.ResolveAllStored | src/main/java/org/bossky/search/lucene/LucenceIndexResults.java:97-105 | when every hit's document exists, the list has one result per hit, in order, each with that document's key and score |
| Paging.ResolveDropsMissing | src/main/java/org/bossky/search/lucene/LucenceIndexResults.java:99-100 | a hit whose document lookup is null is skipped: the list is what the hits before it and after it give |
| Paging.PageBound | src/main/java/org/bossky/search/lucene/LucenceIndexResults.java:72-112 | a page has at most pageSize hits and at most pageSize results |
| Paging.PageNonEmptyIffWithinSum | src/main/java/org/bossky/search/lucene/LucenceIndexResults.java:130-134 | page p ≥ 1 has ranked hits if and only if p is at most the page sum (ceiling of count over page size) |
| Paging.PageNonEmptyAllStored | src/main/java/org/bossky/search/lucene/LucenceIndexResults.java:130-134 | with every ranked document stored, page p's results are non-empty if and only if p is within the page sum |
| Paging.PlanCall | src/main/java/org/bossky/search/lucene/LucenceIndexResults.java:74-91 | the call's limit is at least one: after the cursor of page p-1 it is pageSize, and from the top it is (p-1)·pageSize + pageSize |
| Paging.RescanIsPage | src/main/java/org/bossky/search/lucene/LucenceIndexResults.java:74-98 | fetching (p-1)·ps + ps hits from the top and skipping (p-1)·ps of them leaves exactly the hits of page p |
| Paging.ResumeIsPage | src/main/java/org/bossky/search/lucene/LucenceIndexResults.java:79-98 | resuming after the last hit of page p-1 with limit ps gives exactly the hits of page p |
| Paging.ResumeEqualsRescan | src/main/java/org/bossky/search/lucene/LucenceIndexResults.java:74-98 | the resume path and the re-scan path of doGetResult keep the same hits whenever the recorded cursor is page p-1's last hit |
| Paging.FetchIsPage | src/main/java/org/bossky/search/lucene/LucenceIndexResults.java:72-112 | whichever path is taken over a valid cursor map, the kept hits are page p's hits and the list is page p |
| Paging.WithinSumAllStored | src/main/java/org/bossky/search/lucene/LucenceIndexResults.java:130-134 | a page that gotoPage lets through the page-sum guard is never empty when every ranked document is stored |
| Paging.FetchOutcome | src/main/java/org/bossky/search/lucene/LucenceIndexResults.java:93-108 | in terms of the hits searchAfter returned: the kept hits, resolved, are page p (at most ps results); no hits means an empty page and an unchanged map; otherwise p records the last hit; the map stays valid |
| Paging.RecordedValid | src/main/java/org/bossky/search/lucene/LucenceIndexResults.java:106-107 | recording the last returned hit against p keeps every recorded hit the last hit of its own page |
| Paging.SequentialPages | src/test/java/org/bossky/search/lucene/LuceneTest.java:36-40 | the walk over pages 1..k shows the first k·ps ranked matches (all of them when there are fewer), resolved, in ranked order, with no repeats or gaps |
| Paging.SequentialPagesAllStored | src/test/java/org/bossky/search/lucene/LuceneTest.java:36-40 | with every document stored, pages 1..k show min(k·ps, count) results, the i-th being ranked document i's key and score |
| IndexResults.LucenceIndexResults.constructor | src/main/java/org/bossky/search/lucene/LucenceIndexResults.java:37-49 | a new cursor has count -1, no results, index 0 and an empty cursor map |
| IndexResults.LucenceIndexResults.DoGetResult | src/main/java/org/bossky/search/lucene/LucenceIndexResults.java:72-112 | issues one searchAfter, resuming after page p-1's cursor or re-scanning; returns page p (at most pageSize results); records the last hit for p unless no hits came back; keeps the cursor map valid |
| IndexResults.LucenceIndexResults.ResolveHits | src/main/java/org/bossky/search/lucene/LucenceIndexResults.java:97-105 | the loop from preNum over the hits gives the hits from index preNum on (none when preNum is past the end), each resolved to its stored key and score, null documents skipped, in order |
| IndexResults.LucenceIndexResults.GetCount | src/main/java/org/bossky/search/lucene/LucenceIndexResults.java:138-143 | returns the engine's count; the engine is consulted at most once over the cursor's life, and not again once count is set |
| IndexResults.LucenceIndexResults.GetPageSum | src/main/java/org/bossky/search/lucene/LucenceIndexResults.java:130 | the page sum is the ceiling of the count over the page size, and the count is memoised |
| IndexResults.LucenceIndexResults.FetchPage | src/main/java/org/bossky/search/lucene/LucenceIndexResults.java:133-134 | for a page within the page sum: currentResult becomes page p with one search logged and the map recorded; success iff the page is non-empty, and always when every document is stored |
| IndexResults.LucenceIndexResults.GotoPage | src/main/java/org/bossky/search/lucene/LucenceIndexResults.java:123-135 | p ≤ 0 is refused and the current page is accepted, both without I/O; for any other p the count is memoised; past the page sum is refused; otherwise currentResult becomes page p with one search logged, success iff it is non-empty (always with all documents stored); the index and page are not changed |
| IndexResults.LucenceIndexResults.GotoPageRewinding | src/main/java/org/bossky/search/lucene/LucenceIndexResults.java:123-135 | the same guards and fetch as gotoPage, with the iteration index reset to 0, so after a success hasNext() holds |
| IndexResults.LucenceIndexResults.SetPageSize | src/main/java/org/bossky/search/lucene/LucenceIndexResults.java:115-120 | the new size is set and every recorded cursor is dropped; the current results, count and index are unchanged, and no search is issued |
| IndexResults.LucenceIndexResults.Next | src/main/java/org/bossky/search/lucene/LucenceIndexResults.java:146-148 | returns the result at the index and moves the index on by one |
| IndexResults.LucenceIndexResults.HasNext | src/main/java/org/bossky/search/lucene/LucenceIndexResults.java:151-153 | true exactly when the index is inside the current results |
| LuceneQuery.RangeClauses | src/main/java/org/bossky/search/lucene/LuceneSearcher.java:156-158 | exactly one range clause on the keyword field when a bound is given (lower inclusive, upper exclusive), and none otherwise |
| LuceneQuery.KeywordClausesMeaning | src/main/java/org/bossky/search/lucene/LuceneSearcher.java:159-169 | the keyword clauses succeed iff every type is recognised, one clause per keyword in order; otherwise the error names the leftmost unrecognised type |
| LuceneQuery.KeywordClausesPrefixFailure | src/main/java/org/bossky/search/lucene/LuceneSearcher.java:165-167 | once a keyword is rejected, the later keywords do not matter: the whole list fails with that error |
| LuceneQuery.QueryForMeaning | src/main/java/org/bossky/search/lucene/LuceneSearcher.java:155-170 | the query is the optional range clause followed by one MUST clause per keyword (a prefix on id for entry-prefix, a term on ks for keyword-all); an unknown type is an IllegalArgumentException naming the first such type |
| LuceneQuery.BuildQuery | src/main/java/org/bossky/search/lucene/LuceneSearcher.java:155-170 | the builder loop produces exactly the query QueryFor describes, stopping with the error at the first unrecognised keyword |
| LuceneQuery.SortFor | src/main/java/org/bossky/search/lucene/LuceneSearcher.java:171-179 | a sort exists iff ascending or descending is requested; it is relevance then the long score field, reversed exactly when ascending is not set (ascending wins) |
| Keywords.CreateKeyword | src/main/java/org/bossky/search/lucene/LuceneSearcher.java:203-218 | the loop produces the keywords joined with one separator between neighbours; a single keyword is returned as it is |
| Keywords.JoinCons | src/main/java/org/bossky/search/lucene/LuceneSearcher.java:207-215 | two or more keywords join to the first, one separator, then the rest joined |
| Keywords.SingleTokenMatch | src/main/java/org/bossky/search/lucene/LuceneSearcher.java:97-106 | for a separator-free id and key, the id holds the key as a term exactly when the two are equal |
| Keywords.TwoTokenKey | src/main/java/org/bossky/search/lucene/LuceneSearcher.java:58-97 | the id "a b" is analysed into the terms "a" and "b"; it holds either of them but not "a b" |
| Keywords.SplitJoin | src/main/java/org/bossky/search/lucene/LuceneSearcher.java:56-58 | when no keyword contains the separator, cutting the joined text at every separator gives back exactly the keywords |
| Searcher.LuceneSearcher.constructor | src/main/java/org/bossky/search/lucene/LuceneSearcher.java:68-72 | a new searcher holds its directory and name, has nothing cached, and sees the index already on disk |
| Searcher.LuceneSearcher.GetPath | src/main/java/org/bossky/search/lucene/LuceneSearcher.java:188-195 | the path is the name without a store directory, and otherwise the directory followed directly by the name; it always ends with the name |
| Searcher.LuceneSearcher.GetIndexSearcher | src/main/java/org/bossky/search/lucene/LuceneSearcher.java:225-253 | a cached searcher is returned with no open; otherwise one open is attempted, and its reader is cached only on success; an IOException fails with nothing cached; every returned handle is open and sees the committed index |
| Searcher.LuceneSearcher.DestroyIndexSearcher | src/main/java/org/bossky/search/lucene/LuceneSearcher.java:258-267 | the cached reader, if any, is closed and the cache emptied; nothing else is closed |
| Searcher.WithoutTerm | src/main/java/org/bossky/search/lucene/LuceneSearcher.java:106 | a delete by Term(id, key) keeps exactly the documents whose id does not hold the key as a term |
| Searcher.WithoutTermSingleTokens | src/main/java/org/bossky/search/lucene/LuceneSearcher.java:97-106 | when every id and the key are single separator-free terms, the delete by term keeps exactly the documents whose id differs from the key |
| Searcher.TwoTokenKeyWrites | src/main/java/org/bossky/search/lucene/LuceneSearcher.java:97-128 | a write for "a b" deletes no document with id "a b", and one for "a" deletes it |
| Searcher.LuceneSearcher.DoUpdateEntry | src/main/java/org/bossky/search/lucene/LuceneSearcher.java:92-117 | on a successful write, the documents whose id holds the key as a term are deleted, the entry's document (key, score, joined keywords) is added, and the cached reader is closed and dropped; on an IOException it fails and nothing changes |
| Searcher.LuceneSearcher.DoRemoveEntry | src/main/java/org/bossky/search/lucene/LuceneSearcher.java:120-148 | on a successful write the documents whose id holds the key as a term are deleted, and the cached reader is closed and dropped; on an IOException it fails and nothing changes |
| Searcher.LuceneSearcher.DoSearch | src/main/java/org/bossky/search/lucene/LuceneSearcher.java:151-181 | an unknown keyword type fails with IllegalArgument; otherwise it returns a fresh cursor over the translated query and sort, with no count, results or cursors yet |
| Searcher.UpdateThenSearch | src/main/java/org/bossky/search/lucene/LuceneSearcher.java:105-107 | read-your-writes: after a successful update, the next getIndexSearcher opens a new reader, which sees the written document and no other document whose id holds the key |
| Scenarios.TwoUsersPage1 | src/test/java/org/bossky/search/lucene/LuceneTest.java:41-48 | with illustrative scores, user2 at 20 ranked before user1 at score 10, page 1 at size 1 is user2 |
| Scenarios.TwoUsersPage2 | src/test/java/org/bossky/search/lucene/LuceneTest.java:41-48 | in the same ranking, page 2 at size 1 is user1 |
| Scenarios.NewCursor | src/main/java/org/bossky/search/lucene/LuceneSearcher.java:180 | a cursor over the given engine, page size 1, fresh and valid |
| Scenarios.WalkTwoMatches | src/test/java/org/bossky/search/lucene/LuceneTest.java:36-40 | over two stored matches, gotoPage(1) and gotoPage(2) show pages 1 and 2, page 2 resumes after page 1's last hit, gotoPage(3) is refused, and the count is 2 |
| Scenarios.WalkTwoUsers | src/test/java/org/bossky/search/lucene/LuceneTest.java:41-48 | the walk over user1 and user2 shows user2 and then user1, then stops |
| Scenarios.SamePageTwice | src/main/java/org/bossky/search/lucene/LucenceIndexResults.java:127-133 | gotoPage(p) twice on a fresh cursor shows the same page both times and issues the same re-scan twice |
| Scenarios.StaleIndexAfterGotoPage | src/main/java/org/bossky/search/lucene/LucenceIndexResults.java:133-153 | as written: after next() on page 1, gotoPage(2) succeeds but hasNext() is false |
| Scenarios.StaleIndexTwoUsers | src/main/java/org/bossky/search/lucene/LucenceIndexResults.java:133-153 | the same stale index, shown on user1 and user2 |
| Scenarios.RewoundIndexAfterGotoPage | src/main/java/org/bossky/search/lucene/LucenceIndexResults.java:133-153 | corrected: after next() on page 1, gotoPage(2) succeeds, hasNext() holds, and next() returns page 2's result |
| Scenarios.RewoundIndexTwoUsers | src/main/java/org/bossky/search/lucene/LucenceIndexResults.java:133-153 | corrected, on user1 and user2: next() after gotoPage(2) returns user1 |

## Left out

- init() creates and commits an empty index at getPath(). It is file-system I/O; the model's searcher starts from a given committed index instead.
- The double-checked `synchronized (searcherlock)` publication in getIndexSearcher is left out, with all concurrency; each method is modelled as executing atomically.
- The ordering between `destoryIndexSeacher()` and the IndexWriter's commit on close is abstracted: a successful write is modelled as already committed when the cache is dropped. A failing close, which the source ignores, is not modelled.
- The engine's ranking, scoring and query analysis are left out. The engine appears only as a ranked sequence and a store map, given per (query, sort); TermRangeQuery, PrefixQuery and TermQuery are kept as data and not evaluated.
- Keywords.SplitJoin: splitting is an exact cut at every `' '`. WhitespaceAnalyzer also splits at tabs, newlines and other whitespace, which the model does not; empty pieces are never terms (Keywords.HasToken).
- Searcher.LuceneSearcher.DoUpdateEntry: the id's terms are cut at `' '` only (Keywords.HasToken); an id with another whitespace character is one term in the model but several in Lucene.
- Searcher.LuceneSearcher.DoRemoveEntry: the same cut at `' '` only, as for DoUpdateEntry.
- Searcher.LuceneSearcher.GetPath: the model keeps the raw concatenation `storeDir + name`; `Paths.get` also normalises the text (a trailing or doubled `/` is dropped), which is not modelled.
- Misc.toLong is left out: the stored score is modelled as the long value the entry was written with, so a malformed stored score falling back to 0 does not arise.
- Java's 32-bit `int` overflow of `(page - 1) * getPageSize()` and of `preNum + getPageSize()` is not modelled; integers are unbounded.
- The cursor reads one fixed engine answer. In the source, every count and every fetch calls getIndexSearcher again (LucenceIndexResults.java lines 59 and 86), and a write in between closes the cached reader (LuceneSearcher.java lines 107 and 129), so a later fetch can see a changed index. Paging.ResumeEqualsRescan, Paging.CursorsValid and the memoised count are therefore proved only for an index that does not change during the cursor's life. IOExceptions from these calls (count, searchAfter, doc) are not modelled either.
- doGetCount is folded into IndexResults.LucenceIndexResults.GetCount, which reads the fixed engine's count.
- iterator() is not modelled; the model reads currentResult directly.
- The null-sort and non-null-sort searchAfter overloads are one call: the sort is part of the engine answer the cursor is given.
- AbstractResultPage (getPage, getPageSum, the base setPageSize and its page-size checks), AbstractSearcher (updateEntry, search, isOption and the option bits) and LuceneSearcherHub are not part of this model.
- IndexResults.LucenceIndexResults.DoGetResult: requires p >= 1. For p <= 0 the source would ask searchAfter for a non-positive number of hits; its only caller, gotoPage, refuses such pages first.
- IndexResults.LucenceIndexResults.SetPageSize: requires size >= 1, standing for the unseen base class's own checks; the model keeps pageSize >= 1 as an invariant.
- Searcher.LuceneSearcher.GetIndexSearcher: requires that a newly opened reader's identity was never closed before; reader identities are a modelling device.
- Searcher.LuceneSearcher.DoUpdateEntry: requires at least one keyword, as createKeyword does: with none it would call `keywords.get(0)` and throw.

## Findings

| source | as written | input that shows it | evidently intended | confidence | as-written member | corrected member |
|---|---|---|---|---|---|---|
| src/main/java/org/bossky/search/lucene/LucenceIndexResults.java:133-134 | gotoPage replaces currentResult but leaves `index` where iteration of the previous page left it | page size 1, two stored matches: gotoPage(1), next(), gotoPage(2) returns true, yet hasNext() is false and page 2 cannot be read with next() | fetching a new page rewinds the iteration index to 0, so hasNext() holds after every successful gotoPage | not executed | IndexResults.LucenceIndexResults.GotoPage, Scenarios.StaleIndexAfterGotoPage | IndexResults.LucenceIndexResults.GotoPageRewinding, Scenarios.RewoundIndexAfterGotoPage |
