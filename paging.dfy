/**
 * The page arithmetic behind LucenceIndexResults.doGetResult, stated over
 * the abstract engine: which search a page fetch issues, which hits it keeps,
 * which cursor it records, and what the page "should" be. The headline
 * theorem is ResumeEqualsRescan: resuming after the cursor recorded for the
 * previous page yields exactly the hits that a re-scan from the top keeps.
 */
module Paging {
  import opened Wrappers
  import opened Engine

  /** LucenceIndexResults.SimpleIndexResult: the key and score of one result. */
  datatype IndexResult = SimpleIndexResult(key: string, score: int)

  /** One call of searchAfter: the resume token (null for "from the top") and the hit limit. */
  datatype SearchCall = SearchCall(after: Option<ScoreDoc>, limit: int)

  /** What one hit contributes to a page: its stored key and score, or nothing when the lookup returns null. */
  function Lookup(e: Engine, h: ScoreDoc): (r: seq<IndexResult>)
    ensures |r| <= 1
    ensures r == [] <==> h.doc !in e.store
    ensures r != [] ==> r[0] == SimpleIndexResult(e.store[h.doc].key, e.store[h.doc].score)
  {
    if h.doc in e.store then [SimpleIndexResult(e.store[h.doc].key, e.store[h.doc].score)] else []
  }

  /** The results a run of hits resolves to, in the hits' order (the loop body of doGetResult). */
  function Resolve(e: Engine, hits: seq<ScoreDoc>): seq<IndexResult>
    decreases |hits|
  {
    if hits == [] then [] else Resolve(e, hits[..|hits| - 1]) + Lookup(e, hits[|hits| - 1])
  }

  /** Resolving two runs one after the other gives the results of the joined run: order is kept. */
  lemma {:induction false} ResolveConcat(e: Engine, a: seq<ScoreDoc>, b: seq<ScoreDoc>)
    ensures Resolve(e, a + b) == Resolve(e, a) + Resolve(e, b)
    decreases |b|
  {
    if b == [] {
      assert a + b == a;
    } else {
      var b' := b[..|b| - 1];
      assert (a + b)[..|a + b| - 1] == a + b';
      assert (a + b)[|a + b| - 1] == b[|b| - 1];
      ResolveConcat(e, a, b');
    }
  }

  /** A run of hits resolves to at most as many results as it has hits. */
  lemma {:induction false} ResolveBound(e: Engine, hits: seq<ScoreDoc>)
    ensures |Resolve(e, hits)| <= |hits|
    decreases |hits|
  {
    if hits != [] {
      ResolveBound(e, hits[..|hits| - 1]);
    }
  }

  /** When every hit's document is stored, the results are exactly the hits' documents, one for one, in ranked order. */
  lemma {:induction false} ResolveAllStored(e: Engine, hits: seq<ScoreDoc>)
    requires forall k :: 0 <= k < |hits| ==> hits[k].doc in e.store
    ensures |Resolve(e, hits)| == |hits|
    ensures forall k :: 0 <= k < |hits| ==>
      Resolve(e, hits)[k] == SimpleIndexResult(e.store[hits[k].doc].key, e.store[hits[k].doc].score)
    decreases |hits|
  {
    if hits != [] {
      var init := hits[..|hits| - 1];
      ResolveAllStored(e, init);
      assert forall k :: 0 <= k < |init| ==> init[k] == hits[k];
    }
  }

  /** A single hit resolves to its own lookup. */
  lemma ResolveSingle(e: Engine, h: ScoreDoc)
    ensures Resolve(e, [h]) == Lookup(e, h)
  {
    assert [h][..0] == [];
  }

  /** Extending a run by one hit adds that hit's lookup at the end. */
  lemma ResolveSnoc(e: Engine, hits: seq<ScoreDoc>, lo: nat, i: nat)
    requires lo <= i < |hits|
    ensures Resolve(e, hits[lo..i + 1]) == Resolve(e, hits[lo..i]) + Lookup(e, hits[i])
  {
    var run := hits[lo..i + 1];
    assert run[..|run| - 1] == hits[lo..i];
    assert run[|run| - 1] == hits[i];
  }

  /** A hit whose document lookup returns null is dropped: the results around it are those of the hits before and after it. */
  lemma ResolveDropsMissing(e: Engine, hits: seq<ScoreDoc>, i: nat)
    requires i < |hits| && hits[i].doc !in e.store
    ensures Resolve(e, hits) == Resolve(e, hits[..i]) + Resolve(e, hits[i + 1..])
  {
    var before, after := hits[..i], hits[i + 1..];
    assert hits == (before + [hits[i]]) + after;
    ResolveConcat(e, before + [hits[i]], after);
    ResolveConcat(e, before, [hits[i]]);
    ResolveSingle(e, hits[i]);
  }

  // ---------------------------------------------------------------------
  // What page p of size ps is
  // ---------------------------------------------------------------------

  lemma PageProduct(p: int, ps: int)
    requires p >= 1 && ps >= 1
    ensures (p - 1) * ps + ps == p * ps
    ensures 0 <= (p - 1) * ps < p * ps
  {
  }

  /** The rank of the first hit of page p, clamped to the end of the ranking. */
  function PageStart(e: Engine, p: int, ps: int): (r: nat)
    requires p >= 1 && ps >= 1
    ensures r <= Count(e)
  {
    PageProduct(p, ps);
    Min((p - 1) * ps, Count(e))
  }

  /** The rank just past the last hit of page p, clamped to the end of the ranking. */
  function PageEnd(e: Engine, p: int, ps: int): (r: nat)
    requires p >= 1 && ps >= 1
    ensures PageStart(e, p, ps) <= r <= Count(e)
  {
    PageProduct(p, ps);
    Min(p * ps, Count(e))
  }

  /** The ranked hits that belong on page p. */
  function PageHits(e: Engine, p: int, ps: int): seq<ScoreDoc>
    requires p >= 1 && ps >= 1
  {
    Hits(e, PageStart(e, p, ps), PageEnd(e, p, ps))
  }

  /** The results page p should show: its hits, resolved. */
  function Page(e: Engine, p: int, ps: int): seq<IndexResult>
    requires p >= 1 && ps >= 1
  {
    Resolve(e, PageHits(e, p, ps))
  }

  /** A page never holds more than the page size, whatever the lookups return. */
  lemma PageBound(e: Engine, p: int, ps: int)
    requires p >= 1 && ps >= 1
    ensures |PageHits(e, p, ps)| <= ps
    ensures |Page(e, p, ps)| <= ps
  {
    PageProduct(p, ps);
    ResolveBound(e, PageHits(e, p, ps));
  }

  /** getPageSum, assumed to be the ceiling of the match count over the page size. */
  function PageSum(n: nat, ps: int): nat
    requires ps >= 1
  {
    (n + ps - 1) / ps
  }

  lemma MulMono(x: int, y: int, b: int)
    requires x <= y && b >= 0
    ensures x * b <= y * b
  {
  }

  lemma FloorDivBound(a: int, b: int, p: int)
    requires a >= 0 && b >= 1
    ensures p <= a / b <==> p * b <= a
  {
    var q, r := a / b, a % b;
    assert a == q * b + r && 0 <= r < b;
    if p <= q {
      MulMono(p, q, b);
    } else {
      MulMono(q + 1, p, b);
      assert (q + 1) * b == q * b + b;
    }
  }

  /** Page p (from 1) has hits exactly when p is at most the page sum: the sum counts the non-empty pages. */
  lemma PageNonEmptyIffWithinSum(e: Engine, p: int, ps: int)
    requires p >= 1 && ps >= 1
    ensures PageHits(e, p, ps) != [] <==> p <= PageSum(Count(e), ps)
  {
    PageProduct(p, ps);
    FloorDivBound(Count(e) + ps - 1, ps, p);
  }

  /** With every ranked document stored, the pages within the page sum are exactly the non-empty ones. */
  lemma PageNonEmptyAllStored(e: Engine, p: int, ps: int)
    requires p >= 1 && ps >= 1
    requires AllStored(e)
    ensures Page(e, p, ps) != [] <==> p <= PageSum(Count(e), ps)
  {
    PageNonEmptyIffWithinSum(e, p, ps);
    var hits := PageHits(e, p, ps);
    forall k | 0 <= k < |hits| ensures hits[k].doc in e.store {
      assert hits[k] == HitAt(e, PageStart(e, p, ps) + k);
    }
    ResolveAllStored(e, hits);
  }

  /** A page within the page sum is never empty when every ranked document is stored. */
  lemma WithinSumAllStored(e: Engine, p: int, ps: int)
    requires 1 <= p && ps >= 1 && p <= PageSum(Count(e), ps)
    ensures AllStored(e) ==> Page(e, p, ps) != []
  {
    if AllStored(e) {
      PageNonEmptyAllStored(e, p, ps);
    }
  }

  // ---------------------------------------------------------------------
  // What doGetResult does
  // ---------------------------------------------------------------------

  /** Whether a cursor recorded for page p - 1 lets page p resume instead of re-scanning. */
  predicate CanResume(cursors: map<int, ScoreDoc>, p: int)
  {
    p > 0 && p - 1 in cursors
  }

  /** The searchAfter call doGetResult issues for page p. */
  function PlanCall(cursors: map<int, ScoreDoc>, p: int, ps: int): (c: SearchCall)
    requires p >= 1 && ps >= 1
    ensures c.limit >= 1
  {
    PageProduct(p, ps);
    if CanResume(cursors, p) then SearchCall(Some(cursors[p - 1]), ps)
    else SearchCall(None, (p - 1) * ps + ps)
  }

  /** How many of the returned hits doGetResult skips before it resolves the rest. */
  function PlanSkip(cursors: map<int, ScoreDoc>, p: int, ps: int): (k: nat)
    requires p >= 1 && ps >= 1
  {
    PageProduct(p, ps);
    if CanResume(cursors, p) then 0 else (p - 1) * ps
  }

  /** The hits the engine returns for doGetResult's call. */
  function FetchHits(e: Engine, cursors: map<int, ScoreDoc>, p: int, ps: int): seq<ScoreDoc>
    requires p >= 1 && ps >= 1
  {
    var c := PlanCall(cursors, p, ps);
    SearchAfter(e, c.after, c.limit)
  }

  /** The hits of s from index k on; none when k is past the end (the loop `for (i = k; i < s.length; i++)`). */
  function Drop(s: seq<ScoreDoc>, k: nat): (r: seq<ScoreDoc>)
    ensures k <= |s| ==> r == s[k..]
    ensures k >= |s| ==> r == []
  {
    if k < |s| then s[k..] else []
  }

  /** The list doGetResult returns for page p. */
  function Fetched(e: Engine, cursors: map<int, ScoreDoc>, p: int, ps: int): seq<IndexResult>
    requires p >= 1 && ps >= 1
  {
    Resolve(e, Drop(FetchHits(e, cursors, p, ps), PlanSkip(cursors, p, ps)))
  }

  /** The cursor map after doGetResult for page p: the last hit returned is recorded for p, unless there was none. */
  function Recorded(e: Engine, cursors: map<int, ScoreDoc>, p: int, ps: int): map<int, ScoreDoc>
    requires p >= 1 && ps >= 1
  {
    var hits := FetchHits(e, cursors, p, ps);
    if hits == [] then cursors else cursors[p := hits[|hits| - 1]]
  }

  /** A token is the cursor of page q when it is the last hit that belongs on page q. */
  predicate EndsPage(e: Engine, q: int, ps: int, tok: ScoreDoc)
    requires q >= 1 && ps >= 1
  {
    PageEnd(e, q, ps) >= 1 && tok == HitAt(e, PageEnd(e, q, ps) - 1)
  }

  /** Every cursor in the map is the last hit of its page, for page numbers from 1. */
  predicate CursorsValid(e: Engine, cursors: map<int, ScoreDoc>, ps: int)
    requires ps >= 1
  {
    forall q :: q in cursors ==> q >= 1 && EndsPage(e, q, ps, cursors[q])
  }

  /** The expensive path: fetching (p-1)*ps + ps hits from the top and skipping (p-1)*ps leaves page p. */
  lemma RescanIsPage(e: Engine, p: int, ps: int)
    requires p >= 1 && ps >= 1
    ensures (p - 1) * ps + ps >= 1
    ensures Drop(SearchAfter(e, None, (p - 1) * ps + ps), (p - 1) * ps) == PageHits(e, p, ps)
  {
    PageProduct(p, ps);
    var n := Count(e);
    var hits := SearchAfter(e, None, (p - 1) * ps + ps);
    assert hits == Hits(e, 0, Min(p * ps, n));
    if (p - 1) * ps < n {
      HitsDrop(e, 0, Min(p * ps, n), (p - 1) * ps);
    } else {
      assert PageStart(e, p, ps) == PageEnd(e, p, ps) == n;
    }
  }

  /** The cheap path: resuming after the cursor of page p - 1 and taking ps hits gives page p. */
  lemma ResumeIsPage(e: Engine, p: int, ps: int, tok: ScoreDoc)
    requires p >= 2 && ps >= 1
    requires EndsPage(e, p - 1, ps, tok)
    ensures SearchAfter(e, Some(tok), ps) == PageHits(e, p, ps)
  {
    PageProduct(p - 1, ps);
    PageProduct(p, ps);
    assert (p - 2) * ps + ps == (p - 1) * ps;
    var n := Count(e);
    var start := ResumeRank(e, Some(tok));
    assert start == PageEnd(e, p - 1, ps) == PageStart(e, p, ps);
    if (p - 1) * ps <= n {
      assert Min(start + ps, n) == PageEnd(e, p, ps);
    } else {
      assert start == n && PageEnd(e, p, ps) == n;
    }
  }

  /**
   * The headline property: when a cursor is recorded for page p - 1, the
   * resume path of doGetResult returns the same hits as its re-scan path.
   */
  lemma ResumeEqualsRescan(e: Engine, p: int, ps: int, tok: ScoreDoc)
    requires p >= 2 && ps >= 1
    requires EndsPage(e, p - 1, ps, tok)
    ensures (p - 1) * ps + ps >= 1
    ensures SearchAfter(e, Some(tok), ps) == Drop(SearchAfter(e, None, (p - 1) * ps + ps), (p - 1) * ps)
  {
    ResumeIsPage(e, p, ps, tok);
    RescanIsPage(e, p, ps);
  }

  /** Whichever path doGetResult takes over a valid cursor map, it keeps exactly the hits of page p and returns page p. */
  lemma FetchIsPage(e: Engine, cursors: map<int, ScoreDoc>, p: int, ps: int)
    requires p >= 1 && ps >= 1
    requires CursorsValid(e, cursors, ps)
    ensures Drop(FetchHits(e, cursors, p, ps), PlanSkip(cursors, p, ps)) == PageHits(e, p, ps)
    ensures Fetched(e, cursors, p, ps) == Page(e, p, ps)
  {
    if CanResume(cursors, p) {
      assert p - 1 in cursors;
      ResumeIsPage(e, p, ps, cursors[p - 1]);
    } else {
      RescanIsPage(e, p, ps);
    }
  }

  /** Recording the last returned hit against page p keeps every cursor the last hit of its page. */
  lemma RecordedValid(e: Engine, cursors: map<int, ScoreDoc>, p: int, ps: int)
    requires p >= 1 && ps >= 1
    requires CursorsValid(e, cursors, ps)
    ensures CursorsValid(e, Recorded(e, cursors, p, ps), ps)
  {
    var hits := FetchHits(e, cursors, p, ps);
    if hits != [] {
      PageProduct(p, ps);
      var n := Count(e);
      if CanResume(cursors, p) {
        assert p - 1 in cursors;
        PageProduct(p - 1, ps);
        assert (p - 2) * ps + ps == (p - 1) * ps;
        var start := ResumeRank(e, Some(cursors[p - 1]));
        assert start == PageEnd(e, p - 1, ps);
        assert start < n;
        assert Min(start + ps, n) == PageEnd(e, p, ps);
      } else {
        assert hits == Hits(e, 0, Min(p * ps, n));
      }
      assert EndsPage(e, p, ps, hits[|hits| - 1]);
    }
  }

  /**
   * doGetResult's result and cursor map, in terms of the hits it got back:
   * page p is the returned hits after the skip, resolved; no hits leave the
   * map as it was, otherwise p records the last hit, and the map stays valid.
   */
  lemma FetchOutcome(e: Engine, cursors: map<int, ScoreDoc>, p: int, ps: int, hits: seq<ScoreDoc>)
    requires p >= 1 && ps >= 1
    requires CursorsValid(e, cursors, ps)
    requires hits == FetchHits(e, cursors, p, ps)
    ensures Resolve(e, Drop(hits, PlanSkip(cursors, p, ps))) == Fetched(e, cursors, p, ps) == Page(e, p, ps)
    ensures |Page(e, p, ps)| <= ps
    ensures hits == [] ==> Page(e, p, ps) == [] && Recorded(e, cursors, p, ps) == cursors
    ensures hits != [] ==> Recorded(e, cursors, p, ps) == cursors[p := hits[|hits| - 1]]
    ensures CursorsValid(e, Recorded(e, cursors, p, ps), ps)
  {
    FetchIsPage(e, cursors, p, ps);
    PageBound(e, p, ps);
    RecordedValid(e, cursors, p, ps);
  }

  // ---------------------------------------------------------------------
  // Sequential traversal
  // ---------------------------------------------------------------------

  /** The results of pages 1..k, concatenated. */
  function Pages(e: Engine, k: nat, ps: int): seq<IndexResult>
    requires ps >= 1
  {
    if k == 0 then [] else Pages(e, k - 1, ps) + Page(e, k, ps)
  }

  /** Pages 1..k together are the first k*ps ranked matches (all of them when there are fewer), resolved. */
  lemma {:induction false} SequentialPages(e: Engine, k: nat, ps: int)
    requires ps >= 1
    ensures k * ps >= 0
    ensures Pages(e, k, ps) == Resolve(e, Hits(e, 0, Min(k * ps, Count(e))))
  {
    if k == 0 {
      assert Hits(e, 0, 0) == [];
    } else {
      PageProduct(k, ps);
      SequentialPages(e, k - 1, ps);
      var mid := Min((k - 1) * ps, Count(e));
      var hi := Min(k * ps, Count(e));
      HitsSplit(e, 0, mid, hi);
      ResolveConcat(e, Hits(e, 0, mid), Hits(e, mid, hi));
    }
  }

  /** When every ranked document is stored, pages 1..k are the first k*ps ranked documents' results, one for one. */
  lemma SequentialPagesAllStored(e: Engine, k: nat, ps: int)
    requires ps >= 1
    requires AllStored(e)
    ensures k * ps >= 0
    ensures |Pages(e, k, ps)| == Min(k * ps, Count(e))
    ensures forall i :: 0 <= i < |Pages(e, k, ps)| ==>
      Pages(e, k, ps)[i] == SimpleIndexResult(e.store[e.ranked[i]].key, e.store[e.ranked[i]].score)
  {
    SequentialPages(e, k, ps);
    var hits := Hits(e, 0, Min(k * ps, Count(e)));
    ResolveAllStored(e, hits);
  }
}
