/**
 * The index engine, seen from the paged cursor: for one fixed query and sort
 * it holds a ranked sequence of matching documents, and it can look stored
 * documents up by their internal reference. A cursor token (Lucene's
 * ScoreDoc) is a match together with its position in that ranking;
 * searchAfter resumes right after the token's position.
 */
module Engine {
  import opened Wrappers

  /** Lucene's internal document number. */
  type DocRef = int

  /** The two stored fields the cursor reads back: the key and the score (already a long). */
  datatype StoredDoc = StoredDoc(key: string, score: int)

  /** One ranked match: the document and its rank, which serves as the resume token. */
  datatype ScoreDoc = ScoreDoc(doc: DocRef, rank: nat)

  /**
   * The engine's answer to one (query, sort) pair: the ranked matches and the
   * stored documents. A reference missing from `store` is a document whose
   * lookup returns null.
   */
  datatype Engine = Engine(ranked: seq<DocRef>, store: map<DocRef, StoredDoc>)

  /** Whether every ranked match has a stored document (no lookup returns null). */
  predicate AllStored(e: Engine)
  {
    forall i :: 0 <= i < |e.ranked| ==> e.ranked[i] in e.store
  }

  /** The number of matches, what IndexSearcher.count reports. */
  function Count(e: Engine): nat
  {
    |e.ranked|
  }

  /** The match at rank `i`. */
  function HitAt(e: Engine, i: nat): (h: ScoreDoc)
    requires i < Count(e)
    ensures h.rank == i
  {
    ScoreDoc(e.ranked[i], i)
  }

  /** The matches of ranks lo up to, not including, hi, in ranked order. */
  function Hits(e: Engine, lo: nat, hi: nat): (r: seq<ScoreDoc>)
    requires lo <= hi <= Count(e)
    ensures |r| == hi - lo
    ensures forall k :: 0 <= k < |r| ==> r[k] == HitAt(e, lo + k)
  {
    seq(hi - lo, k requires 0 <= k < hi - lo => HitAt(e, lo + k))
  }

  /** Where a search resumes: right after the token, or at the top without one. */
  function ResumeRank(e: Engine, after: Option<ScoreDoc>): (start: nat)
    ensures start <= Count(e)
  {
    match after
    case None => 0
    case Some(tok) => Min(tok.rank + 1, Count(e))
  }

  /**
   * IndexSearcher.searchAfter: at most `limit` matches following `after`
   * (or from the top when `after` is absent), in ranked order. Lucene
   * refuses to collect fewer than one hit.
   */
  function SearchAfter(e: Engine, after: Option<ScoreDoc>, limit: int): (r: seq<ScoreDoc>)
    requires limit >= 1
    ensures |r| <= limit
    ensures r == Hits(e, ResumeRank(e, after), Min(ResumeRank(e, after) + limit, Count(e)))
  {
    var start := ResumeRank(e, after);
    Hits(e, start, Min(start + limit, Count(e)))
  }

  /** Consecutive rank ranges join into one range. */
  lemma HitsSplit(e: Engine, lo: nat, mid: nat, hi: nat)
    requires lo <= mid <= hi <= Count(e)
    ensures Hits(e, lo, mid) + Hits(e, mid, hi) == Hits(e, lo, hi)
  {
    var a, b, c := Hits(e, lo, mid), Hits(e, mid, hi), Hits(e, lo, hi);
    assert |a + b| == |c|;
    forall k | 0 <= k < |c| ensures (a + b)[k] == c[k] {
      if k < |a| {
        assert (a + b)[k] == a[k];
      } else {
        assert (a + b)[k] == b[k - |a|];
      }
    }
  }

  /** Dropping the first k matches of a range from lo leaves the range from lo + k. */
  lemma HitsDrop(e: Engine, lo: nat, hi: nat, k: nat)
    requires lo + k <= hi <= Count(e)
    ensures Hits(e, lo, hi)[k..] == Hits(e, lo + k, hi)
  {
    var a, b := Hits(e, lo, hi)[k..], Hits(e, lo + k, hi);
    assert |a| == |b|;
    forall j | 0 <= j < |a| ensures a[j] == b[j] {
      assert a[j] == Hits(e, lo, hi)[k + j];
    }
  }
}
