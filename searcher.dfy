/**
 * LuceneSearcher: the index at one storage path, a lazily opened and cached
 * read handle onto it, and the write paths that invalidate that handle.
 * The engine's reader, writer and directory are foreign: opening a reader and
 * performing a write are given as outcomes. A successful write deletes every
 * committed document whose analysed id field holds the entry's key as a term
 * (the id is a tokenised text field, the delete is by Term), and an update
 * then adds the new document.
 */
module Searcher {
  import opened Wrappers
  import opened Keywords
  import opened LuceneQuery
  import Engine
  import IndexResults

  /** The document doUpdateEntry writes: the key, the score (stored and sortable) and the joined keywords. */
  datatype IndexDoc = IndexDoc(id: string, score: int, keywords: string)

  /** An open IndexSearcher: its reader's identity and the committed documents it sees. */
  datatype Handle = Handle(id: nat, snapshot: seq<IndexDoc>)

  /** What DirectoryReader.open does: a fresh reader, or an IOException. */
  datatype OpenOutcome = Opened(id: nat) | OpenIOError

  /** What the IndexWriter calls of a write path do: succeed, or raise an IOException. */
  datatype WriteOutcome = Written | WriteIOError

  /** The SearchException kinds: the searcher could not be opened, or the index could not be written. */
  datatype SearchError = OpenFailed | WriteFailed

  /** The reader ids a cached handle holds: none or one. */
  function HeldIds(h: Option<Handle>): (ids: set<nat>)
    ensures h.None? ==> ids == {}
    ensures h.Some? ==> ids == {h.value.id}
  {
    if h.Some? then {h.value.id} else {}
  }

  /** The documents a delete by Term(ID_FIELD_NAME, term) leaves: those whose id does not hold the term. */
  function WithoutTerm(docs: seq<IndexDoc>, term: string): (r: seq<IndexDoc>)
    ensures |r| <= |docs|
    ensures forall d :: d in r <==> d in docs && !HasToken(d.id, term)
  {
    if docs == [] then []
    else (if HasToken(docs[0].id, term) then [] else [docs[0]]) + WithoutTerm(docs[1..], term)
  }

  /**
   * When every id and the key are single separator-free terms, the delete by
   * Term is an exact delete by key.
   */
  lemma WithoutTermSingleTokens(docs: seq<IndexDoc>, key: string)
    requires key != [] && KEYWORD_SPLIT !in key
    requires forall d :: d in docs ==> KEYWORD_SPLIT !in d.id
    ensures forall d :: d in WithoutTerm(docs, key) <==> d in docs && d.id != key
  {
    forall d | d in docs
      ensures HasToken(d.id, key) <==> d.id == key
    {
      SingleTokenMatch(d.id, key);
    }
  }

  /**
   * A key that is more than one term: writing "a b" deletes nothing (its
   * document stays, so an update adds a duplicate), while writing or removing
   * "a" deletes the document of "a b".
   */
  lemma TwoTokenKeyWrites(d: IndexDoc)
    requires d.id == "a b"
    ensures WithoutTerm([d], "a b") == [d]
    ensures WithoutTerm([d], "a") == []
  {
    TwoTokenKey();
  }

  class LuceneSearcher {
    /** The storage directory (possibly null) and the searcher's name. */
    const storeDir: Option<string>
    const name: string
    /** The cached searcher, null until opened and after every write. */
    var searcher: Option<Handle>
    /** The documents committed to the index at getPath(), in the order they were added. */
    var stored: seq<IndexDoc>

    /** The readers that have been closed. */
    ghost var closed: set<nat>
    /** How many times a reader open was attempted. */
    ghost var opens: nat

    /** The cache is never stale and never holds a closed reader. */
    ghost predicate Valid()
      reads this
    {
      searcher.Some? ==> searcher.value.id !in closed && searcher.value.snapshot == stored
    }

    /** A searcher over an existing index; no handle is cached yet. */
    constructor (storeDir: Option<string>, name: string, onDisk: seq<IndexDoc>)
      ensures Valid()
      ensures this.storeDir == storeDir && this.name == name
      ensures searcher.None? && stored == onDisk && closed == {} && opens == 0
    {
      this.storeDir := storeDir;
      this.name := name;
      searcher := None;
      stored := onDisk;
      closed := {};
      opens := 0;
    }

    /** getPath: the name alone without a store directory, otherwise the two joined with no separator added. */
    function GetPath(): (path: string)
      ensures storeDir.None? ==> path == name
      ensures storeDir.Some? ==> path == storeDir.value + name
      ensures |path| >= |name| && path[|path| - |name|..] == name
    {
      if storeDir.None? then name else storeDir.value + name
    }

    /**
     * getIndexSearcher: the cached handle if there is one; otherwise open a
     * reader and publish it only if the open succeeded.
     */
    method GetIndexSearcher(open: OpenOutcome) returns (r: Result<Handle, SearchError>)
      requires Valid()
      requires open.Opened? ==> open.id !in closed
      modifies this`searcher, this`opens
      ensures Valid()
      ensures stored == old(stored) && closed == old(closed)
      // a cached handle is returned as it is, and nothing is opened
      ensures old(searcher).Some? ==>
        r == Success(old(searcher).value) && searcher == old(searcher) && opens == old(opens)
      // otherwise one open is attempted
      ensures old(searcher).None? ==> opens == old(opens) + 1
      ensures old(searcher).None? && open.OpenIOError? ==> r == Failure(OpenFailed) && searcher.None?
      ensures old(searcher).None? && open.Opened? ==>
        r == Success(Handle(open.id, stored)) && searcher == Some(r.value)
      // whatever is returned is open and sees the committed index
      ensures r.Success? ==> r.value.id !in closed && r.value.snapshot == stored
    {
      if searcher.Some? {
        return Success(searcher.value);
      }
      opens := opens + 1;
      match open
      case OpenIOError =>
        return Failure(OpenFailed);
      case Opened(id) =>
        var newSearcher := Handle(id, stored);
        searcher := Some(newSearcher);
        r := Success(newSearcher);
    }

    /** destoryIndexSeacher: close the cached handle's reader, if any, and empty the cache. */
    method DestroyIndexSearcher()
      modifies this`searcher, this`closed
      ensures searcher.None?
      ensures closed == old(closed) + HeldIds(old(searcher))
      ensures Valid()
    {
      if searcher.Some? {
        closed := closed + {searcher.value.id};
        searcher := None;
      }
    }

    /**
     * doUpdateEntry: updateDocument deletes the documents whose id holds the
     * key as a term and adds the entry's document; the cache is invalidated
     * only once the write has succeeded.
     */
    method DoUpdateEntry(key: string, score: int, keywords: seq<string>, write: WriteOutcome)
      returns (r: Outcome<SearchError>)
      requires Valid() && |keywords| >= 1
      modifies this`searcher, this`closed, this`stored
      ensures Valid()
      ensures r == (if write.Written? then Pass else Fail(WriteFailed))
      ensures write.WriteIOError? ==> searcher == old(searcher) && stored == old(stored) && closed == old(closed)
      ensures write.Written? ==>
        && stored == WithoutTerm(old(stored), key) + [IndexDoc(key, score, Join(keywords))]
        && searcher.None?
        && closed == old(closed) + HeldIds(old(searcher))
    {
      var keyword := CreateKeyword(keywords);
      var doc := IndexDoc(key, score, keyword);
      if write.WriteIOError? {
        return Fail(WriteFailed);
      }
      stored := WithoutTerm(stored, key) + [doc];
      DestroyIndexSearcher();
      r := Pass;
    }

    /** doRemoveEntry: delete the documents whose id holds the key as a term, invalidating the cache only on success. */
    method DoRemoveEntry(key: string, write: WriteOutcome) returns (r: Outcome<SearchError>)
      requires Valid()
      modifies this`searcher, this`closed, this`stored
      ensures Valid()
      ensures r == (if write.Written? then Pass else Fail(WriteFailed))
      ensures write.WriteIOError? ==> searcher == old(searcher) && stored == old(stored) && closed == old(closed)
      ensures write.Written? ==>
        && stored == WithoutTerm(old(stored), key)
        && searcher.None?
        && closed == old(closed) + HeldIds(old(searcher))
    {
      if write.WriteIOError? {
        return Fail(WriteFailed);
      }
      stored := WithoutTerm(stored, key);
      DestroyIndexSearcher();
      r := Pass;
    }

    /**
     * doSearch: translate the options and keywords into a query and sort and
     * open a cursor over them; `answer` is the engine's ranking for that
     * query and sort, and page and pageSize are the base class's start values.
     */
    method DoSearch(ascending: bool, descending: bool, begin: Option<string>, end: Option<string>,
                    keywords: seq<QueryKeyword>, answer: Engine.Engine, page: int, pageSize: int)
      returns (r: Result<IndexResults.LucenceIndexResults, QueryError>)
      requires pageSize >= 1
      ensures QueryFor(begin, end, keywords).Failure? ==> r == Failure(QueryFor(begin, end, keywords).error)
      ensures QueryFor(begin, end, keywords).Success? ==>
        && r.Success? && fresh(r.value) && r.value.Valid()
        && r.value.query == QueryFor(begin, end, keywords).value
        && r.value.sort == SortFor(ascending, descending)
        && r.value.engine == answer && r.value.page == page && r.value.pageSize == pageSize
        && r.value.count == -1 && r.value.currentResult == [] && r.value.lastDocIdfromPage == map[]
    {
      var query := BuildQuery(begin, end, keywords);
      if query.Failure? {
        return Failure(query.error);
      }
      var sort := SortFor(ascending, descending);
      var cursor := new IndexResults.LucenceIndexResults(query.value, sort, answer, page, pageSize);
      r := Success(cursor);
    }
  }

  /**
   * The write path and the cache together: after a successful update, the
   * next getIndexSearcher opens a new reader, which sees the written document
   * and no other document whose id holds the key.
   */
  method UpdateThenSearch(onDisk: seq<IndexDoc>, cachedId: nat, key: string, score: int,
                          keywords: seq<string>, freshId: nat)
    returns (written: Outcome<SearchError>, handle: Result<Handle, SearchError>)
    requires |keywords| >= 1 && freshId != cachedId
    ensures written == Pass
    ensures handle.Success? && handle.value.id == freshId
    ensures IndexDoc(key, score, Join(keywords)) in handle.value.snapshot
    ensures forall d :: d in handle.value.snapshot && d != IndexDoc(key, score, Join(keywords)) ==> !HasToken(d.id, key)
  {
    var s := new LuceneSearcher(None, "user", onDisk);
    var first := s.GetIndexSearcher(Opened(cachedId));
    written := s.DoUpdateEntry(key, score, keywords, Written);
    assert s.closed == {cachedId};
    handle := s.GetIndexSearcher(Opened(freshId));
  }
}
