/**
 * The query and sort that LuceneSearcher.doSearch builds, as data: a boolean
 * query of MUST clauses (an optional range over the keyword field, then one
 * clause per query keyword) and an optional score sort.
 */
module LuceneQuery {
  import opened Wrappers

  /** The stored field names of an index document. */
  const ID_FIELD_NAME: string := "id"
  const SCORE_FIELD_NAME: string := "s"
  const KEYWORD_FIELD_NAME: string := "ks"

  /** The type code of a QueryKeyword: the two codes doSearch recognises, or any other code. */
  datatype KeywordType = EntryPrefix | KeywordAll | Unrecognized(code: int)

  datatype QueryKeyword = QueryKeyword(kind: KeywordType, value: string)

  /** One MUST clause of the boolean query. */
  datatype Clause =
    | TermRange(field: string, lower: Option<string>, upper: Option<string>, includeLower: bool, includeUpper: bool)
    | Prefix(field: string, prefix: string)
    | TermMatch(field: string, term: string)

  /** BooleanQuery.Builder's result: every clause must match. */
  datatype Query = BooleanQuery(musts: seq<Clause>)

  /** A sort key: relevance (SortField.FIELD_SCORE) or a long-valued field, possibly reversed. */
  datatype SortField = Relevance | LongField(field: string, reverse: bool)

  datatype Sort = Sort(fields: seq<SortField>)

  /** What doSearch raises: IllegalArgumentException for an unknown keyword type. */
  datatype QueryError = IllegalArgument(code: int)

  /** The clause a recognised keyword adds: a prefix on the id field or a term on the keyword field. */
  function KeywordClause(qk: QueryKeyword): (c: Clause)
    requires !qk.kind.Unrecognized?
  {
    if qk.kind.EntryPrefix? then Prefix(ID_FIELD_NAME, qk.value) else TermMatch(KEYWORD_FIELD_NAME, qk.value)
  }

  /** The range clause, present iff one of its bounds is: lower bound inclusive, upper bound exclusive. */
  function RangeClauses(begin: Option<string>, end: Option<string>): (cs: seq<Clause>)
    ensures |cs| == (if begin.Some? || end.Some? then 1 else 0)
    ensures cs != [] ==> cs[0] == TermRange(KEYWORD_FIELD_NAME, begin, end, true, false)
  {
    if begin.Some? || end.Some? then [TermRange(KEYWORD_FIELD_NAME, begin, end, true, false)] else []
  }

  /** The keyword clauses, in order; the leftmost keyword of an unknown type is the error. */
  function KeywordClauses(keywords: seq<QueryKeyword>): Result<seq<Clause>, QueryError>
    decreases |keywords|
  {
    if keywords == [] then Success([])
    else
      match KeywordClauses(keywords[..|keywords| - 1])
      case Failure(err) => Failure(err)
      case Success(cs) =>
        var last := keywords[|keywords| - 1];
        if last.kind.Unrecognized? then Failure(IllegalArgument(last.kind.code))
        else Success(cs + [KeywordClause(last)])
  }

  /** The query doSearch builds: the range clause, if any, then the keyword clauses. */
  function QueryFor(begin: Option<string>, end: Option<string>, keywords: seq<QueryKeyword>): Result<Query, QueryError>
  {
    match KeywordClauses(keywords)
    case Failure(err) => Failure(err)
    case Success(cs) => Success(BooleanQuery(RangeClauses(begin, end) + cs))
  }

  /** Once a prefix of the keywords fails, the whole list fails with the same error. */
  lemma {:induction false} KeywordClausesPrefixFailure(keywords: seq<QueryKeyword>, m: nat)
    requires m <= |keywords|
    requires KeywordClauses(keywords[..m]).Failure?
    ensures KeywordClauses(keywords) == KeywordClauses(keywords[..m])
    decreases |keywords| - m
  {
    if m < |keywords| {
      var longer := keywords[..m + 1];
      assert longer[..|longer| - 1] == keywords[..m];
      KeywordClausesPrefixFailure(keywords, m + 1);
    } else {
      assert keywords[..m] == keywords;
    }
  }

  /** The keyword clauses succeed exactly when every type is known, with one clause per keyword in order. */
  lemma {:induction false} KeywordClausesMeaning(keywords: seq<QueryKeyword>)
    ensures KeywordClauses(keywords).Success? <==> forall j :: 0 <= j < |keywords| ==> !keywords[j].kind.Unrecognized?
    ensures KeywordClauses(keywords).Success? ==>
      && |KeywordClauses(keywords).value| == |keywords|
      && forall j :: 0 <= j < |keywords| ==> KeywordClauses(keywords).value[j] == KeywordClause(keywords[j])
    ensures KeywordClauses(keywords).Failure? ==>
      exists j :: && 0 <= j < |keywords| && keywords[j].kind.Unrecognized?
                  && KeywordClauses(keywords).error == IllegalArgument(keywords[j].kind.code)
                  && forall i :: 0 <= i < j ==> !keywords[i].kind.Unrecognized?
    decreases |keywords|
  {
    if keywords != [] {
      var init := keywords[..|keywords| - 1];
      KeywordClausesMeaning(init);
      assert forall j :: 0 <= j < |init| ==> init[j] == keywords[j];
      if KeywordClauses(init).Failure? {
        var j :| && 0 <= j < |init| && init[j].kind.Unrecognized?
                 && KeywordClauses(init).error == IllegalArgument(init[j].kind.code)
                 && forall i :: 0 <= i < j ==> !init[i].kind.Unrecognized?;
        assert keywords[j] == init[j];
      }
    }
  }

  /**
   * doSearch's query: one MUST range clause on the keyword field iff a bound
   * is given, then one MUST clause per keyword in order; an unknown keyword
   * type is an IllegalArgumentException naming the leftmost such type.
   */
  lemma QueryForMeaning(begin: Option<string>, end: Option<string>, keywords: seq<QueryKeyword>)
    ensures QueryFor(begin, end, keywords).Success? <==> forall j :: 0 <= j < |keywords| ==> !keywords[j].kind.Unrecognized?
    ensures QueryFor(begin, end, keywords).Success? ==>
      var musts := QueryFor(begin, end, keywords).value.musts;
      var offset := if begin.Some? || end.Some? then 1 else 0;
      && |musts| == offset + |keywords|
      && (offset == 1 ==> musts[0] == TermRange(KEYWORD_FIELD_NAME, begin, end, true, false))
      && forall j :: 0 <= j < |keywords| ==> musts[offset + j] == KeywordClause(keywords[j])
    ensures QueryFor(begin, end, keywords).Failure? ==>
      exists j :: && 0 <= j < |keywords| && keywords[j].kind.Unrecognized?
                  && QueryFor(begin, end, keywords).error == IllegalArgument(keywords[j].kind.code)
                  && forall i :: 0 <= i < j ==> !keywords[i].kind.Unrecognized?
  {
    KeywordClausesMeaning(keywords);
  }

  /** doSearch's loop over the keywords, adding one MUST clause per keyword to the builder. */
  method BuildQuery(begin: Option<string>, end: Option<string>, keywords: seq<QueryKeyword>)
    returns (r: Result<Query, QueryError>)
    ensures r == QueryFor(begin, end, keywords)
  {
    var builder := RangeClauses(begin, end);
    var offset := |builder|;
    var n := 0;
    assert keywords[..0] == [] && builder[offset..] == [];
    while n < |keywords|
      invariant 0 <= n <= |keywords|
      invariant |builder| >= offset && builder[..offset] == RangeClauses(begin, end)
      invariant KeywordClauses(keywords[..n]) == Success(builder[offset..])
    {
      var qk := keywords[n];
      var prefix := keywords[..n + 1];
      assert prefix[..|prefix| - 1] == keywords[..n];
      var ksquery: Clause;
      if qk.kind.EntryPrefix? {
        ksquery := Prefix(ID_FIELD_NAME, qk.value);
      } else if qk.kind.KeywordAll? {
        ksquery := TermMatch(KEYWORD_FIELD_NAME, qk.value);
      } else {
        KeywordClausesPrefixFailure(keywords, n + 1);
        return Failure(IllegalArgument(qk.kind.code));
      }
      assert ksquery == KeywordClause(qk);
      assert (builder + [ksquery])[offset..] == builder[offset..] + [ksquery];
      builder := builder + [ksquery];
      n := n + 1;
    }
    assert keywords[..n] == keywords;
    assert builder == RangeClauses(begin, end) + builder[offset..];
    r := Success(BooleanQuery(builder));
  }

  /**
   * doSearch's sort selection from the two sort options: ascending wins over
   * descending; both sort by relevance, then by score; neither means no sort.
   */
  function SortFor(ascending: bool, descending: bool): (s: Option<Sort>)
    ensures s.Some? <==> ascending || descending
    ensures s.Some? ==>
      && |s.value.fields| == 2 && s.value.fields[0] == Relevance
      && s.value.fields[1].LongField? && s.value.fields[1].field == SCORE_FIELD_NAME
    ensures s.Some? ==> (s.value.fields[1].reverse <==> !ascending)
  {
    if ascending then Some(Sort([Relevance, LongField(SCORE_FIELD_NAME, false)]))
    else if descending then Some(Sort([Relevance, LongField(SCORE_FIELD_NAME, true)]))
    else None
  }
}
