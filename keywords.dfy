/**
 * LuceneSearcher.createKeyword: the keywords of an entry joined into the one
 * text the whitespace analyzer splits again, with KEYWORD_SPLIT between them.
 */
module Keywords {

  /** KEYWORD_SPLIT, the separator written between keywords. */
  const KEYWORD_SPLIT: char := ' '

  /** The keywords joined left to right, one separator between neighbours. */
  function Join(ks: seq<string>): string
    requires |ks| >= 1
  {
    if |ks| == 1 then ks[0] else Join(ks[..|ks| - 1]) + [KEYWORD_SPLIT] + ks[|ks| - 1]
  }

  /** Cutting a text at every separator: one piece more than there are separators. */
  function Split(s: string): (pieces: seq<string>)
    ensures |pieces| >= 1
    decreases |s|
  {
    if |s| == 0 then [""]
    else if s[0] == KEYWORD_SPLIT then [""] + Split(s[1..])
    else
      var rest := Split(s[1..]);
      [[s[0]] + rest[0]] + rest[1..]
  }

  /** createKeyword's loop: the first keyword, then a separator and the next keyword for each further one. */
  method CreateKeyword(keywords: seq<string>) returns (r: string)
    requires |keywords| >= 1
    ensures r == Join(keywords)
    ensures |keywords| == 1 ==> r == keywords[0]
  {
    if |keywords| == 1 {
      return keywords[0];
    }
    var sb := keywords[0];
    var i := 1;
    while i < |keywords|
      invariant 1 <= i <= |keywords|
      invariant sb == Join(keywords[..i])
    {
      assert keywords[..i + 1][..i] == keywords[..i];
      sb := sb + [KEYWORD_SPLIT] + keywords[i];
      i := i + 1;
    }
    assert keywords[..i] == keywords;
    r := sb;
  }

  /** Two or more keywords: the first one, one separator, and the rest joined; nothing before or after. */
  lemma {:induction false} JoinCons(ks: seq<string>)
    requires |ks| >= 2
    ensures Join(ks) == ks[0] + [KEYWORD_SPLIT] + Join(ks[1..])
    decreases |ks|
  {
    if |ks| > 2 {
      JoinCons(ks[..|ks| - 1]);
      assert ks[..|ks| - 1][1..] == ks[1..][..|ks| - 2];
    } else {
      assert ks[..1] == [ks[0]];
    }
  }

  /** A text without a separator is one piece. */
  lemma {:induction false} SplitNoSeparator(k: string)
    requires KEYWORD_SPLIT !in k
    ensures Split(k) == [k]
    decreases |k|
  {
    if |k| > 0 {
      SplitNoSeparator(k[1..]);
      assert [k[0]] + k[1..] == k;
    }
  }

  /** Cutting a text with a separator-free head splits off exactly that head. */
  lemma {:induction false} SplitHead(a: string, b: string)
    requires KEYWORD_SPLIT !in a
    ensures Split(a + [KEYWORD_SPLIT] + b) == [a] + Split(b)
    decreases |a|
  {
    var s := a + [KEYWORD_SPLIT] + b;
    if |a| == 0 {
      assert s == [KEYWORD_SPLIT] + b;
      assert s[1..] == b;
    } else {
      assert s[1..] == a[1..] + [KEYWORD_SPLIT] + b;
      SplitHead(a[1..], b);
      assert [a[0]] + a[1..] == a;
    }
  }

  /** The whitespace analyzer's view: splitting the joined text gives back the keywords when none holds a separator. */
  lemma {:induction false} SplitJoin(ks: seq<string>)
    requires |ks| >= 1
    requires forall i :: 0 <= i < |ks| ==> KEYWORD_SPLIT !in ks[i]
    ensures Split(Join(ks)) == ks
    decreases |ks|
  {
    if |ks| == 1 {
      SplitNoSeparator(ks[0]);
    } else {
      JoinCons(ks);
      SplitHead(ks[0], Join(ks[1..]));
      SplitJoin(ks[1..]);
      assert [ks[0]] + ks[1..] == ks;
    }
  }

  /**
   * Whether a text analysed by the whitespace analyzer holds `term` as one of
   * its terms: a non-empty piece between separators (empty pieces yield no term).
   */
  predicate HasToken(text: string, term: string)
  {
    term != [] && term in Split(text)
  }

  /** For separator-free texts, holding the term is plain equality. */
  lemma SingleTokenMatch(text: string, term: string)
    requires KEYWORD_SPLIT !in text && KEYWORD_SPLIT !in term && term != []
    ensures HasToken(text, term) <==> text == term
  {
    SplitNoSeparator(text);
  }

  /** A key with a separator is two terms: "a b" holds "a" and "b" but not "a b". */
  lemma TwoTokenKey()
    ensures Split("a b") == ["a", "b"]
    ensures HasToken("a b", "a") && HasToken("a b", "b") && !HasToken("a b", "a b")
  {
    SplitHead("a", "b");
    assert "a" + [KEYWORD_SPLIT] + "b" == "a b";
    SplitNoSeparator("b");
  }
}
