/** The cache keys the GIF client builds (app/Clients/GiphyClient.php, lines 25
    and 44): literal strings, with no trimming or case folding. */
module GiphyCacheKeys {
  import opened Json
  import opened IntText
  import opened GifFilterDto

  const SearchPrefix: string := "gifs_search:"
  const ShowPrefix: string := "gif_show:"

  /** `"gifs_search:{q}:limit_{limit}:offset_{offset}"`. */
  function SearchKey(f: GifFilter): string {
    SearchPrefix + f.q + ":limit_" + ShowInt(f.limit) + ":offset_" + ShowInt(f.offset)
  }

  /** `"gif_show:{gifId}"`. */
  function ShowKey(gifId: string): string {
    ShowPrefix + gifId
  }

  predicate IsSearchKey(k: string) {
    |k| >= |SearchPrefix| && k[..|SearchPrefix|] == SearchPrefix
  }

  function StripPrefix(p: string, s: string): (r: Option<string>)
    ensures r.Some? <==> |s| >= |p| && s[..|p|] == p
    ensures r.Some? ==> s == p + r.value
  {
    if |s| >= |p| && s[..|p|] == p then Some(s[|p|..]) else None
  }

  /** Position of the last colon of `s`. */
  function LastColon(s: string): (r: Option<nat>)
    ensures r.Some? ==> r.value < |s| && s[r.value] == ':' && ':' !in s[r.value + 1..]
    ensures r.None? ==> ':' !in s
  {
    if |s| == 0 then None
    else if s[|s| - 1] == ':' then Some(|s| - 1)
    else
      var r := LastColon(s[..|s| - 1]);
      assert r.Some? ==> s[r.value + 1..] == s[..|s| - 1][r.value + 1..] + [s[|s| - 1]];
      assert r.None? ==> s == s[..|s| - 1] + [s[|s| - 1]];
      r
  }

  /** Splits `s` at its last colon into the text before it and after it. */
  function SplitLast(s: string): (r: Option<(string, string)>)
    ensures r.Some? ==> s == r.value.0 + ":" + r.value.1 && ':' !in r.value.1
  {
    match LastColon(s)
    case Some(i) => Some((s[..i], s[i + 1..]))
    case None => None
  }

  /** Decodes a search key back into the filter it was built from. */
  function ParseSearchKey(k: string): Option<GifFilter> {
    match StripPrefix(SearchPrefix, k)
    case None => None
    case Some(rest) => ParseQueryAndPaging(rest)
  }

  /** Decodes `{q}:limit_{limit}:offset_{offset}`, splitting at the last two
      colons since the query text may hold colons itself. */
  function ParseQueryAndPaging(rest: string): Option<GifFilter> {
    match SplitLast(rest)
    case None => None
    case Some((head, offsetPart)) =>
      match SplitLast(head)
      case None => None
      case Some((q, limitPart)) =>
        match ParsePaging(limitPart, offsetPart)
        case None => None
        case Some((limit, offset)) => Some(GifFilter(q, limit, offset))
  }

  function ParsePaging(limitPart: string, offsetPart: string): Option<(Int64, Int64)> {
    match (StripPrefix("limit_", limitPart), StripPrefix("offset_", offsetPart))
    case (Some(l), Some(o)) =>
      (match (AsInt(JStr(l)), AsInt(JStr(o)))
       case (Some(limit), Some(offset)) => Some((limit, offset))
       case _ => None)
    case _ => None
  }

  /** Splitting `a + ":" + b` at its last colon gives back `a` and `b` when `b`
      has no colon. */
  lemma {:induction false} SplitLastAppend(a: string, b: string)
    requires ':' !in b
    ensures SplitLast(a + ":" + b) == Some((a, b))
    decreases |b|
  {
    var s := a + ":" + b;
    if |b| == 0 {
      assert s[|s| - 1] == ':';
    } else {
      var b' := b[..|b| - 1];
      assert s[|s| - 1] == b[|b| - 1];
      assert s[..|s| - 1] == a + ":" + b';
      SplitLastAppend(a, b');
      assert LastColon(a + ":" + b') == Some(|a|);
      assert s[|s| - 1] != ':';
      assert LastColon(s) == LastColon(s[..|s| - 1]);
    }
    assert s[..|a|] == a;
    assert s[|a| + 1..] == b;
  }

  lemma PagingRoundTrip(limit: Int64, offset: Int64)
    ensures ParsePaging("limit_" + ShowInt(limit), "offset_" + ShowInt(offset)) == Some((limit, offset))
  {
    AsIntShowInt(limit);
    AsIntShowInt(offset);
    assert StripPrefix("limit_", "limit_" + ShowInt(limit)) == Some(ShowInt(limit));
    assert StripPrefix("offset_", "offset_" + ShowInt(offset)) == Some(ShowInt(offset));
  }

  lemma QueryAndPagingRoundTrip(f: GifFilter)
    ensures ParseQueryAndPaging(f.q + ":" + ("limit_" + ShowInt(f.limit)) + ":" + ("offset_" + ShowInt(f.offset))) == Some(f)
  {
    var limitPart, offsetPart := "limit_" + ShowInt(f.limit), "offset_" + ShowInt(f.offset);
    ShowIntHasNoColon(f.limit);
    ShowIntHasNoColon(f.offset);
    assert ':' !in offsetPart;
    SplitLastAppend(f.q + ":" + limitPart, offsetPart);
    assert ':' !in limitPart;
    SplitLastAppend(f.q, limitPart);
    PagingRoundTrip(f.limit, f.offset);
  }

  lemma StripSearchPrefix(rest: string)
    ensures ParseSearchKey(SearchPrefix + rest) == ParseQueryAndPaging(rest)
  {
    assert StripPrefix(SearchPrefix, SearchPrefix + rest) == Some(rest);
  }

  /** Round trip: a search key decodes to the filter it was built from. */
  lemma ParseSearchKeyRoundTrip(f: GifFilter)
    ensures ParseSearchKey(SearchKey(f)) == Some(f)
  {
    var l, o := ShowInt(f.limit), ShowInt(f.offset);
    var rest := f.q + ":" + ("limit_" + l) + ":" + ("offset_" + o);
    assert SearchKey(f) == SearchPrefix + rest;
    StripSearchPrefix(rest);
    QueryAndPagingRoundTrip(f);
  }

  /** Distinct search triples get distinct keys: in particular "batman" and
      "Batman" are cached separately. */
  lemma SearchKeyInjective(f: GifFilter, g: GifFilter)
    requires SearchKey(f) == SearchKey(g)
    ensures f == g
  {
    ParseSearchKeyRoundTrip(f);
    ParseSearchKeyRoundTrip(g);
  }

  lemma ShowKeyInjective(a: string, b: string)
    requires ShowKey(a) == ShowKey(b)
    ensures a == b
  {
    assert a == ShowKey(a)[|ShowPrefix|..];
  }

  lemma SearchKeyKind(f: GifFilter)
    ensures IsSearchKey(SearchKey(f))
  {
    assert SearchKey(f)[..|SearchPrefix|] == SearchPrefix;
  }

  lemma ShowKeyKind(gifId: string)
    ensures !IsSearchKey(ShowKey(gifId))
  {
    assert ShowKey(gifId)[3] == '_' != SearchPrefix[3];
  }

  /** Every search key carries the search prefix and no lookup key does, so the
      two kinds of entry never share a key. */
  lemma KeyKinds(f: GifFilter, gifId: string)
    ensures IsSearchKey(SearchKey(f))
    ensures !IsSearchKey(ShowKey(gifId))
    ensures SearchKey(f) != ShowKey(gifId)
  {
    SearchKeyKind(f);
    ShowKeyKind(gifId);
  }
}
