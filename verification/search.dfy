/**
 `handleSearch` of the search box: the query parameters after a term is
 typed, and the URL handed to the router's `replace`. The router, the
 current pathname and the current parameters are inputs.
 */
module Search {
  import opened UrlSearchParams

  const QueryKey := "query"
  const PageKey := "page"

  /** The parameters after typing `term`: `query` set to a non-empty term,
      removed for the empty one (the only falsy string). */
  function SearchParams(params: seq<Pair>, term: string): (r: seq<Pair>)
    ensures term != "" ==> Only(r, QueryKey) == [(QueryKey, term)]
    ensures term == "" ==> Count(r, QueryKey) == 0
    ensures Delete(r, QueryKey) == Delete(params, QueryKey)
  {
    if term != "" then
      SetLeavesOneEntry(params, QueryKey, term);
      SetKeepsOthersInOrder(params, QueryKey, term);
      Set(params, QueryKey, term)
    else
      DeleteIdempotent(params, QueryKey);
      Delete(params, QueryKey)
  }

  /** The URL passed to `replace`: the pathname, `?`, and the serialized
      parameters. */
  function SearchUrl(pathname: string, params: seq<Pair>, term: string, encode: string -> string): (url: string)
    ensures |url| > |pathname|
    ensures url[..|pathname| + 1] == pathname + "?"
    ensures url[|pathname| + 1..] == Serialize(SearchParams(params, term), encode)
    ensures url[|pathname| + 1..] == "" <==> term == "" && Count(params, QueryKey) == |params|
  {
    var ps := SearchParams(params, term);
    DeleteEmpty(params);
    pathname + "?" + Serialize(ps, encode)
  }

  /** Deleting `query` empties the list exactly when every entry was a
      `query` entry. */
  lemma {:induction false} DeleteEmpty(params: seq<Pair>)
    ensures |Delete(params, QueryKey)| == 0 <==> Count(params, QueryKey) == |params|
  {
    if |params| > 0 {
      DeleteEmpty(params[1..]);
      assert Count(params[1..], QueryKey) <= |params[1..]| by {
        CountBound(params[1..], QueryKey);
      }
    }
  }

  /** A non-empty term leaves exactly one `query` entry, holding the term. */
  lemma NonEmptyTermSetsQuery(params: seq<Pair>, term: string)
    requires term != ""
    ensures Count(SearchParams(params, term), QueryKey) == 1
    ensures Only(SearchParams(params, term), QueryKey) == [(QueryKey, term)]
  {
    SetLeavesOneEntry(params, QueryKey, term);
  }

  /** The empty term leaves no `query` entry. */
  lemma EmptyTermDropsQuery(params: seq<Pair>)
    ensures Count(SearchParams(params, ""), QueryKey) == 0
  {
  }

  /** Every entry not named `query` survives, in its original order
      relative to all the others. */
  lemma OtherParamsKept(params: seq<Pair>, term: string, m: string)
    requires m != QueryKey
    ensures Delete(SearchParams(params, term), QueryKey) == Delete(params, QueryKey)
    ensures Only(SearchParams(params, term), m) == Only(params, m)
  {
    if term != "" {
      SetKeepsOthersInOrder(params, QueryKey, term);
      SetKeepsOthers(params, QueryKey, term, m);
    } else {
      DeleteIdempotent(params, QueryKey);
    }
  }

  /** Pagination is neither reset nor set: the `page` entries are the ones
      that were there. */
  lemma PageKept(params: seq<Pair>, term: string)
    ensures Only(SearchParams(params, term), PageKey) == Only(params, PageKey)
  {
    OtherParamsKept(params, term, PageKey);
  }

  /** Typing the same term again changes nothing. */
  lemma SearchIdempotent(params: seq<Pair>, term: string)
    ensures SearchParams(SearchParams(params, term), term) == SearchParams(params, term)
  {
    if term != "" {
      SetIdempotent(params, QueryKey, term);
    } else {
      DeleteIdempotent(params, QueryKey);
    }
  }

  /** On page 2 of the list, typing "abc" keeps `page=2` and appends the
      query: the URL ends in `?page=2&query=abc`. */
  lemma SearchFromSecondPage(pathname: string, encode: string -> string)
    ensures SearchUrl(pathname, [(PageKey, "2")], "abc", encode) ==
      pathname + "?" + encode(PageKey) + "=" + encode("2") + "&" + encode(QueryKey) + "=" + encode("abc")
  {
    var ps := [(PageKey, "2"), (QueryKey, "abc")];
    assert Count([(PageKey, "2")][1..], QueryKey) == 0;
    assert [(PageKey, "2")] + [(QueryKey, "abc")] == ps;
    assert SearchParams([(PageKey, "2")], "abc") == ps;
    assert ps[1..] == [(QueryKey, "abc")];
    assert Serialize(ps, encode) == SerializePair(ps[0], encode) + "&" + SerializePair(ps[1], encode);
  }
}
