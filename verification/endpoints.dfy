/** The catalog endpoint a fetch is sent to. An empty query asks for the
    popularity-sorted discovery listing; any other query asks for a text
    search, with the query passed through the URL component encoder. */
module Endpoints {

  import opened Wrappers

  const ApiBaseUrl: string := "https://api.themoviedb.org/3"
  const SearchPrefix: string := ApiBaseUrl + "/search/movie?query="
  const DiscoverUrl: string := ApiBaseUrl + "/discover/movie?sort_by=popularity.desc"

  datatype Endpoint = SearchMovie(encodedQuery: string) | DiscoverPopular

  /** Endpoint choice by the truthiness of the query: the empty string is
      the only falsy string. `encode` stands for the URL component encoder. */
  function Select(query: string, encode: string -> string): Endpoint
  {
    if query != "" then SearchMovie(encode(query)) else DiscoverPopular
  }

  /** The request URL handed to the network layer. */
  function Url(e: Endpoint): string
  {
    match e
    case SearchMovie(q) => SearchPrefix + q
    case DiscoverPopular => DiscoverUrl
  }

  /** Reads an endpoint back from a request URL; `None` for any URL this
      component never requests. */
  function ParseUrl(url: string): Option<Endpoint>
  {
    if |SearchPrefix| <= |url| && url[..|SearchPrefix|] == SearchPrefix then
      Some(SearchMovie(url[|SearchPrefix|..]))
    else if url == DiscoverUrl then
      Some(DiscoverPopular)
    else
      None
  }

  /** Every request URL names exactly the endpoint it was built from. */
  lemma ParseUrlInvertsUrl(e: Endpoint)
    ensures ParseUrl(Url(e)) == Some(e)
  {
    match e
    case SearchMovie(q) =>
      var url := SearchPrefix + q;
      assert url[..|SearchPrefix|] == SearchPrefix;
      assert url[|SearchPrefix|..] == q;
    case DiscoverPopular =>
      // The two paths part ways right after the base URL: "/s…" against "/d…".
      assert DiscoverUrl[|ApiBaseUrl| + 1] == 'd';
      assert SearchPrefix[|ApiBaseUrl| + 1] == 's';
      assert |SearchPrefix| <= |DiscoverUrl| ==>
        DiscoverUrl[..|SearchPrefix|][|ApiBaseUrl| + 1] == 'd';
  }

  /** Distinct endpoints never share a request URL. */
  lemma UrlInjective(e1: Endpoint, e2: Endpoint)
    requires Url(e1) == Url(e2)
    ensures e1 == e2
  {
    ParseUrlInvertsUrl(e1);
    ParseUrlInvertsUrl(e2);
  }

  /** The URL requested for a query reads back as the discovery listing
      exactly when the query is empty, and otherwise as a search for the
      encoded query. */
  lemma RequestUrlForQuery(query: string, encode: string -> string)
    ensures ParseUrl(Url(Select(query, encode)))
         == Some(if query == "" then DiscoverPopular else SearchMovie(encode(query)))
  {
    ParseUrlInvertsUrl(Select(query, encode));
  }

  ghost predicate Injective(encode: string -> string)
  {
    forall a, b :: encode(a) == encode(b) ==> a == b
  }

  /** With an injective encoder, the request URL determines the query:
      two different queries never reach the catalog as the same request. */
  lemma RequestDeterminesQuery(q1: string, q2: string, encode: string -> string)
    requires Injective(encode)
    requires Url(Select(q1, encode)) == Url(Select(q2, encode))
    ensures q1 == q2
  {
    UrlInjective(Select(q1, encode), Select(q2, encode));
  }
}
