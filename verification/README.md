# Movie discovery `App` component — Dafny model

This project models the two pieces of logic inside the `App` component of a
small movie-discovery page (`src/App.jsx`):

- **`fetchMovies(query)`**, which loads the "All Movies" grid for the settled
  search query. It raises the loading flag and clears the error message,
  requests either the popularity-sorted discovery listing (empty query) or a
  text search for the URL-encoded query, and settles in one of three ways.
  A response the catalog marks unsuccessful shows its `status_message`, or
  "Failed to fetch movies" when that is absent or empty. An OK response shows
  its `results`, and for a non-empty query with a non-empty result list it
  awaits a search-count report of the query and the top result. Anything
  thrown shows "Error fetching movies. Please try again later.". Every error
  path also empties the grid, and `finally` lowers the loading flag.
- **`loadTrendingMovies()`**, which asks the analytics collaborator for the
  ranked trending entries and keeps the first entry for each `movie_id`, in
  order, using a `seen` set. When the query fails, the trending list keeps
  its previous value.

Also modelled: the choice of what the "All Movies" section renders (spinner,
else the error line, else the grid).

## How the model is built

- `Endpoints` (endpoints.dfy): the request URL for a query (`Select`, `Url`),
  and a parser `ParseUrl` that reads the endpoint back from a URL.
  `encodeURIComponent` is an uninterpreted parameter `encode`.
- `Trending` (trending.dfy): `Dedup` defines deduplication over prefixes, the
  way the loop builds its output. `UniqueTrending` is the loop itself, with a
  `seen` set, proved equal to `Dedup`. The lemmas characterise the output
  completely: it has distinct ids, the same id set as the input, each entry
  is the first input entry with its id, and entries come in first-occurrence
  order.
- `App` (app.dfy): the component state `{isLoading, errorMessage, movieList,
  trendingMovies}`. Each operation is written as the sequence of effects its
  body performs, in program order: setter calls, the catalog request, the
  search-count report and the trending query. `TryBlock`, `CatchBlock`,
  `FetchTrace` and `TrendingTrace` build these sequences. `Run` folds them
  over a state.
  - The awaited steps are parameters. `Response` is `Throws` (fetch rejects,
    or the body fails to parse, which happens before the status check),
    `NotOk(statusMessage)` or `Ok(results)`, with absent fields as `None`.
    `Analytics` is `Recorded` or `Rejected` and gives the outcome of the
    awaited search-count report. Because it is a separate parameter, the
    model records that the report was made even when it rejects.
  - A reducer (`Reduce` over `Transition`, with `Classify` as a flat decision
    table) is the independent description that the traces are proved to
    match.
- `View` (view.dfy): `Render` picks the branch of the "All Movies" section.

Two behaviours of the code are modelled exactly as written:

- **Absent results on a non-empty query.** An OK response whose `results`
  field is absent first sets the grid to `[]` (line 50). For a non-empty
  query, reading `data.results.length` (line 52) then throws, and the `catch`
  block shows the generic error. An empty query short-circuits before the
  read, so nothing throws.
- **The search-count report.** The search-count report is awaited inside
  the same `try` block (line 54). If it rejects, the results already shown
  are replaced by the generic error.

## Model

| member | source | states |
|---|---|---|
| Endpoints.ParseUrlInvertsUrl | src/App.jsx:37-39 | Every request URL (search prefix plus encoded query, or the discovery URL) reads back as exactly the endpoint it was built from. |
| Endpoints.UrlInjective | src/App.jsx:37-39 | Two different endpoints never produce the same request URL. |
| Endpoints.RequestUrlForQuery | src/App.jsx:37-39 | The requested URL is the discovery listing exactly when the query is empty. Otherwise it is a search for `encode(query)`. |
| Endpoints.RequestDeterminesQuery | src/App.jsx:37-38 | With an injective encoder, two queries that produce the same request URL are the same query. |
| Trending.FirstIndex | src/App.jsx:71-75 | The position it returns holds the id, and no earlier position does: it is the first occurrence. |
| Trending.UniqueTrending | src/App.jsx:69-76 | The `seen`-set loop returns the prefix-wise deduplication of the input. The result has pairwise distinct ids and the same id set as the input. |
| Trending.DedupIds | src/App.jsx:71-75 | Every `movie_id` of the input appears in the output, and no other id does. |
| Trending.DedupDistinct | src/App.jsx:69-76 | No two output entries share a `movie_id`. |
| Trending.DedupKeepsFirstOccurrences | src/App.jsx:71-75 | Each output entry is the first input entry carrying its id. |
| Trending.DedupPreservesOrder | src/App.jsx:71-75 | Output entries come in strictly increasing order of their ids' first input positions. |
| Trending.DedupIsSubsequence | src/App.jsx:71-75 | The output is a subsequence of the input, embedded at first occurrences. |
| Trending.DedupOfDistinct | src/App.jsx:71-75 | An input whose ids are already distinct passes through unchanged. |
| Trending.DedupIdempotent | src/App.jsx:71-75 | Deduplicating twice gives the same list as deduplicating once. |
| Trending.DistinctIdsCount | src/App.jsx:69-76 | A list with distinct ids has as many ids as entries. |
| Trending.DedupLength | src/App.jsx:69-76 | The output holds exactly one entry per distinct input id. |
| Trending.DedupExample | src/App.jsx:69-76 | Entries with ids 7, 3, 7, 9, 3 keep the first 7, the first 3 and the 9, in that order. |
| App.ErrorText | src/App.jsx:45 | The message shown for a non-OK response is never empty. A non-empty `status_message` is shown verbatim. An absent or empty one gives "Failed to fetch movies". |
| App.TryCatchSettles | src/App.jsx:36-62 | Starting with a cleared error, the `try`, `catch` and `finally` blocks end in the state the decision table assigns to the outcome. |
| App.FetchMovies | src/App.jsx:33-63 | After any call the loading flag is down and the trending list is untouched. An error message is shown only over an empty grid. |
| App.FetchMatchesReducer | src/App.jsx:33-63 | The statement-by-statement trace has the same effect as the reducer's "started" transition followed by the classified settlement. |
| App.FetchCalls | src/App.jsx:37-55 | A call makes exactly one catalog request, to the URL the query selects. It reports `(query, results[0])` once, after that request, exactly when the response is OK, the query is non-empty and the results are present and non-empty. It makes no other call. |
| App.FetchLoadingUntilSettled | src/App.jsx:34-62 | `isLoading` is true in every state strictly between the start of the call and its settlement, and false after it. |
| App.FetchNotOkShowsStatus | src/App.jsx:44-48 | A non-OK response shows `status_message` if non-empty, else "Failed to fetch movies". The grid is empty, and no search-count report is made. |
| App.FetchThrowShowsGenericError | src/App.jsx:36-59 | A rejected fetch or unparsable body, absent results read for a non-empty query, or a rejected search-count report each end with the generic error and an empty grid. |
| App.FetchOkShowsResults | src/App.jsx:50-55 | An OK response that does not throw afterwards shows its results, or `[]` when they are absent, with an empty error message. |
| App.FetchErrorIffFailed | src/App.jsx:35-59 | A call ends with an empty error message exactly when it succeeded. |
| App.LaterFetchOverwrites | src/App.jsx:33-63 | Of two calls run one after the other, the later one alone decides the final state. |
| App.LoadTrendingMovies | src/App.jsx:65-81 | Only the trending list is written. A failed load leaves it unchanged. A successful one stores distinct ids, the same id set as served, as a subsequence of the served list. Each stored entry is the first served entry with its `movie_id`, and stored entries come in the order of those first occurrences. |
| App.LoadTrendingMatchesReducer | src/App.jsx:65-81 | The trending trace equals the reducer's "trending loaded" transition on success, and does nothing on failure. |
| App.InterleavingCommutes | src/App.jsx:33-81 | Any interleaving of effects on the fetch fields with effects on the trending list settles as running one sequence and then the other. |
| App.FetchAndTrendingIndependent | src/App.jsx:33-81 | However the steps of `fetchMovies` and `loadTrendingMovies` interleave, for the same outcomes of the awaited calls, the result is that of running them one after the other, in either order. |
| App.FetchThenTrendingCommute | src/App.jsx:33-81 | For the same outcomes of the awaited calls, running the fetch and then the trending load gives the same state as the reverse order. |
| View.SpinnerWhileFetching | src/App.jsx:120-121 | From the start of a fetch until it settles, the section renders the spinner. |
| View.SettledFetchSection | src/App.jsx:120-130 | A settled fetch renders the grid of its results exactly when it succeeded. Otherwise it renders an error line with a non-empty message. |

## Left out

- The debounced search term (line 31): its timer behaviour lives in the `react-use` library, which is not part of this model.
- `useEffect` scheduling (lines 82-88): when each operation starts is not modelled. The independence lemmas cover any interleaving of the two mount-time operations at effect granularity.
- Overlapping `fetchMovies` calls are not modelled; only calls that run one after the other are covered (`LaterFetchOverwrites`). When two calls overlap, the first to settle lowers `isLoading` while the other is still in flight. A call that succeeds writes `errorMessage` only when it starts (line 35), so a later success does not clear an error set meanwhile by an overlapping call, and that error can stay over the later call's results.
- `fetch`, `response.json()`, `getTrendingMovies` and `updateSearchCount` are network calls into code outside the model. They appear only as abstract outcomes (`Response`, `Analytics`, `TrendingResult`).
- `encodeURIComponent` is an uninterpreted function. For a query holding a lone surrogate, the source's `encodeURIComponent` throws `URIError` at line 38, inside the `try`: no request is made and the call ends in the generic error. Such a query cannot be written as a Dafny `string`, whose characters are Unicode scalar values, so this path is not modelled.
- JSON values of unexpected type are not modelled. Examples: a non-string `status_message`, a non-array `results`, or a `null` entry in the trending list (which would throw inside the trending loop's `try`). Response fields are either absent or of their expected type.
- Trending entries always carry an integer `movie_id`. Entries without one, which the `seen` set would treat as the single id `undefined`, are not modelled.
- The trending result is an independent parameter: the model does not link what `getTrendingMovies` serves (line 67) to an earlier search-count report (line 54) written to the same analytics store, so the commutation lemmas hold only for fixed outcomes of the awaited calls.
- `console.error` logging, the API key read from the environment, and the `Authorization` header: these are I/O and configuration.
- JSX markup, the `Search`, `Spinner` and `MovieCard` components, and whether the trending section is shown (line 102): these are presentation.
- Movie records keep only `id` and `title`, and trending entries only their key, `movie_id`, title and poster URL: no other field is read by the modelled logic.
