/** The state of the `App` component and the two asynchronous operations
    that write it: `fetchMovies`, which loads the movie grid for a settled
    query, and `loadTrendingMovies`, which loads the trending list once.

    Each operation is modelled as the sequence of effects its body performs
    (state writes, the catalog request, the analytics report), in program
    order, with the outcome of every awaited call taken as a parameter.
    The state after the operation is the fold of those effects over the
    state before it. */
module App {

  import opened Wrappers
  import opened Endpoints
  import opened Trending

  /** A catalog record; only its id and display title are consumed here. */
  datatype Movie = Movie(id: int, title: string)

  datatype AppState = AppState(
    isLoading: bool,
    errorMessage: string,
    movieList: seq<Movie>,
    trendingMovies: seq<TrendingEntry>)

  const GenericError: string := "Error fetching movies. Please try again later."
  const FallbackError: string := "Failed to fetch movies"

  /** One observable step of an operation: a state setter call, or a call
      out of the component (the catalog request, the search-count report,
      the trending query). */
  datatype Effect =
    | SetIsLoading(loading: bool)
    | SetErrorMessage(message: string)
    | SetMovieList(movies: seq<Movie>)
    | SetTrendingMovies(entries: seq<TrendingEntry>)
    | Request(url: string)
    | UpdateSearchCount(query: string, topMovie: Movie)
    | GetTrendingMovies

  function Apply(s: AppState, e: Effect): AppState
  {
    match e
    case SetIsLoading(b) => s.(isLoading := b)
    case SetErrorMessage(m) => s.(errorMessage := m)
    case SetMovieList(ms) => s.(movieList := ms)
    case SetTrendingMovies(es) => s.(trendingMovies := es)
    case Request(_) => s
    case UpdateSearchCount(_, _) => s
    case GetTrendingMovies => s
  }

  /** The state after performing the effects `t`, in order, from `s`. */
  function Run(s: AppState, t: seq<Effect>): AppState
    decreases |t|
  {
    if |t| == 0 then s else Apply(Run(s, t[..|t| - 1]), t[|t| - 1])
  }

  lemma {:induction false} RunAppend(s: AppState, a: seq<Effect>, b: seq<Effect>)
    ensures Run(s, a + b) == Run(Run(s, a), b)
    decreases |b|
  {
    if |b| == 0 {
      assert a + b == a;
    } else {
      assert (a + b)[..|a + b| - 1] == a + b[..|b| - 1];
      RunAppend(s, a, b[..|b| - 1]);
    }
  }

  lemma RunOne(s: AppState, e: Effect)
    ensures Run(s, [e]) == Apply(s, e)
  {
  }

  lemma RunCons(s: AppState, e: Effect, t: seq<Effect>)
    ensures Run(s, [e] + t) == Run(Apply(s, e), t)
  {
    RunAppend(s, [e], t);
    RunOne(s, e);
  }

  // ---------------------------------------------------------------------
  // fetchMovies

  /** What the awaited network step delivered. `Throws` covers a rejected
      `fetch` and a body that fails to parse (the body is parsed before the
      status is checked). Otherwise the parsed body's `status_message` or
      `results` field, either of which may be absent. */
  datatype Response =
    | Throws
    | NotOk(statusMessage: Option<string>)
    | Ok(results: Option<seq<Movie>>)

  /** How the awaited search-count report settles, when it is made. */
  datatype Analytics = Recorded | Rejected

  /** The effects of the `try` block and whether it ended by throwing. */
  datatype Attempt = Attempt(effects: seq<Effect>, threw: bool)

  /** `status_message || "Failed to fetch movies"`: an absent or empty
      message is falsy and yields the fallback. */
  function ErrorText(statusMessage: Option<string>): (m: string)
    ensures m != ""
    ensures statusMessage.Some? && statusMessage.value != "" ==> m == statusMessage.value
    ensures statusMessage == None || statusMessage == Some("") ==> m == FallbackError
  {
    match statusMessage
    case Some(msg) => if msg != "" then msg else FallbackError
    case None => FallbackError
  }

  /** The `try` block of `fetchMovies`. On an OK response the list is set
      first; then, for a non-empty query, reading the length of absent
      results throws, and a non-empty result list triggers the awaited
      search-count report, whose rejection also throws. */
  function TryBlock(query: string, encode: string -> string, response: Response, analytics: Analytics): Attempt
  {
    var request := [Request(Url(Select(query, encode)))];
    match response
    case Throws => Attempt(request, true)
    case NotOk(status) =>
      Attempt(request + [SetErrorMessage(ErrorText(status)), SetMovieList([])], false)
    case Ok(results) =>
      var shown := request + [SetMovieList(results.GetOr([]))];
      if query == "" then Attempt(shown, false)
      else
        match results
        case None => Attempt(shown, true)
        case Some(movies) =>
          if |movies| > 0 then
            Attempt(shown + [UpdateSearchCount(query, movies[0])], analytics == Rejected)
          else
            Attempt(shown, false)
  }

  const CatchBlock: seq<Effect> := [SetErrorMessage(GenericError), SetMovieList([])]

  /** Everything one call of `fetchMovies(query)` does, in order: raise the
      loading flag and clear the error, run the `try` block, run the `catch`
      block if it threw, and lower the loading flag in `finally`. */
  function FetchTrace(query: string, encode: string -> string, response: Response, analytics: Analytics): seq<Effect>
  {
    [SetIsLoading(true)] + InFlight(query, encode, response, analytics) + [SetIsLoading(false)]
  }

  /** The effects strictly between raising and lowering the loading flag:
      clear the error, the `try` block, and the `catch` block if it threw. */
  function InFlight(query: string, encode: string -> string, response: Response, analytics: Analytics): seq<Effect>
  {
    var attempt := TryBlock(query, encode, response, analytics);
    [SetErrorMessage("")] + attempt.effects + (if attempt.threw then CatchBlock else [])
  }

  // ---------------------------------------------------------------------
  // The reducer view of the same operations

  /** The discrete transitions the component's state goes through. */
  datatype Transition =
    | FetchStarted
    | FetchSucceeded(movies: seq<Movie>)
    | FetchRejected(statusMessage: Option<string>)
    | FetchThrew
    | TrendingLoaded(entries: seq<TrendingEntry>)

  function Reduce(s: AppState, tr: Transition): AppState
  {
    match tr
    case FetchStarted => s.(isLoading := true, errorMessage := "")
    case FetchSucceeded(movies) => s.(isLoading := false, errorMessage := "", movieList := movies)
    case FetchRejected(status) => s.(isLoading := false, errorMessage := ErrorText(status), movieList := [])
    case FetchThrew => s.(isLoading := false, errorMessage := GenericError, movieList := [])
    case TrendingLoaded(entries) => s.(trendingMovies := Dedup(entries))
  }

  /** How a fetch settles, as a decision table over the outcomes. */
  function Classify(query: string, response: Response, analytics: Analytics): Transition
  {
    match response
    case Throws => FetchThrew
    case NotOk(status) => FetchRejected(status)
    case Ok(None) => if query == "" then FetchSucceeded([]) else FetchThrew
    case Ok(Some(movies)) =>
      if query != "" && |movies| > 0 && analytics == Rejected then FetchThrew
      else FetchSucceeded(movies)
  }

  // ---------------------------------------------------------------------
  // Running the traces

  lemma RunSnoc(s: AppState, t: seq<Effect>, e: Effect)
    ensures Run(s, t + [e]) == Apply(Run(s, t), e)
  {
  }

  /** The `catch` block shows the generic error over an empty grid. */
  lemma RunCatch(s: AppState)
    ensures Run(s, CatchBlock) == s.(errorMessage := GenericError, movieList := [])
  {
    RunOne(s, SetErrorMessage(GenericError));
    assert CatchBlock == [SetErrorMessage(GenericError)] + [SetMovieList([])];
    RunSnoc(s, [SetErrorMessage(GenericError)], SetMovieList([]));
  }

  /** The `catch` block when the `try` block threw, then `finally`. */
  function Settle(s: AppState, attempt: Attempt): AppState
  {
    Apply(Run(Run(s, attempt.effects), if attempt.threw then CatchBlock else []), SetIsLoading(false))
  }

  lemma SettleThrows(s: AppState, query: string, encode: string -> string, analytics: Analytics)
    ensures Settle(s, TryBlock(query, encode, Throws, analytics)) == Reduce(s, FetchThrew)
  {
    var request := Request(Url(Select(query, encode)));
    assert TryBlock(query, encode, Throws, analytics) == Attempt([request], true);
    RunOne(s, request);
    RunCatch(s);
  }

  lemma SettleNotOk(s: AppState, query: string, encode: string -> string,
                    status: Option<string>, analytics: Analytics)
    ensures Settle(s, TryBlock(query, encode, NotOk(status), analytics)) == Reduce(s, FetchRejected(status))
  {
    var request := Request(Url(Select(query, encode)));
    var m := ErrorText(status);
    assert TryBlock(query, encode, NotOk(status), analytics)
        == Attempt([request] + [SetErrorMessage(m)] + [SetMovieList([])], false);
    RunOne(s, request);
    RunSnoc(s, [request], SetErrorMessage(m));
    RunSnoc(s, [request] + [SetErrorMessage(m)], SetMovieList([]));
  }

  lemma SettleOk(s: AppState, query: string, encode: string -> string,
                 results: Option<seq<Movie>>, analytics: Analytics)
    requires s.errorMessage == ""
    ensures Settle(s, TryBlock(query, encode, Ok(results), analytics))
         == Reduce(s, Classify(query, Ok(results), analytics))
  {
    var request := Request(Url(Select(query, encode)));
    var shown := [request] + [SetMovieList(results.GetOr([]))];
    var attempt := TryBlock(query, encode, Ok(results), analytics);
    RunOne(s, request);
    RunSnoc(s, [request], SetMovieList(results.GetOr([])));
    var listed := s.(movieList := results.GetOr([]));
    assert Run(s, shown) == listed;
    if query == "" {
      assert attempt == Attempt(shown, false);
    } else if results.None? {
      assert attempt == Attempt(shown, true);
      RunCatch(listed);
    } else if |results.value| == 0 {
      assert attempt == Attempt(shown, false);
    } else {
      var report := UpdateSearchCount(query, results.value[0]);
      assert attempt == Attempt(shown + [report], analytics == Rejected);
      RunSnoc(s, shown, report);
      RunCatch(listed);
    }
  }

  /** The `try` block, then the `catch` block when it threw, then the
      `finally` block settle as `Classify` says, from any state whose error
      message has just been cleared. */
  lemma TryCatchSettles(s: AppState, query: string, encode: string -> string,
                        response: Response, analytics: Analytics)
    requires s.errorMessage == ""
    ensures Settle(s, TryBlock(query, encode, response, analytics))
         == Reduce(s, Classify(query, response, analytics))
  {
    match response
    case Throws => SettleThrows(s, query, encode, analytics);
    case NotOk(status) => SettleNotOk(s, query, encode, status, analytics);
    case Ok(results) => SettleOk(s, query, encode, results, analytics);
  }

  /** One call of `fetchMovies(query)` from state `s`, given how its awaited
      steps settle. */
  function FetchMovies(s: AppState, query: string, encode: string -> string,
                       response: Response, analytics: Analytics): (r: AppState)
    ensures !r.isLoading
    ensures r.trendingMovies == s.trendingMovies
    ensures r.errorMessage != "" ==> r.movieList == []
  {
    FetchMatchesReducer(s, query, encode, response, analytics);
    Run(s, FetchTrace(query, encode, response, analytics))
  }

  /** The statement-by-statement trace of `fetchMovies` has the effect of the
      reducer's two transitions: started, then settled as classified. */
  lemma FetchMatchesReducer(s: AppState, query: string, encode: string -> string,
                            response: Response, analytics: Analytics)
    ensures Run(s, FetchTrace(query, encode, response, analytics))
         == Reduce(Reduce(s, FetchStarted), Classify(query, response, analytics))
  {
    var attempt := TryBlock(query, encode, response, analytics);
    var caught := if attempt.threw then CatchBlock else [];
    var started := Reduce(s, FetchStarted);
    var mid := InFlight(query, encode, response, analytics);
    assert FetchTrace(query, encode, response, analytics) == [SetIsLoading(true)] + mid + [SetIsLoading(false)];
    RunSnoc(s, [SetIsLoading(true)] + mid, SetIsLoading(false));
    RunCons(s, SetIsLoading(true), mid);
    var loading := s.(isLoading := true);
    RunAppend(loading, [SetErrorMessage("")] + attempt.effects, caught);
    RunCons(loading, SetErrorMessage(""), attempt.effects);
    TryCatchSettles(started, query, encode, response, analytics);
    assert Settle(started, attempt) == Reduce(started, Classify(query, response, analytics));
  }

  // ---------------------------------------------------------------------
  // Calls out of the component

  predicate IsCall(e: Effect)
  {
    e.Request? || e.UpdateSearchCount? || e.GetTrendingMovies?
  }

  /** The calls out of the component made by `t`, in order. */
  function Calls(t: seq<Effect>): (c: seq<Effect>)
    decreases |t|
  {
    if |t| == 0 then []
    else Calls(t[..|t| - 1]) + (if IsCall(t[|t| - 1]) then [t[|t| - 1]] else [])
  }

  lemma {:induction false} CallsAppend(a: seq<Effect>, b: seq<Effect>)
    ensures Calls(a + b) == Calls(a) + Calls(b)
    decreases |b|
  {
    if |b| == 0 {
      assert a + b == a;
    } else {
      assert (a + b)[..|a + b| - 1] == a + b[..|b| - 1];
      CallsAppend(a, b[..|b| - 1]);
    }
  }

  lemma CallsOne(e: Effect)
    ensures Calls([e]) == if IsCall(e) then [e] else []
  {
  }

  /** The report condition of lines 52-54: an OK response, a non-empty
      query and a present, non-empty result list. */
  predicate Reports(query: string, response: Response)
  {
    query != "" && response.Ok? && response.results.Some? && |response.results.value| > 0
  }

  lemma CallsOfTryNotOk(query: string, encode: string -> string, status: Option<string>, analytics: Analytics)
    ensures Calls(TryBlock(query, encode, NotOk(status), analytics).effects)
         == [Request(Url(Select(query, encode)))]
  {
    var request := Request(Url(Select(query, encode)));
    var m := ErrorText(status);
    assert TryBlock(query, encode, NotOk(status), analytics).effects
        == [request] + [SetErrorMessage(m)] + [SetMovieList([])];
    CallsOne(request);
    CallsOne(SetErrorMessage(m));
    CallsOne(SetMovieList([]));
    CallsAppend([request], [SetErrorMessage(m)]);
    CallsAppend([request] + [SetErrorMessage(m)], [SetMovieList([])]);
  }

  lemma CallsOfTryOk(query: string, encode: string -> string, results: Option<seq<Movie>>, analytics: Analytics)
    ensures Calls(TryBlock(query, encode, Ok(results), analytics).effects)
         == [Request(Url(Select(query, encode)))]
          + (if Reports(query, Ok(results)) then [UpdateSearchCount(query, results.value[0])] else [])
  {
    var request := Request(Url(Select(query, encode)));
    var listing := SetMovieList(results.GetOr([]));
    var effects := TryBlock(query, encode, Ok(results), analytics).effects;
    CallsOne(request);
    CallsOne(listing);
    CallsAppend([request], [listing]);
    if Reports(query, Ok(results)) {
      var report := UpdateSearchCount(query, results.value[0]);
      assert effects == [request] + [listing] + [report];
      CallsOne(report);
      CallsAppend([request] + [listing], [report]);
    } else {
      assert effects == [request] + [listing];
    }
  }

  lemma CallsOfTry(query: string, encode: string -> string, response: Response, analytics: Analytics)
    ensures Calls(TryBlock(query, encode, response, analytics).effects)
         == [Request(Url(Select(query, encode)))]
          + (if Reports(query, response) then [UpdateSearchCount(query, response.results.value[0])] else [])
  {
    match response
    case Throws =>
      CallsOne(Request(Url(Select(query, encode))));
    case NotOk(status) => CallsOfTryNotOk(query, encode, status, analytics);
    case Ok(results) => CallsOfTryOk(query, encode, results, analytics);
  }

  lemma CallsOfCatch()
    ensures Calls(CatchBlock) == []
  {
    assert CatchBlock == [CatchBlock[0]] + [CatchBlock[1]];
    CallsOne(CatchBlock[0]);
    CallsOne(CatchBlock[1]);
    CallsAppend([CatchBlock[0]], [CatchBlock[1]]);
  }

  /** The calls `fetchMovies(query)` makes: exactly one catalog request, to
      the endpoint `query` selects, and then exactly one search-count report
      of the query with the top result when the response is OK, the query is
      non-empty and the result list is present and non-empty; no other call. */
  lemma FetchCalls(query: string, encode: string -> string, response: Response, analytics: Analytics)
    ensures Calls(FetchTrace(query, encode, response, analytics))
         == [Request(Url(Select(query, encode)))]
          + (if Reports(query, response) then [UpdateSearchCount(query, response.results.value[0])] else [])
  {
    CallsOfFrame(query, encode, response, analytics);
    CallsOfTry(query, encode, response, analytics);
  }

  /** The state writes around the `try` block make no calls: the calls of
      a fetch are those of its `try` block. */
  lemma CallsOfFrame(query: string, encode: string -> string, response: Response, analytics: Analytics)
    ensures Calls(FetchTrace(query, encode, response, analytics))
         == Calls(TryBlock(query, encode, response, analytics).effects)
  {
    var attempt := TryBlock(query, encode, response, analytics);
    var caught := if attempt.threw then CatchBlock else [];
    var mid := InFlight(query, encode, response, analytics);
    CallsOfCatch();
    CallsOne(SetIsLoading(true));
    CallsOne(SetErrorMessage(""));
    CallsOne(SetIsLoading(false));
    CallsAppend([SetIsLoading(true)] + mid, [SetIsLoading(false)]);
    CallsAppend([SetIsLoading(true)], mid);
    CallsAppend([SetErrorMessage("")] + attempt.effects, caught);
    CallsAppend([SetErrorMessage("")], attempt.effects);
  }

  // ---------------------------------------------------------------------
  // The loading flag

  ghost predicate KeepsLoading(t: seq<Effect>)
  {
    forall e :: e in t ==> !e.SetIsLoading?
  }

  lemma {:induction false} RunKeepsLoading(s: AppState, t: seq<Effect>)
    requires KeepsLoading(t)
    ensures Run(s, t).isLoading == s.isLoading
    decreases |t|
  {
    if |t| > 0 {
      assert t[|t| - 1] in t;
      assert KeepsLoading(t[..|t| - 1]) by {
        forall e | e in t[..|t| - 1] ensures e in t { }
      }
      RunKeepsLoading(s, t[..|t| - 1]);
    }
  }

  /** `isLoading` is true in every state strictly between the start of
      `fetchMovies` and its settlement, and false once it has settled. */
  lemma FetchLoadingUntilSettled(s: AppState, query: string, encode: string -> string,
                                 response: Response, analytics: Analytics)
    ensures var t := FetchTrace(query, encode, response, analytics);
      && (forall k :: 1 <= k < |t| ==> Run(s, t[..k]).isLoading)
      && !Run(s, t).isLoading
  {
    var t := FetchTrace(query, encode, response, analytics);
    var mid := InFlight(query, encode, response, analytics);
    assert t == [SetIsLoading(true)] + mid + [SetIsLoading(false)];
    assert KeepsLoading(mid) by {
      var attempt := TryBlock(query, encode, response, analytics);
      assert KeepsLoading(attempt.effects);
      assert KeepsLoading(CatchBlock);
    }
    forall k | 1 <= k < |t| ensures Run(s, t[..k]).isLoading {
      assert t[..k] == [SetIsLoading(true)] + mid[..k - 1];
      RunCons(s, SetIsLoading(true), mid[..k - 1]);
      assert KeepsLoading(mid[..k - 1]) by {
        forall e | e in mid[..k - 1] ensures e in mid { }
      }
      RunKeepsLoading(s.(isLoading := true), mid[..k - 1]);
    }
    RunSnoc(s, [SetIsLoading(true)] + mid, SetIsLoading(false));
  }

  // ---------------------------------------------------------------------
  // How each outcome settles

  /** A response the catalog marks unsuccessful shows its status message,
      or the fallback text when that is absent or empty, over an empty
      grid; the catalog request is the only call made. */
  lemma FetchNotOkShowsStatus(s: AppState, query: string, encode: string -> string,
                              status: Option<string>, analytics: Analytics)
    ensures var r := FetchMovies(s, query, encode, NotOk(status), analytics);
      && r.errorMessage == (if status.Some? && status.value != "" then status.value else FallbackError)
      && r.movieList == []
    ensures Calls(FetchTrace(query, encode, NotOk(status), analytics)) == [Request(Url(Select(query, encode)))]
  {
    FetchMatchesReducer(s, query, encode, NotOk(status), analytics);
    FetchCalls(query, encode, NotOk(status), analytics);
  }

  /** Every path through the `catch` block shows the generic error over an
      empty grid: a rejected fetch or unparsable body, absent results read
      for a non-empty query, and a rejected search-count report. */
  lemma FetchThrowShowsGenericError(s: AppState, query: string, encode: string -> string,
                                    response: Response, analytics: Analytics)
    requires || response.Throws?
             || (response == Ok(None) && query != "")
             || (Reports(query, response) && analytics == Rejected)
    ensures var r := FetchMovies(s, query, encode, response, analytics);
      r.errorMessage == GenericError && r.movieList == []
  {
    FetchMatchesReducer(s, query, encode, response, analytics);
  }

  /** An OK response that nothing after it throws on shows its results (an
      empty grid when they are absent) with no error. */
  lemma FetchOkShowsResults(s: AppState, query: string, encode: string -> string,
                            results: Option<seq<Movie>>, analytics: Analytics)
    requires query == "" || results.Some?
    requires !(Reports(query, Ok(results)) && analytics == Rejected)
    ensures var r := FetchMovies(s, query, encode, Ok(results), analytics);
      r.errorMessage == "" && r.movieList == results.GetOr([])
  {
    FetchMatchesReducer(s, query, encode, Ok(results), analytics);
  }

  /** A fetch ends with no error message exactly when it succeeded, and the
      error it ends with otherwise is never empty. */
  lemma FetchErrorIffFailed(s: AppState, query: string, encode: string -> string,
                            response: Response, analytics: Analytics)
    ensures var r := FetchMovies(s, query, encode, response, analytics);
      r.errorMessage == "" <==> Classify(query, response, analytics).FetchSucceeded?
  {
    FetchMatchesReducer(s, query, encode, response, analytics);
  }

  /** Fetches that run one after the other: the later one overwrites
      everything the earlier one showed. */
  lemma LaterFetchOverwrites(s: AppState, encode: string -> string,
                             q1: string, r1: Response, a1: Analytics,
                             q2: string, r2: Response, a2: Analytics)
    ensures FetchMovies(FetchMovies(s, q1, encode, r1, a1), q2, encode, r2, a2)
         == FetchMovies(s, q2, encode, r2, a2)
  {
    var mid := FetchMovies(s, q1, encode, r1, a1);
    FetchMatchesReducer(mid, q2, encode, r2, a2);
    FetchMatchesReducer(s, q2, encode, r2, a2);
  }

  // ---------------------------------------------------------------------
  // loadTrendingMovies

  /** How the awaited trending query settles. */
  datatype TrendingResult = Delivered(entries: seq<TrendingEntry>) | Unavailable

  /** Everything one call of `loadTrendingMovies()` does: query the
      analytics collaborator, then store the deduplicated entries, or, when
      the query rejects, only log (which leaves no trace in the state). */
  function TrendingTrace(result: TrendingResult): seq<Effect>
  {
    [GetTrendingMovies]
      + match result
        case Delivered(entries) => [SetTrendingMovies(Dedup(entries))]
        case Unavailable => []
  }

  /** One call of `loadTrendingMovies()` from `s`. It writes nothing but the
      trending list; a failed load leaves that list as it was; a successful
      one stores exactly one entry per id the collaborator served, each the
      first served with that id, in the served order. */
  function LoadTrendingMovies(s: AppState, result: TrendingResult): (r: AppState)
    ensures r.isLoading == s.isLoading && r.errorMessage == s.errorMessage && r.movieList == s.movieList
    ensures result.Unavailable? ==> r.trendingMovies == s.trendingMovies
    ensures result.Delivered? ==>
      && DistinctIds(r.trendingMovies)
      && Ids(r.trendingMovies) == Ids(result.entries)
      && IsSubsequence(r.trendingMovies, result.entries)
    ensures result.Delivered? ==>
      && (forall k :: 0 <= k < |r.trendingMovies| ==>
            && r.trendingMovies[k].movieId in Ids(result.entries)
            && result.entries[FirstIndex(result.entries, r.trendingMovies[k].movieId)] == r.trendingMovies[k])
      && InFirstOccurrenceOrder(r.trendingMovies, result.entries)
  {
    LoadTrendingMatchesReducer(s, result);
    if result.Delivered? then
      DedupDistinct(result.entries);
      DedupIds(result.entries);
      DedupIsSubsequence(result.entries);
      DedupKeepsFirstOccurrences(result.entries);
      DedupPreservesOrder(result.entries);
      Run(s, TrendingTrace(result))
    else
      Run(s, TrendingTrace(result))
  }

  /** The trending trace has the effect of the reducer's trending
      transition on success and of nothing on failure. */
  lemma LoadTrendingMatchesReducer(s: AppState, result: TrendingResult)
    ensures Run(s, TrendingTrace(result))
         == match result
            case Delivered(entries) => Reduce(s, TrendingLoaded(entries))
            case Unavailable => s
  {
    RunOne(s, GetTrendingMovies);
    match result
    case Delivered(entries) =>
      RunSnoc(s, [GetTrendingMovies], SetTrendingMovies(Dedup(entries)));
    case Unavailable =>
      assert TrendingTrace(result) == [GetTrendingMovies];
  }

  // ---------------------------------------------------------------------
  // The two operations started on mount do not interfere

  predicate WritesTrending(e: Effect)
  {
    e.SetTrendingMovies?
  }

  predicate WritesFetchFields(e: Effect)
  {
    e.SetIsLoading? || e.SetErrorMessage? || e.SetMovieList?
  }

  /** `t` is an interleaving of `a` and `b`: it consists of their effects,
      each sequence's in its own order. */
  ghost predicate Interleaving(t: seq<Effect>, a: seq<Effect>, b: seq<Effect>)
    decreases |t|
  {
    if |t| == 0 then a == [] && b == []
    else
      || (|a| > 0 && t[|t| - 1] == a[|a| - 1] && Interleaving(t[..|t| - 1], a[..|a| - 1], b))
      || (|b| > 0 && t[|t| - 1] == b[|b| - 1] && Interleaving(t[..|t| - 1], a, b[..|b| - 1]))
  }

  lemma {:induction false} RunPast(s: AppState, b: seq<Effect>, x: Effect)
    requires forall e :: e in b ==> !WritesFetchFields(e)
    requires !WritesTrending(x)
    ensures Apply(Run(s, b), x) == Run(Apply(s, x), b)
    decreases |b|
  {
    if |b| > 0 {
      var b' := b[..|b| - 1];
      assert b[|b| - 1] in b;
      forall e | e in b' ensures !WritesFetchFields(e) {
        assert e in b;
      }
      RunPast(s, b', x);
    }
  }

  /** Effects on the fetch fields and effects on the trending list may be
      interleaved in any way: the result is that of running one sequence
      and then the other. */
  lemma {:induction false} InterleavingCommutes(s: AppState, t: seq<Effect>, a: seq<Effect>, b: seq<Effect>)
    requires Interleaving(t, a, b)
    requires forall e :: e in a ==> !WritesTrending(e)
    requires forall e :: e in b ==> !WritesFetchFields(e)
    ensures Run(s, t) == Run(Run(s, a), b)
    decreases |t|
  {
    if |t| > 0 {
      var t' := t[..|t| - 1];
      if |a| > 0 && t[|t| - 1] == a[|a| - 1] && Interleaving(t', a[..|a| - 1], b) {
        var a' := a[..|a| - 1];
        assert a[|a| - 1] in a;
        forall e | e in a' ensures !WritesTrending(e) {
          assert e in a;
        }
        InterleavingCommutes(s, t', a', b);
        RunPast(Run(s, a'), b, a[|a| - 1]);
      } else {
        var b' := b[..|b| - 1];
        forall e | e in b' ensures !WritesFetchFields(e) {
          assert e in b;
        }
        InterleavingCommutes(s, t', a, b');
      }
    } else {
      assert a == [] && b == [];
    }
  }

  /** However the steps of a fetch and of the trending load interleave at
      their awaits, the component settles in the state of running the fetch
      to completion and then the trending load. */
  lemma FetchAndTrendingIndependent(s: AppState, query: string, encode: string -> string,
                                    response: Response, analytics: Analytics,
                                    result: TrendingResult, t: seq<Effect>)
    requires Interleaving(t, FetchTrace(query, encode, response, analytics), TrendingTrace(result))
    ensures Run(s, t) == LoadTrendingMovies(FetchMovies(s, query, encode, response, analytics), result)
    ensures Run(s, t) == FetchMovies(LoadTrendingMovies(s, result), query, encode, response, analytics)
  {
    var a := FetchTrace(query, encode, response, analytics);
    var b := TrendingTrace(result);
    FetchLeavesTrending(query, encode, response, analytics);
    assert forall e :: e in b ==> !WritesFetchFields(e);
    InterleavingCommutes(s, t, a, b);
    FetchThenTrendingCommute(s, query, encode, response, analytics, result);
  }

  lemma FetchLeavesTrending(query: string, encode: string -> string, response: Response, analytics: Analytics)
    ensures forall e :: e in FetchTrace(query, encode, response, analytics) ==> !WritesTrending(e)
  {
  }

  /** The two operations commute when run one after the other. */
  lemma FetchThenTrendingCommute(s: AppState, query: string, encode: string -> string,
                                 response: Response, analytics: Analytics, result: TrendingResult)
    ensures LoadTrendingMovies(FetchMovies(s, query, encode, response, analytics), result)
         == FetchMovies(LoadTrendingMovies(s, result), query, encode, response, analytics)
  {
    var fetched := FetchMovies(s, query, encode, response, analytics);
    LoadTrendingMatchesReducer(fetched, result);
    LoadTrendingMatchesReducer(s, result);
    FetchMatchesReducer(s, query, encode, response, analytics);
    FetchMatchesReducer(LoadTrendingMovies(s, result), query, encode, response, analytics);
  }
}
