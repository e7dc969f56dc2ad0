/** Which branch the "All Movies" section renders for a given state. */
module View {

  import opened App

  datatype Section = Spinner | ErrorLine(message: string) | MovieGrid(movies: seq<Movie>)

  /** The spinner while loading, else the error line when there is an
      error message, else the grid of the current list. */
  function Render(s: AppState): Section
  {
    if s.isLoading then Spinner
    else if s.errorMessage != "" then ErrorLine(s.errorMessage)
    else MovieGrid(s.movieList)
  }

  /** From the start of a fetch until it settles the section shows the
      spinner, whatever the fetch writes in between. */
  lemma SpinnerWhileFetching(s: AppState, query: string, encode: string -> string,
                             response: Response, analytics: Analytics)
    ensures var t := FetchTrace(query, encode, response, analytics);
      forall k :: 1 <= k < |t| ==> Render(Run(s, t[..k])) == Spinner
  {
    FetchLoadingUntilSettled(s, query, encode, response, analytics);
  }

  /** A settled fetch shows the grid of its results exactly when it
      succeeded, and otherwise an error line with a non-empty message in
      place of the grid. */
  lemma SettledFetchSection(s: AppState, query: string, encode: string -> string,
                            response: Response, analytics: Analytics)
    ensures var r := FetchMovies(s, query, encode, response, analytics);
      var outcome := Classify(query, response, analytics);
      && (outcome.FetchSucceeded? ==> Render(r) == MovieGrid(outcome.movies))
      && (!outcome.FetchSucceeded? ==> Render(r).ErrorLine? && Render(r).message != "")
  {
    FetchMatchesReducer(s, query, encode, response, analytics);
  }
}
