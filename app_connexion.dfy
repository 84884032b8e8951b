/**
 * backend/app_connexion.py: the Flask back end that reads its query parameters
 * as strings. `limit` and `offset` are modelled already parsed: `None` when the
 * parameter is absent or the empty string (both falsy), `Some(n)` for the
 * digits of `n`. The string '0' is truthy, so `Some(0)` is a limit that applies
 * and empties the result. The chat classifier is outside the model: its intent,
 * confidence, extracted genre and reply text come in as parameters.
 */
module AppConnexion {
  import opened Wrappers
  import opened Text
  import opened Seqs
  import opened Catalogue
  import opened WatchlistStore

  /**
   * `get_movies`: the movies `Selected` by `q` and `genre` in catalogue order,
   * the first `offset` of them dropped, then cut to `limit`.
   */
  function GetMovies(ms: seq<Movie>, q: string, genre: string, limit: Option<nat>, offset: Option<nat>): (r: seq<Movie>)
    ensures forall m :: m in r ==> m in ms && Selected(m, q, genre)
    ensures var sel := Selection(ms, q, genre); var skip := offset.GetOr(0);
      && (forall k :: 0 <= k < |r| ==> skip + k < |sel| && r[k] == sel[skip + k])
      && |r| == (if limit.Some? then Min(limit.value, Rest(|sel|, skip)) else Rest(|sel|, skip))
  {
    FilterCatalogueIsSelection(ms, q, genre);
    var filtered := FilterCatalogue(ms, q, genre);
    var skipped := if offset.Some? then Drop(filtered, offset.value) else filtered;
    assert skipped == Drop(filtered, offset.GetOr(0));
    Window(filtered, offset.GetOr(0), limit);
    SelectionMembers(ms, q, genre);
    if limit.Some? then Take(skipped, limit.value) else skipped
  }

  /** `get_recommendations`: the top of the rating ranking, `limit` long when a limit is given. */
  function GetRecommendations(ms: seq<Movie>, limit: Option<nat>): (r: seq<Movie>)
    ensures RankedPrefix(ms, r)
    ensures |r| == if limit.Some? then Min(limit.value, |ms|) else |ms|
  {
    var n := if limit.Some? then limit.value else |ms|;
    TopOfRanking(ms, n);
    Take(ByRating(ms), n)
  }

  /**
   * `search_movies`: 400 without a query; otherwise the reduced records of the
   * movies containing the lower-cased query, in catalogue order, cut to `limit`.
   */
  method SearchMovies(ms: seq<Movie>, q: string, limit: Option<nat>) returns (r: Reply<seq<Suggestion>>)
    ensures q == "" ==> r == Error(400, "Query parameter 'q' is required")
    ensures q != "" ==> r.Ok?
    ensures r.Ok? ==> var all := Summaries(WithQuery(ms, Lower(q)));
      && |r.body| == (if limit.Some? then Min(limit.value, |all|) else |all|)
      && r.body == all[..|r.body|]
  {
    if q == "" {
      return Error(400, "Query parameter 'q' is required");
    }
    var results := CollectMatches(ms, Lower(q));
    if limit.Some? {
      results := Take(results, limit.value);
    }
    return Ok(results);
  }

  /** The genre branch of the chat suggestions: up to three movies having `genre`, in catalogue order. */
  function GenreSuggestions(ms: seq<Movie>, genre: string): seq<Suggestion> {
    Summaries(Take(WithGenre(ms, genre), 3))
  }

  /** The general branch of the chat suggestions: the three top-rated movies. */
  function TopSuggestions(ms: seq<Movie>): seq<Suggestion> {
    Summaries(Take(ByRating(ms), 3))
  }

  /** `s` is the reduced record of some movie of `ms` that has `genre`. */
  ghost predicate SummarisesGenre(ms: seq<Movie>, genre: string, s: Suggestion) {
    exists j :: 0 <= j < |ms| && HasGenre(ms[j], genre) && s == Summary(ms[j])
  }

  /**
   * Each genre suggestion summarises a catalogue movie with that genre, there
   * are at most three, and fewer only when fewer movies have the genre.
   */
  lemma GenreSuggestionsSpec(ms: seq<Movie>, genre: string)
    ensures |GenreSuggestions(ms, genre)| == Min(3, |WithGenre(ms, genre)|)
    ensures forall s :: s in GenreSuggestions(ms, genre) ==> SummarisesGenre(ms, genre, s)
  {
    var w := WithGenre(ms, genre);
    var top := Take(w, 3);
    var g := GenreSuggestions(ms, genre);
    forall s | s in g ensures SummarisesGenre(ms, genre, s) {
      var k :| 0 <= k < |g| && g[k] == s;
      assert top[k] == w[k];
      assert w[k] in ms && HasGenre(w[k], genre);
      var j :| 0 <= j < |ms| && ms[j] == w[k];
      assert s == Summary(ms[j]);
    }
  }

  /** The general suggestions summarise the top of the ranking, at most three of them. */
  lemma TopSuggestionsSpec(ms: seq<Movie>)
    ensures |TopSuggestions(ms)| == Min(3, |ms|)
    ensures exists top :: RankedPrefix(ms, top) && TopSuggestions(ms) == Summaries(top)
  {
    TopOfRanking(ms, 3);
    var top := Take(ByRating(ms), 3);
    assert RankedPrefix(ms, top) && TopSuggestions(ms) == Summaries(top);
  }

  /** The loop that appends the reduced record of each of the first three movies of `ms`. */
  method SuggestFirstThree(ms: seq<Movie>) returns (suggestions: seq<Suggestion>)
    ensures suggestions == Summaries(Take(ms, 3))
  {
    suggestions := SummarizeAll(Take(ms, 3));
  }

  /**
   * `ai_chat`: 400 without a message; otherwise the classifier's reply for the
   * effective intent ('fallback' below confidence 0.6) and at most three
   * suggestions: by genre for 'suggest_movie' with a genre, the top rated for
   * 'suggest_movie' without one or for 'greeting', none otherwise.
   */
  method AiChat(ms: seq<Movie>, message: Option<string>, intent: string, confidence: real,
                entityGenre: Option<string>, respond: string -> string)
    returns (r: Reply<ChatReply>)
    ensures message.None? ==> r == Error(400, "Message is required")
    ensures message.Some? ==> r.Ok?
    ensures r.Ok? ==>
      var effective := if confidence < 0.6 then "fallback" else intent;
      && r.body.text == respond(effective)
      && |r.body.suggestions| <= 3
      && (effective == "suggest_movie" && entityGenre.Some? ==>
            r.body.suggestions == GenreSuggestions(ms, entityGenre.value))
      && ((effective == "suggest_movie" && entityGenre.None?) || effective == "greeting" ==>
            r.body.suggestions == TopSuggestions(ms))
      && (effective != "suggest_movie" && effective != "greeting" ==> r.body.suggestions == [])
  {
    if message.None? {
      return Error(400, "Message is required");
    }
    var effective := intent;
    if confidence < 0.6 {
      effective := "fallback";
    }
    var suggestions := [];
    if effective == "suggest_movie" && entityGenre.Some? {
      var genreMovies := WithGenre(ms, entityGenre.value);
      if genreMovies != [] {
        suggestions := SuggestFirstThree(genreMovies);
      }
    } else if effective == "suggest_movie" || effective == "greeting" {
      suggestions := SuggestFirstThree(ByRating(ms));
    }
    return Ok(ChatReply(respond(effective), suggestions));
  }

  /** `get_watchlist`: the list of the header's user, `[]` for a user without one. */
  method GetWatchlist(store: Store, userHeader: Option<string>) returns (r: Response)
    ensures r == Ids(store.Get(UserKey(userHeader)))
    ensures UserKey(userHeader) !in store.lists ==> r == Ids([])
  {
    return Ids(store.Get(UserKey(userHeader)));
  }

  /** `add_to_watchlist`: 400 without `movie_id`; otherwise the id is on the user's list once. */
  method AddToWatchlist(store: Store, userHeader: Option<string>, movieId: Option<int>) returns (r: Response)
    requires store.Valid()
    modifies store
    ensures store.Valid()
    ensures movieId.None? ==> r == Failed(400, "movie_id is required") && store.lists == old(store.lists)
    ensures movieId.Some? ==>
      && r == Done("Movie added to watchlist")
      && store.lists == Added(old(store.lists), UserKey(userHeader), movieId.value)
      && Count(store.Get(UserKey(userHeader)), movieId.value) == 1
  {
    if movieId.None? {
      return Failed(400, "movie_id is required");
    }
    store.Add(UserKey(userHeader), movieId.value);
    return Done("Movie added to watchlist");
  }

  /** `remove_from_watchlist`: 400 without `movie_id`; 404 and no change when the id is not on the list. */
  method RemoveFromWatchlist(store: Store, userHeader: Option<string>, movieId: Option<int>) returns (r: Response)
    requires store.Valid()
    modifies store
    ensures store.Valid()
    ensures movieId.None? ==> r == Failed(400, "movie_id is required") && store.lists == old(store.lists)
    ensures movieId.Some? && movieId.value in old(store.Get(UserKey(userHeader))) ==>
      && r == Done("Movie removed from watchlist")
      && store.lists == Removed(old(store.lists), UserKey(userHeader), movieId.value)
    ensures movieId.Some? && movieId.value !in old(store.Get(UserKey(userHeader))) ==>
      r == Failed(404, "Movie not in watchlist") && store.lists == old(store.lists)
  {
    if movieId.None? {
      return Failed(400, "movie_id is required");
    }
    var found := store.Remove(UserKey(userHeader), movieId.value);
    if found {
      return Done("Movie removed from watchlist");
    }
    return Failed(404, "Movie not in watchlist");
  }
}
