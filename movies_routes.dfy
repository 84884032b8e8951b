/**
 * backend/routes/movies.py: the blueprint that backend/app.py mounts under
 * `/api`. Its listing has no `limit` or `offset`, its recommendations are the
 * five top-rated movies, its search rejects an empty query, and its chat
 * handler applies `Catalogue.KeywordReply` after checking for a message.
 */
module MoviesRoutes {
  import opened Wrappers
  import opened Text
  import opened Seqs
  import opened Catalogue

  /** `get_movies`: exactly the catalogue movies `Selected` by `q` and `genre`, in catalogue order. */
  function GetMovies(ms: seq<Movie>, q: string, genre: string): (r: seq<Movie>)
    ensures r == Selection(ms, q, genre)
    ensures forall m :: m in r ==> m in ms && Selected(m, q, genre)
    ensures forall m :: m in ms && Selected(m, q, genre) ==> m in r
  {
    FilterCatalogueIsSelection(ms, q, genre);
    FilterCatalogue(ms, q, genre)
  }

  /** `get_recommendations`: the five top-rated movies, or all of them when there are fewer. */
  function GetRecommendations(ms: seq<Movie>): (r: seq<Movie>)
    ensures RankedPrefix(ms, r)
    ensures |r| == Min(5, |ms|)
  {
    TopOfRanking(ms, 5);
    Take(ByRating(ms), 5)
  }

  /**
   * `search_movies`: 400 without a query; otherwise the reduced records of the
   * movies containing the lower-cased query, in catalogue order.
   */
  method SearchMovies(ms: seq<Movie>, q: string) returns (r: Reply<seq<Suggestion>>)
    ensures q == "" ==> r == Error(400, "Query parameter 'q' is required")
    ensures q != "" ==> r == Ok(Summaries(WithQuery(ms, Lower(q))))
  {
    if q == "" {
      return Error(400, "Query parameter 'q' is required");
    }
    var results := CollectMatches(ms, Lower(q));
    return Ok(results);
  }

  /** `ai_chat`: 400 without a message, otherwise the keyword reply. */
  function AiChat(message: Option<string>): (r: Reply<ChatReply>)
    ensures message.None? <==> r == Error(400, "Message is required")
    ensures r.Ok? ==> |r.body.suggestions| <= 2
    ensures r.Ok? ==> var lm := Lower(message.value);
      (|r.body.suggestions| == 2 <==> Contains(lm, "recommend") || Contains(lm, "suggest"))
    ensures message.Some? ==> r == Ok(KeywordReply(message.value))
  {
    match message
    case None => Error(400, "Message is required")
    case Some(text) => Ok(KeywordReply(text))
  }
}
