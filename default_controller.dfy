/**
 * backend/routes/default_controller.py: the connexion controller, whose query
 * parameters arrive as Python ints. A `limit` or `offset` of `None` or `0` is
 * falsy and ignored, so `limit=0` returns the whole filtered list; a `q` or
 * `genre` of `None` behaves as the empty string. The search does not reject an
 * empty query: the empty string occurs in every title, so it matches all movies.
 * The chat handler is `Catalogue.KeywordReply`.
 */
module DefaultController {
  import opened Wrappers
  import opened Text
  import opened Seqs
  import opened Catalogue
  import opened WatchlistStore

  /** Python truthiness of an optional int: present and non-zero. */
  predicate Truthy(n: Option<nat>) {
    n.Some? && n.value != 0
  }

  /**
   * `movies_get`: the movies `Selected` by `q` and `genre` in catalogue order,
   * the first `offset` of them dropped and the rest cut to `limit`, where a
   * zero limit or offset does nothing.
   */
  function MoviesGet(ms: seq<Movie>, q: string, genre: string, limit: Option<nat>, offset: Option<nat>): (r: seq<Movie>)
    ensures forall m :: m in r ==> m in ms && Selected(m, q, genre)
    ensures var sel := Selection(ms, q, genre); var skip := offset.GetOr(0);
      && (forall k :: 0 <= k < |r| ==> skip + k < |sel| && r[k] == sel[skip + k])
      && |r| == (if Truthy(limit) then Min(limit.value, Rest(|sel|, skip)) else Rest(|sel|, skip))
    ensures limit == Some(0) && offset == Some(0) ==> r == Selection(ms, q, genre)
  {
    FilterCatalogueIsSelection(ms, q, genre);
    var filtered := FilterCatalogue(ms, q, genre);
    var skipped := if Truthy(offset) then Drop(filtered, offset.value) else filtered;
    assert skipped == Drop(filtered, offset.GetOr(0));
    Window(filtered, offset.GetOr(0), if Truthy(limit) then limit else None);
    SelectionMembers(ms, q, genre);
    if Truthy(limit) then Take(skipped, limit.value) else skipped
  }

  /** `movies_recommendations_get`: the rating ranking, cut to `limit` when it is non-zero. */
  function MoviesRecommendationsGet(ms: seq<Movie>, limit: Option<nat>): (r: seq<Movie>)
    ensures RankedPrefix(ms, r)
    ensures |r| == if Truthy(limit) then Min(limit.value, |ms|) else |ms|
  {
    var n := if Truthy(limit) then limit.value else |ms|;
    TopOfRanking(ms, n);
    Take(ByRating(ms), n)
  }

  /**
   * `movies_search_get`: the reduced records of the movies containing the
   * lower-cased query, in catalogue order, cut to `limit` when it is non-zero.
   */
  method MoviesSearchGet(ms: seq<Movie>, q: string, limit: Option<nat>) returns (r: seq<Suggestion>)
    ensures var all := Summaries(WithQuery(ms, Lower(q)));
      && |r| == (if Truthy(limit) then Min(limit.value, |all|) else |all|)
      && r == all[..|r|]
  {
    r := CollectMatches(ms, Lower(q));
    if Truthy(limit) {
      r := Take(r, limit.value);
    }
  }

  /** With an empty query every movie matches, so the search lists the whole catalogue. */
  lemma EmptyQueryMatchesAll(ms: seq<Movie>)
    ensures WithQuery(ms, Lower("")) == ms
    ensures Summaries(WithQuery(ms, Lower(""))) == Summaries(ms)
  {
    assert Lower("") == "";
    forall i | 0 <= i < |ms| ensures MatchesQuery(ms[i], "") {
      EmptyOccursEverywhere(Lower(ms[i].title));
    }
    FilterAll(ms, m => MatchesQuery(m, ""));
  }

  /** `watchlist_get`: the list of the header's user, `[]` for a user without one. */
  method WatchlistGet(store: Store, userHeader: Option<string>) returns (ids: seq<int>)
    ensures ids == store.Get(UserKey(userHeader))
    ensures UserKey(userHeader) !in store.lists ==> ids == []
  {
    return store.Get(UserKey(userHeader));
  }

  /** `watchlist_post`: always succeeds and leaves the id on the user's list once. */
  method WatchlistPost(store: Store, userHeader: Option<string>, movieId: int) returns (r: Response)
    requires store.Valid()
    modifies store
    ensures store.Valid()
    ensures r == Done("Movie added to watchlist")
    ensures store.lists == Added(old(store.lists), UserKey(userHeader), movieId)
    ensures Count(store.Get(UserKey(userHeader)), movieId) == 1
  {
    store.Add(UserKey(userHeader), movieId);
    return Done("Movie added to watchlist");
  }

  /** `watchlist_delete`: removes the id from the user's list, or answers 404 and changes nothing. */
  method WatchlistDelete(store: Store, userHeader: Option<string>, movieId: int) returns (r: Response)
    requires store.Valid()
    modifies store
    ensures store.Valid()
    ensures movieId in old(store.Get(UserKey(userHeader))) ==>
      && r == Done("Movie removed from watchlist")
      && store.lists == Removed(old(store.lists), UserKey(userHeader), movieId)
    ensures movieId !in old(store.Get(UserKey(userHeader))) ==>
      r == Failed(404, "Movie not in watchlist") && store.lists == old(store.lists)
  {
    var found := store.Remove(UserKey(userHeader), movieId);
    if found {
      return Done("Movie removed from watchlist");
    }
    return Failed(404, "Movie not in watchlist");
  }
}
