/**
 * backend/app.py: the Flask application that mounts routes/movies.py and serves
 * `/api/watchlist` from one handler that dispatches on the HTTP method over its
 * own `WATCHLISTS` dictionary.
 */
module App {
  import opened Wrappers
  import opened Seqs
  import opened WatchlistStore

  datatype HttpMethod = Get | Post | Delete

  /**
   * `handle_watchlist`. GET answers the user's list; POST and DELETE answer 400
   * without `movie_id`. POST leaves the id on the list once; DELETE removes a
   * listed id or answers 404. Only the list of the header's user changes.
   */
  method HandleWatchlist(store: Store, verb: HttpMethod, userHeader: Option<string>, movieId: Option<int>)
    returns (r: Response)
    requires store.Valid()
    modifies store
    ensures store.Valid()
    ensures var user := UserKey(userHeader);
      forall v :: v != user ==> (v in store.lists <==> v in old(store.lists)) && store.Get(v) == old(store.Get(v))
    ensures verb == Get ==> r == Ids(old(store.Get(UserKey(userHeader)))) && store.lists == old(store.lists)
    ensures verb != Get && movieId.None? ==> r == Failed(400, "movie_id is required") && store.lists == old(store.lists)
    ensures verb == Post && movieId.Some? ==>
      && r == Done("Movie added to watchlist")
      && store.lists == Added(old(store.lists), UserKey(userHeader), movieId.value)
      && Count(store.Get(UserKey(userHeader)), movieId.value) == 1
    ensures verb == Delete && movieId.Some? && movieId.value in old(store.Get(UserKey(userHeader))) ==>
      && r == Done("Movie removed from watchlist")
      && store.lists == Removed(old(store.lists), UserKey(userHeader), movieId.value)
      && movieId.value !in store.Get(UserKey(userHeader))
    ensures verb == Delete && movieId.Some? && movieId.value !in old(store.Get(UserKey(userHeader))) ==>
      r == Failed(404, "Movie not in watchlist") && store.lists == old(store.lists)
  {
    var user := UserKey(userHeader);
    match verb {
      case Get =>
        r := Ids(store.Get(user));
      case Post =>
        if movieId.None? {
          return Failed(400, "movie_id is required");
        }
        AddedSpec(store.lists, user, movieId.value);
        store.Add(user, movieId.value);
        r := Done("Movie added to watchlist");
      case Delete =>
        if movieId.None? {
          return Failed(400, "movie_id is required");
        }
        if movieId.value in store.Get(user) {
          RemovedSpec(store.lists, user, movieId.value);
        }
        var found := store.Remove(user, movieId.value);
        if found {
          return Done("Movie removed from watchlist");
        }
        r := Failed(404, "Movie not in watchlist");
    }
  }
}
