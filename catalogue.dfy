/**
 * The movie catalogue that all three Python back ends serve: the movie record,
 * the reduced record of search results and chat suggestions, the `MOVIES`
 * list, and the query logic the variants share (text search over title and
 * description, case-insensitive genre match, lookup by id, ranking by rating,
 * and the loops that build lists of reduced records).
 */
module Catalogue {
  import opened Wrappers
  import opened Text
  import opened Seqs
  import opened Sorting

  /** One catalogue entry. Cast and related movies are display data and are not modelled. */
  datatype Movie = Movie(
    id: int,
    title: string,
    description: string,
    genres: seq<string>,
    rating: real,
    releaseYear: int,
    duration: string,
    director: string,
    poster: string,
    trailerUrl: string)

  /** The record a search result or a chat suggestion carries. */
  datatype Suggestion = Suggestion(id: int, title: string, poster: string, year: int, rating: real)

  datatype ChatReply = ChatReply(text: string, suggestions: seq<Suggestion>)

  /** An HTTP reply: a body with status 200, or an error status with its message. */
  datatype Reply<T> = Ok(body: T) | Error(status: nat, message: string)

  /** The `MOVIES` list that every back-end variant declares. */
  const Movies: seq<Movie> := [
    Movie(1, "Inception",
      "A thief who steals corporate secrets through the use of dream-sharing technology is given the inverse task of planting an idea into the mind of a CEO.",
      ["Sci-Fi", "Action", "Thriller"], 8.8, 2010, "148 min", "Christopher Nolan",
      "https://via.placeholder.com/600x900/1a1a1a/ffffff?text=Inception+Poster",
      "https://www.youtube.com/embed/YoHD9XEInc0"),
    Movie(2, "The Shawshank Redemption",
      "Two imprisoned men bond over a number of years, finding solace and eventual redemption through acts of common decency.",
      ["Drama"], 9.3, 1994, "142 min", "Frank Darabont",
      "https://via.placeholder.com/600x900/1a1a1a/ffffff?text=Shawshank",
      "https://www.youtube.com/embed/6hB3S9bIaco")
  ]

  function Summary(m: Movie): Suggestion {
    Suggestion(m.id, m.title, m.poster, m.releaseYear, m.rating)
  }

  function Summaries(ms: seq<Movie>): (r: seq<Suggestion>)
    ensures |r| == |ms|
    ensures forall k :: 0 <= k < |ms| ==> r[k] == Summary(ms[k])
  {
    seq(|ms|, k requires 0 <= k < |ms| => Summary(ms[k]))
  }

  /** The lower-cased query `lq` occurs in the lower-cased title or description. */
  predicate MatchesQuery(m: Movie, lq: string) {
    Contains(Lower(m.title), lq) || Contains(Lower(m.description), lq)
  }

  /** Some genre of `m`, lower-cased, equals `lg`. */
  predicate HasGenre(m: Movie, lg: string) {
    exists i :: 0 <= i < |m.genres| && Lower(m.genres[i]) == lg
  }

  function WithQuery(ms: seq<Movie>, lq: string): seq<Movie> {
    Filter(ms, m => MatchesQuery(m, lq))
  }

  function WithGenre(ms: seq<Movie>, lg: string): seq<Movie> {
    Filter(ms, m => HasGenre(m, lg))
  }

  /**
   * The `q` and `genre` filters of the movie listing, applied one after the
   * other as the handlers do; an empty parameter is falsy and filters nothing.
   */
  function FilterCatalogue(ms: seq<Movie>, q: string, genre: string): seq<Movie> {
    var lq := Lower(q);
    var lg := Lower(genre);
    var byQuery := if lq != "" then WithQuery(ms, lq) else ms;
    if lg != "" then WithGenre(byQuery, lg) else byQuery
  }

  /** The single-pass reference for the listing: a movie is kept when it satisfies both parameters. */
  predicate Selected(m: Movie, q: string, genre: string) {
    && (q == "" || MatchesQuery(m, Lower(q)))
    && (genre == "" || HasGenre(m, Lower(genre)))
  }

  function Selection(ms: seq<Movie>, q: string, genre: string): seq<Movie> {
    Filter(ms, m => Selected(m, q, genre))
  }

  /** Every movie of the selection is a catalogue movie that `Selected` keeps. */
  lemma SelectionMembers(ms: seq<Movie>, q: string, genre: string)
    ensures forall m :: m in Selection(ms, q, genre) ==> m in ms && Selected(m, q, genre)
  {
    var sel := Selection(ms, q, genre);
    forall m | m in sel ensures m in ms && Selected(m, q, genre) {
      var k :| 0 <= k < |sel| && sel[k] == m;
    }
  }

  /**
   * The two filters in sequence keep exactly the movies `Selected` keeps, in
   * catalogue order; so every listed movie matches the query and the genre.
   */
  lemma {:induction false} FilterCatalogueIsSelection(ms: seq<Movie>, q: string, genre: string)
    ensures FilterCatalogue(ms, q, genre) == Selection(ms, q, genre)
  {
    if ms != [] {
      FilterCatalogueIsSelection(ms[1..], q, genre);
    }
  }

  /** The movie `id` names, as the index of its first occurrence. */
  function FindById(ms: seq<Movie>, id: int): (r: Option<nat>)
    ensures r.Some? ==> r.value < |ms| && ms[r.value].id == id
    ensures r.Some? ==> forall k :: 0 <= k < r.value ==> ms[k].id != id
    ensures r.None? <==> forall k :: 0 <= k < |ms| ==> ms[k].id != id
  {
    if ms == [] then None
    else if ms[0].id == id then Some(0)
    else match FindById(ms[1..], id)
      case None => None
      case Some(k) => Some(k + 1)
  }

  /** `next((m for m in MOVIES if m.id == id), None)`, with 404 when there is none. */
  function MovieById(ms: seq<Movie>, id: int): (r: Reply<Movie>)
    ensures r.Ok? <==> exists k :: 0 <= k < |ms| && ms[k].id == id
    ensures r.Ok? ==> exists k :: 0 <= k < |ms| && ms[k] == r.body && forall j :: 0 <= j < k ==> ms[j].id != id
    ensures r.Error? ==> r == Error(404, "Movie not found")
  {
    match FindById(ms, id)
    case Some(k) => Ok(ms[k])
    case None => Error(404, "Movie not found")
  }

  /** `a` is ranked above `b`: the order of `sorted(..., key=rating, reverse=True)`. */
  predicate RatedAbove(a: Movie, b: Movie) {
    a.rating > b.rating
  }

  lemma RatedAboveIsStrictWeakOrder()
    ensures StrictWeakOrder(RatedAbove)
  {
  }

  /** The catalogue stably sorted by non-increasing rating. */
  function ByRating(ms: seq<Movie>): seq<Movie> {
    SortBy(ms, RatedAbove)
  }

  /**
   * Ranking reorders the catalogue, puts ratings in non-increasing order, and
   * keeps movies of equal rating in catalogue order.
   */
  lemma ByRatingSpec(ms: seq<Movie>)
    ensures multiset(ByRating(ms)) == multiset(ms)
    ensures forall i, j :: 0 <= i < j < |ms| ==> ByRating(ms)[i].rating >= ByRating(ms)[j].rating
    ensures forall m :: Peers(ByRating(ms), m, RatedAbove) == Peers(ms, m, RatedAbove)
  {
    RatedAboveIsStrictWeakOrder();
    ByRatingOrdered(ms);
    forall m ensures Peers(ByRating(ms), m, RatedAbove) == Peers(ms, m, RatedAbove) {
      SortStable(ms, m, RatedAbove);
    }
  }

  function Min(a: nat, b: nat): nat {
    if a < b then a else b
  }

  /** `len(s[skip:])` for a list of length `len`. */
  function Rest(len: nat, skip: nat): nat {
    if skip < len then len - skip else 0
  }

  /**
   * `s[skip:]` cut to `limit` when there is one: the elements of `s` from
   * index `skip` on, in order, `limit` of them at most.
   */
  lemma Window<T>(s: seq<T>, skip: nat, limit: Option<nat>)
    ensures var r := if limit.Some? then Take(Drop(s, skip), limit.value) else Drop(s, skip);
      && (forall k :: 0 <= k < |r| ==> skip + k < |s| && r[k] == s[skip + k])
      && |r| == (if limit.Some? then Min(limit.value, Rest(|s|, skip)) else Rest(|s|, skip))
      && (forall x :: x in r ==> x in s)
  {
    var r := if limit.Some? then Take(Drop(s, skip), limit.value) else Drop(s, skip);
    forall x | x in r ensures x in s {
      var k :| 0 <= k < |r| && r[k] == x;
      assert s[skip + k] == x;
    }
  }

  /**
   * `r` is the top of the ranking of `ms`: a prefix of `ByRating(ms)` drawn from
   * `ms`, in non-increasing rating order, with no movie left out rated above a
   * movie in it.
   */
  ghost predicate RankedPrefix(ms: seq<Movie>, r: seq<Movie>) {
    && |r| <= |ms|
    && r == ByRating(ms)[..|r|]
    && multiset(r) <= multiset(ms)
    && (forall i, j :: 0 <= i < j < |r| ==> r[i].rating >= r[j].rating)
    && (forall i, j :: 0 <= i < |r| && 0 <= j < |ms| && ms[j] !in r ==> r[i].rating >= ms[j].rating)
  }

  /** `sorted(ms, key=rating, reverse=True)[:n]` is the top of the ranking, of length `min(n, len(ms))`. */
  lemma TopOfRanking(ms: seq<Movie>, n: nat)
    ensures |Take(ByRating(ms), n)| == Min(n, |ms|)
    ensures RankedPrefix(ms, Take(ByRating(ms), n))
  {
    ByRatingOrdered(ms);
    var r := ByRating(ms);
    var top := Take(r, n);
    assert r == top + r[|top|..];
    assert multiset(r) == multiset(top) + multiset(r[|top|..]);
    forall i, j | 0 <= i < |top| && 0 <= j < |ms| && ms[j] !in top
      ensures top[i].rating >= ms[j].rating
    {
      assert ms[j] in multiset(r);
      var k :| 0 <= k < |r| && r[k] == ms[j];
      assert k >= |top|;
      assert top[i] == r[i];
    }
  }

  /**
   * On the `MOVIES` list itself: the recommendations put The Shawshank
   * Redemption (9.3) before Inception (8.8), and an unknown id is a 404.
   */
  lemma CatalogueRanking()
    ensures ByRating(Movies) == [Movies[1], Movies[0]]
    ensures MovieById(Movies, 3) == Error(404, "Movie not found")
  {
    assert SortBy(Movies[1..], RatedAbove) == [Movies[1]] by {
      assert Movies[1..][1..] == [];
    }
    assert RatedAbove(Movies[1], Movies[0]);
    assert InsertBy(Movies[0], [Movies[1]], RatedAbove) == [Movies[1]] + InsertBy(Movies[0], [], RatedAbove);
  }

  /** The ranking is a permutation of the catalogue in non-increasing rating order. */
  lemma ByRatingOrdered(ms: seq<Movie>)
    ensures multiset(ByRating(ms)) == multiset(ms)
    ensures forall i, j :: 0 <= i < j < |ms| ==> ByRating(ms)[i].rating >= ByRating(ms)[j].rating
  {
    RatedAboveIsStrictWeakOrder();
    SortPermutation(ms, RatedAbove);
    SortSorted(ms, RatedAbove);
  }

  lemma SummariesAppend(ms: seq<Movie>, m: Movie)
    ensures Summaries(ms + [m]) == Summaries(ms) + [Summary(m)]
  {
  }

  /**
   * The search loop shared by the variants: walks the catalogue and appends
   * the reduced record of every movie whose title or description contains `lq`.
   */
  method CollectMatches(ms: seq<Movie>, lq: string) returns (results: seq<Suggestion>)
    ensures results == Summaries(WithQuery(ms, lq))
  {
    results := [];
    for i := 0 to |ms|
      invariant results == Summaries(WithQuery(ms[..i], lq))
    {
      SearchStep(ms, i, lq);
      if MatchesQuery(ms[i], lq) {
        results := results + [Summary(ms[i])];
      }
    }
    assert ms[..|ms|] == ms;
  }

  /** One more movie of the catalogue adds its reduced record to the results exactly when it matches. */
  lemma SearchStep(ms: seq<Movie>, i: nat, lq: string)
    requires i < |ms|
    ensures Summaries(WithQuery(ms[..i + 1], lq))
      == Summaries(WithQuery(ms[..i], lq)) + (if MatchesQuery(ms[i], lq) then [Summary(ms[i])] else [])
  {
    assert ms[..i + 1] == ms[..i] + [ms[i]];
    FilterConcat(ms[..i], [ms[i]], m => MatchesQuery(m, lq));
    SummariesAppend(WithQuery(ms[..i], lq), ms[i]);
  }

  /** The loop that appends the reduced record of each movie of `ms`. */
  method SummarizeAll(ms: seq<Movie>) returns (results: seq<Suggestion>)
    ensures results == Summaries(ms)
  {
    results := [];
    for i := 0 to |ms|
      invariant results == Summaries(ms[..i])
    {
      assert ms[..i + 1] == ms[..i] + [ms[i]];
      SummariesAppend(ms[..i], ms[i]);
      results := results + [Summary(ms[i])];
    }
    assert ms[..|ms|] == ms;
  }

  /** `s` is the reduced record of some movie of `ms` that contains `lq`. */
  ghost predicate SummarisesMatch(ms: seq<Movie>, lq: string, s: Suggestion) {
    exists j :: 0 <= j < |ms| && MatchesQuery(ms[j], lq) && s == Summary(ms[j])
  }

  /**
   * A search result list is the reduced records of the matching movies in
   * catalogue order: each entry summarises a movie that contains the query,
   * and every matching movie has its entry.
   */
  lemma SearchResultsSpec(ms: seq<Movie>, lq: string)
    ensures forall s :: s in Summaries(WithQuery(ms, lq)) ==> SummarisesMatch(ms, lq, s)
    ensures forall m :: m in ms && MatchesQuery(m, lq) ==> Summary(m) in Summaries(WithQuery(ms, lq))
  {
    var w := WithQuery(ms, lq);
    forall s | s in Summaries(w) ensures SummarisesMatch(ms, lq, s) {
      var k :| 0 <= k < |Summaries(w)| && Summaries(w)[k] == s;
      assert w[k] in ms && MatchesQuery(w[k], lq);
      var j :| 0 <= j < |ms| && ms[j] == w[k];
      assert s == Summary(ms[j]);
    }
    forall m | m in ms && MatchesQuery(m, lq) ensures Summary(m) in Summaries(w) {
      var i :| 0 <= i < |ms| && ms[i] == m;
      assert m in w;
      var k :| 0 <= k < |w| && w[k] == m;
      assert Summaries(w)[k] == Summary(m);
    }
  }

  /** The fixed suggestion list of the keyword chat rules; the posters are the small 100x150 ones. */
  const KeywordSuggestions: seq<Suggestion> := [
    Suggestion(1, "Inception", "https://via.placeholder.com/100x150/1a1a1a/ffffff?text=Inception", 2010, 8.8),
    Suggestion(2, "The Shawshank Redemption", "https://via.placeholder.com/100x150/1a1a1a/ffffff?text=Shawshank", 1994, 9.3)
  ]

  const RecommendText := "I understand you're looking for movie recommendations. Here are some suggestions:"
  const ActionText := "For action movies, I recommend:"
  const HelpText := "I'm here to help with movie recommendations! Try asking for recommendations or search for specific genres."

  /**
   * The keyword chat rules shared by routes/default_controller.py and
   * routes/movies.py, on the lower-cased message: 'recommend' or 'suggest'
   * wins over 'action'; without either the reply is the help text alone.
   */
  function KeywordReply(message: string): (r: ChatReply)
    ensures var lm := Lower(message);
      && (|r.suggestions| == 2 <==> Contains(lm, "recommend") || Contains(lm, "suggest"))
      && (|r.suggestions| == 1 <==> !Contains(lm, "recommend") && !Contains(lm, "suggest") && Contains(lm, "action"))
      && (r.suggestions == [] <==> r.text == HelpText)
      && (|r.suggestions| == 2 ==> r.text == RecommendText)
      && (|r.suggestions| == 1 ==> r.text == ActionText)
      && |r.suggestions| <= |KeywordSuggestions| && r.suggestions == KeywordSuggestions[..|r.suggestions|]
  {
    var lm := Lower(message);
    if Contains(lm, "recommend") || Contains(lm, "suggest") then
      ChatReply(RecommendText, KeywordSuggestions)
    else if Contains(lm, "action") then
      ChatReply(ActionText, KeywordSuggestions[..1])
    else
      ChatReply(HelpText, [])
  }

  /** The keyword rules ignore case: a message and its lower-cased form get the same reply. */
  lemma KeywordReplyIgnoresCase(message: string)
    ensures KeywordReply(Lower(message)) == KeywordReply(message)
  {
    LowerIdempotent(message);
  }
}
