/**
 * frontend/src/app/movie-list/movie-list.ts: the catalogue page. It filters its
 * movies by a search term and by the selected genres, sorts them by title, year
 * or rating, shows them twelve to a page, and keeps a watchlist without
 * repeated ids. `Array.prototype.sort` is a library call and is modelled by the
 * stable `Sorting.SortBy`; `localeCompare` is modelled by `Text.StrLess`.
 */
module MovieListPage {
  import opened Text
  import opened Seqs
  import opened Sorting

  /** A movie card of this page; each movie has a single genre here. */
  datatype Movie = Movie(id: int, title: string, year: int, genre: string, rating: real, poster: string, description: string)

  const ItemsPerPage: nat := 12

  /** The page's fixed `movies` list. */
  const Catalog: seq<Movie> := [
    Movie(1, "Inception", 2010, "Sci-Fi", 8.8, "https://via.placeholder.com/300x450/1a1a1a/ffffff?text=Inception",
      "A thief who steals corporate secrets through dream-sharing technology."),
    Movie(2, "The Dark Knight", 2008, "Action", 9.0, "https://via.placeholder.com/300x450/1a1a1a/ffffff?text=Dark+Knight",
      "Batman faces the Joker in a battle for Gotham's soul."),
    Movie(3, "Interstellar", 2014, "Sci-Fi", 8.6, "https://via.placeholder.com/300x450/1a1a1a/ffffff?text=Interstellar",
      "A team of explorers travel through a wormhole in space."),
    Movie(4, "Pulp Fiction", 1994, "Crime", 8.9, "https://via.placeholder.com/300x450/1a1a1a/ffffff?text=Pulp+Fiction",
      "The lives of two mob hitmen intertwine with those of a boxer and a pair of diner bandits."),
    Movie(5, "The Shawshank Redemption", 1994, "Drama", 9.3, "https://via.placeholder.com/300x450/1a1a1a/ffffff?text=Shawshank",
      "Two imprisoned men bond over a number of years."),
    Movie(6, "The Godfather", 1972, "Crime", 9.2, "https://via.placeholder.com/300x450/1a1a1a/ffffff?text=Godfather",
      "The aging patriarch of an organized crime dynasty transfers control to his reluctant son."),
    Movie(7, "Forrest Gump", 1994, "Drama", 8.8, "https://via.placeholder.com/300x450/1a1a1a/ffffff?text=Forrest+Gump",
      "The presidencies of Kennedy and Johnson, Vietnam, Watergate, and other events unfold from the perspective of an Alabama man."),
    Movie(8, "The Matrix", 1999, "Sci-Fi", 8.7, "https://via.placeholder.com/300x450/1a1a1a/ffffff?text=Matrix",
      "A computer hacker learns about the true nature of reality."),
    Movie(9, "Titanic", 1997, "Romance", 7.8, "https://via.placeholder.com/300x450/1a1a1a/ffffff?text=Titanic",
      "A seventeen-year-old aristocrat falls in love with a kind but poor artist aboard the luxurious, ill-fated R.M.S. Titanic."),
    Movie(10, "Avatar", 2009, "Sci-Fi", 7.8, "https://via.placeholder.com/300x450/1a1a1a/ffffff?text=Avatar",
      "A paraplegic Marine dispatched to the moon Pandora on a unique mission becomes torn between following his orders and protecting the world he feels is his home."),
    Movie(11, "The Avengers", 2012, "Action", 8.0, "https://via.placeholder.com/300x450/1a1a1a/ffffff?text=Avengers",
      "Earth's mightiest heroes must come together and learn to fight as a team."),
    Movie(12, "Jurassic Park", 1993, "Adventure", 8.1, "https://via.placeholder.com/300x450/1a1a1a/ffffff?text=Jurassic+Park",
      "A pragmatic paleontologist visiting an almost complete theme park is tasked with protecting a couple of kids after a power failure causes the park's cloned dinosaurs to run loose.")
  ]

  /* ---------- filtering and sorting ---------- */

  /** The lower-cased term occurs in the lower-cased title or description. */
  predicate MatchesSearch(m: Movie, term: string) {
    Contains(Lower(m.title), Lower(term)) || Contains(Lower(m.description), Lower(term))
  }

  function SearchFilter(ms: seq<Movie>, term: string): seq<Movie> {
    Filter(ms, m => MatchesSearch(m, term))
  }

  function GenreFilter(ms: seq<Movie>, selected: seq<string>): seq<Movie> {
    Filter(ms, (m: Movie) => m.genre in selected)
  }

  /** `a.title.localeCompare(b.title) < 0`. */
  predicate TitleBefore(a: Movie, b: Movie) {
    StrLess(a.title, b.title)
  }

  /** `b.year - a.year < 0`: newer first. */
  predicate YearBefore(a: Movie, b: Movie) {
    a.year > b.year
  }

  /** `b.rating - a.rating < 0`: better rated first. */
  predicate RatingBefore(a: Movie, b: Movie) {
    a.rating > b.rating
  }

  /** The default comparator, which always returns 0. */
  predicate Unordered(a: Movie, b: Movie) {
    false
  }

  /** The comparator `applyFilters` sorts with, as "comes strictly before". */
  function Order(sortBy: string): (Movie, Movie) -> bool {
    if sortBy == "title" then TitleBefore
    else if sortBy == "year" then YearBefore
    else if sortBy == "rating" then RatingBefore
    else Unordered
  }

  lemma TitleBeforeIsStrictWeakOrder()
    ensures StrictWeakOrder(TitleBefore)
  {
    forall a: Movie ensures !TitleBefore(a, a) {
      StrLessIrreflexive(a.title);
    }
    forall a: Movie, b: Movie, c: Movie | TitleBefore(a, b) && TitleBefore(b, c) ensures TitleBefore(a, c) {
      StrLessTransitive(a.title, b.title, c.title);
    }
    forall a: Movie, b: Movie, c: Movie | !TitleBefore(a, b) && !TitleBefore(b, c) ensures !TitleBefore(a, c) {
      StrLessTotal(a.title, b.title);
      StrLessTotal(b.title, c.title);
      if a.title != b.title && b.title != c.title {
        StrLessTransitive(c.title, b.title, a.title);
      }
      if c.title == a.title {
        StrLessIrreflexive(a.title);
      } else {
        StrLessAsymmetric(c.title, a.title);
      }
    }
  }

  /** Every comparator of the page induces a strict weak order, so the sort is well defined. */
  lemma OrderIsStrictWeakOrder(sortBy: string)
    ensures StrictWeakOrder(Order(sortBy))
  {
    TitleBeforeIsStrictWeakOrder();
  }

  /** What `applyFilters` computes: search filter, genre filter, then the stable sort. */
  function Arranged(ms: seq<Movie>, term: string, selected: seq<string>, sortBy: string): seq<Movie> {
    var searched := if term != "" then SearchFilter(ms, term) else ms;
    var chosen := if "All" !in selected then GenreFilter(searched, selected) else searched;
    SortBy(chosen, Order(sortBy))
  }

  /** A movie passes both filters of the page. */
  predicate Shown(m: Movie, term: string, selected: seq<string>) {
    (term == "" || MatchesSearch(m, term)) && ("All" in selected || m.genre in selected)
  }

  /** The single-pass reference for the two filters: the shown movies in list order. */
  function Visible(ms: seq<Movie>, term: string, selected: seq<string>): seq<Movie> {
    Filter(ms, m => Shown(m, term, selected))
  }

  lemma {:induction false} FiltersAreVisible(ms: seq<Movie>, term: string, selected: seq<string>)
    ensures (var searched := if term != "" then SearchFilter(ms, term) else ms;
             if "All" !in selected then GenreFilter(searched, selected) else searched)
         == Visible(ms, term, selected)
  {
    if ms != [] {
      FiltersAreVisible(ms[1..], term, selected);
    }
  }

  /**
   * `applyFilters` shows exactly the movies passing the search and genre
   * filters, each once; ordered by year or rating they are newest or best
   * first, by title in title order, and otherwise in list order.
   */
  lemma ArrangedSpec(ms: seq<Movie>, term: string, selected: seq<string>, sortBy: string)
    ensures var r := Arranged(ms, term, selected, sortBy);
      && multiset(r) == multiset(Visible(ms, term, selected))
      && (forall m :: m in r ==> m in ms && Shown(m, term, selected))
      && (forall m :: m in ms && Shown(m, term, selected) ==> m in r)
      && (sortBy == "year" ==> forall i, j :: 0 <= i < j < |r| ==> r[i].year >= r[j].year)
      && (sortBy == "rating" ==> forall i, j :: 0 <= i < j < |r| ==> r[i].rating >= r[j].rating)
      && (sortBy == "title" ==> forall i, j :: 0 <= i < j < |r| ==> !StrLess(r[j].title, r[i].title))
      && (sortBy != "title" && sortBy != "year" && sortBy != "rating" ==> r == Visible(ms, term, selected))
  {
    var v := Visible(ms, term, selected);
    FiltersAreVisible(ms, term, selected);
    OrderIsStrictWeakOrder(sortBy);
    SortPermutation(v, Order(sortBy));
    SortSorted(v, Order(sortBy));
    var r := Arranged(ms, term, selected, sortBy);
    forall m | m in r ensures m in ms && Shown(m, term, selected) {
      assert m in multiset(v);
    }
    forall m | m in ms && Shown(m, term, selected) ensures m in r {
      assert m in v;
      assert m in multiset(r);
    }
    if sortBy != "title" && sortBy != "year" && sortBy != "rating" {
      SortUnordered(v, Order(sortBy));
    }
  }

  /* ---------- pagination ---------- */

  /** `Math.ceil(n / itemsPerPage)`. */
  function PageCount(n: nat): (p: nat)
    ensures p * ItemsPerPage >= n
    ensures p == 0 || (p - 1) * ItemsPerPage < n
  {
    (n + ItemsPerPage - 1) / ItemsPerPage
  }

  /** The largest page the page counter may show: one even when there is nothing to show. */
  function LastPage(n: nat): nat {
    if PageCount(n) < 1 then 1 else PageCount(n)
  }

  /** Page `page` (from 1) of `ms`: `ms.slice(start, start + itemsPerPage)` with `start = (page - 1) * itemsPerPage`. */
  function Page(ms: seq<Movie>, page: nat): (r: seq<Movie>)
    requires page >= 1
    ensures |r| <= ItemsPerPage
    ensures forall k :: 0 <= k < |r| ==> (page - 1) * ItemsPerPage + k < |ms| && r[k] == ms[(page - 1) * ItemsPerPage + k]
    ensures page <= PageCount(|ms|) ==> |r| == Min(ItemsPerPage, |ms| - (page - 1) * ItemsPerPage)
  {
    var start := (page - 1) * ItemsPerPage;
    Slice(ms, start, start + ItemsPerPage)
  }

  function Min(a: int, b: int): int {
    if a < b then a else b
  }

  /** The pages cover the list: element `i` is at place `i % 12` of page `i / 12 + 1`, a page that exists. */
  lemma PagesCover(ms: seq<Movie>, i: nat)
    requires i < |ms|
    ensures 1 <= i / ItemsPerPage + 1 <= PageCount(|ms|)
    ensures Page(ms, i / ItemsPerPage + 1)[i % ItemsPerPage] == ms[i]
  {
    var p := i / ItemsPerPage + 1;
    assert (p - 1) * ItemsPerPage + i % ItemsPerPage == i;
    assert (p - 1) * ItemsPerPage <= i;
    assert PageCount(|ms|) * ItemsPerPage > (p - 1) * ItemsPerPage;
    var r := Page(ms, p);
    assert |r| > i % ItemsPerPage;
  }

  /* ---------- genre selection ---------- */

  function WithoutGenre(selected: seq<string>, genre: string): (r: seq<string>) {
    Filter(selected, g => g != genre)
  }

  /** The selection is never empty, never repeats a genre, and is either exactly `['All']` or free of 'All'. */
  ghost predicate GenresOk(selected: seq<string>) {
    && |selected| > 0
    && NoDuplicates(selected)
    && (selected == ["All"] || "All" !in selected)
  }

  /** The selection after `toggleGenre(genre)`. */
  function Toggled(selected: seq<string>, genre: string): seq<string> {
    if genre == "All" then ["All"]
    else
      var rest := WithoutGenre(selected, "All");
      if genre in rest then
        var fewer := WithoutGenre(rest, genre);
        if |fewer| == 0 then ["All"] else fewer
      else rest + [genre]
  }

  /** Toggling keeps the selection well formed, and a genre other than 'All' ends up selected iff it was not before. */
  lemma ToggledSpec(selected: seq<string>, genre: string)
    requires GenresOk(selected)
    ensures GenresOk(Toggled(selected, genre))
    ensures genre != "All" ==> (genre in Toggled(selected, genre) <==> genre !in selected)
  {
    var rest := WithoutGenre(selected, "All");
    FilterNoDuplicates(selected, g => g != "All");
    assert "All" !in rest;
    if genre != "All" {
      assert genre in rest <==> genre in selected;
      if genre in rest {
        var fewer := WithoutGenre(rest, genre);
        FilterNoDuplicates(rest, g => g != genre);
        assert genre !in fewer && "All" !in fewer;
      } else {
        assert NoDuplicates(rest + [genre]);
      }
    }
  }

  /** Toggling a genre on and off again restores a selection of specific genres. */
  lemma ToggleTwice(selected: seq<string>, genre: string)
    requires GenresOk(selected) && "All" !in selected
    requires genre != "All" && genre !in selected
    ensures Toggled(Toggled(selected, genre), genre) == selected
  {
    FilterAll(selected, g => g != "All");
    var once := selected + [genre];
    assert Toggled(selected, genre) == once;
    assert forall i :: 0 <= i < |once| ==> once[i] != "All";
    FilterAll(once, g => g != "All");
    FilterConcat(selected, [genre], g => g != genre);
    FilterAll(selected, g => g != genre);
    assert WithoutGenre(once, genre) == selected;
  }

  /* ---------- watchlist ---------- */

  /** `w.some(m => m.id === id)`. */
  function HasId(w: seq<Movie>, id: int): (b: bool)
    ensures b <==> exists i :: 0 <= i < |w| && w[i].id == id
  {
    if w == [] then false
    else if w[0].id == id then true
    else
      assert forall i :: 1 <= i < |w| ==> w[i] == w[1..][i - 1];
      HasId(w[1..], id)
  }

  /** No two watchlist entries share an id. */
  ghost predicate DistinctIds(w: seq<Movie>) {
    forall i, j :: 0 <= i < j < |w| ==> w[i].id != w[j].id
  }

  /** The watchlist after `addToWatchlist(m)`: `m` is pushed only when no entry has its id. */
  function WithMovie(w: seq<Movie>, m: Movie): seq<Movie> {
    if HasId(w, m.id) then w else w + [m]
  }

  /** Adding keeps ids distinct, leaves the movie's id listed, keeps what was there, and is idempotent. */
  lemma WithMovieSpec(w: seq<Movie>, m: Movie)
    requires DistinctIds(w)
    ensures DistinctIds(WithMovie(w, m))
    ensures HasId(WithMovie(w, m), m.id)
    ensures WithMovie(w, m)[..|w|] == w
    ensures WithMovie(WithMovie(w, m), m) == WithMovie(w, m)
  {
    var r := WithMovie(w, m);
    assert r[|r| - 1].id == m.id || HasId(w, m.id);
  }

  /* ---------- the component ---------- */

  class MovieList {
    var movies: seq<Movie>
    var filteredMovies: seq<Movie>
    var watchlist: seq<Movie>
    var selectedGenres: seq<string>
    var sortBy: string
    var searchTerm: string
    var currentPage: int
    var featuredMovies: seq<Movie>
    /** The alerts shown, in order. */
    var alerts: seq<string>

    ghost predicate Valid()
      reads this
    {
      && 1 <= currentPage <= LastPage(|filteredMovies|)
      && GenresOk(selectedGenres)
      && DistinctIds(watchlist)
    }

    /** The field initialisers. */
    constructor ()
      ensures Valid()
      ensures movies == Catalog && filteredMovies == [] && watchlist == []
      ensures selectedGenres == ["All"] && sortBy == "title" && searchTerm == "" && currentPage == 1
      ensures featuredMovies == Catalog[..3] && alerts == []
    {
      movies := Catalog;
      filteredMovies := [];
      watchlist := [];
      selectedGenres := ["All"];
      sortBy := "title";
      searchTerm := "";
      currentPage := 1;
      featuredMovies := Catalog[..3];
      alerts := [];
    }

    /** Shows the movies passing both filters in the chosen order, from the first page. */
    method ApplyFilters()
      requires Valid()
      modifies this`filteredMovies, this`currentPage
      ensures Valid()
      ensures filteredMovies == Arranged(movies, searchTerm, selectedGenres, sortBy)
      ensures currentPage == 1
    {
      var filtered := movies;
      if searchTerm != "" {
        filtered := SearchFilter(filtered, searchTerm);
      }
      if "All" !in selectedGenres {
        filtered := GenreFilter(filtered, selectedGenres);
      }
      filtered := SortBy(filtered, Order(sortBy));
      filteredMovies := filtered;
      currentPage := 1;
    }

    method NgOnInit()
      requires Valid()
      modifies this`filteredMovies, this`currentPage
      ensures Valid()
      ensures filteredMovies == Arranged(movies, searchTerm, selectedGenres, sortBy)
      ensures currentPage == 1
    {
      filteredMovies := movies;
      currentPage := 1;
      ApplyFilters();
    }

    /** `getPaginatedMovies`: the current page of the filtered list. */
    function GetPaginatedMovies(): (r: seq<Movie>)
      reads this
      requires currentPage >= 1
      ensures r == Page(filteredMovies, currentPage)
    {
      var start := (currentPage - 1) * ItemsPerPage;
      Slice(filteredMovies, start, start + ItemsPerPage)
    }

    /** `getTotalPages`. */
    function GetTotalPages(): (p: nat)
      reads this
      ensures p == PageCount(|filteredMovies|)
    {
      (|filteredMovies| + ItemsPerPage - 1) / ItemsPerPage
    }

    /** Moves one page on unless this is the last page. */
    method NextPage()
      requires Valid()
      modifies this`currentPage
      ensures Valid()
      ensures currentPage == if old(currentPage) < PageCount(|filteredMovies|) then old(currentPage) + 1 else old(currentPage)
    {
      if currentPage < GetTotalPages() {
        currentPage := currentPage + 1;
      }
    }

    /** Moves one page back unless this is the first page. */
    method PrevPage()
      requires Valid()
      modifies this`currentPage
      ensures Valid()
      ensures currentPage == if old(currentPage) > 1 then old(currentPage) - 1 else old(currentPage)
    {
      if currentPage > 1 {
        currentPage := currentPage - 1;
      }
    }

    /** `toggleGenre`: updates the selection as `Toggled` says, then re-applies the filters. */
    method ToggleGenre(genre: string)
      requires Valid()
      modifies this`selectedGenres, this`filteredMovies, this`currentPage
      ensures Valid()
      ensures selectedGenres == Toggled(old(selectedGenres), genre)
      ensures filteredMovies == Arranged(movies, searchTerm, selectedGenres, sortBy)
      ensures currentPage == 1
    {
      ToggledSpec(selectedGenres, genre);
      if genre == "All" {
        selectedGenres := ["All"];
      } else {
        selectedGenres := WithoutGenre(selectedGenres, "All");
        if genre in selectedGenres {
          selectedGenres := WithoutGenre(selectedGenres, genre);
          if |selectedGenres| == 0 {
            selectedGenres := ["All"];
          }
        } else {
          selectedGenres := selectedGenres + [genre];
        }
      }
      ApplyFilters();
    }

    /** Pushes `movie` unless an entry already has its id. */
    method AddToWatchlist(movie: Movie)
      requires Valid()
      modifies this`watchlist
      ensures Valid()
      ensures watchlist == WithMovie(old(watchlist), movie)
      ensures IsInWatchlist(movie)
    {
      WithMovieSpec(watchlist, movie);
      if !HasId(watchlist, movie.id) {
        watchlist := watchlist + [movie];
      }
    }

    /** `isInWatchlist`: some entry has the movie's id. */
    function IsInWatchlist(movie: Movie): (b: bool)
      reads this
      ensures b <==> exists i :: 0 <= i < |watchlist| && watchlist[i].id == movie.id
    {
      HasId(watchlist, movie.id)
    }

    /** The trailer placeholder: an alert naming the movie. */
    method PlayTrailer(movie: Movie)
      modifies this`alerts
      ensures alerts == old(alerts) + ["Playing trailer for " + movie.title]
    {
      alerts := alerts + ["Playing trailer for " + movie.title];
    }
  }
}
