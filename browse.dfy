/**
 * frontend/src/app/browse/browse.ts: the browse page, a fixed sample catalogue
 * shown whole under 'All' or narrowed to one genre.
 */
module Browse {
  import opened Seqs

  datatype BrowseMovie = BrowseMovie(id: nat, title: string, genre: string, year: int)

  const SampleMovies: seq<BrowseMovie> := [
    BrowseMovie(1, "Action Movie 1", "Action", 2023),
    BrowseMovie(2, "Comedy Movie 1", "Comedy", 2022),
    BrowseMovie(3, "Drama Movie 1", "Drama", 2021),
    BrowseMovie(4, "Thriller Movie 1", "Thriller", 2023),
    BrowseMovie(5, "Romance Movie 1", "Romance", 2022),
    BrowseMovie(6, "Sci-Fi Movie 1", "Sci-Fi", 2021),
    BrowseMovie(7, "Horror Movie 1", "Horror", 2023),
    BrowseMovie(8, "Adventure Movie 1", "Adventure", 2022),
    BrowseMovie(9, "Animation Movie 1", "Animation", 2021),
    BrowseMovie(10, "Documentary Movie 1", "Documentary", 2023),
    BrowseMovie(11, "Fantasy Movie 1", "Fantasy", 2022),
    BrowseMovie(12, "Mystery Movie 1", "Mystery", 2021)
  ]

  const Genres: seq<string> := ["All", "Action", "Comedy", "Drama", "Thriller", "Romance", "Sci-Fi", "Horror",
                                "Adventure", "Animation", "Documentary", "Fantasy", "Mystery"]

  /** The movies of exactly genre `g`, in catalogue order. */
  function OfGenre(ms: seq<BrowseMovie>, g: string): (r: seq<BrowseMovie>)
    ensures forall m :: m in r <==> m in ms && m.genre == g
    ensures forall m :: multiset(r)[m] == if m.genre == g then multiset(ms)[m] else 0
    ensures IsSubsequence(r, ms)
  {
    FilterIsSubsequence(ms, (m: BrowseMovie) => m.genre == g);
    FilterMultiset(ms, (m: BrowseMovie) => m.genre == g);
    Filter(ms, (m: BrowseMovie) => m.genre == g)
  }

  /**
   * The `filteredMovies` getter: everything under 'All'; otherwise the movies
   * of the selected genre and no others, in catalogue order.
   */
  function FilteredMovies(ms: seq<BrowseMovie>, selectedGenre: string): (r: seq<BrowseMovie>)
    ensures selectedGenre == "All" ==> r == ms
    ensures selectedGenre != "All" ==> forall m :: m in r <==> m in ms && m.genre == selectedGenre
    ensures selectedGenre != "All" ==> forall m :: multiset(r)[m] == if m.genre == selectedGenre then multiset(ms)[m] else 0
    ensures IsSubsequence(r, ms)
  {
    if selectedGenre == "All" then
      SubsequenceOfSelf(ms);
      ms
    else OfGenre(ms, selectedGenre)
  }

  class BrowseComponent {
    var movies: seq<BrowseMovie>
    var selectedGenre: string

    constructor ()
      ensures movies == SampleMovies && selectedGenre == "All"
    {
      movies := SampleMovies;
      selectedGenre := "All";
    }

    /** The getter reads the catalogue without changing it. */
    function Filtered(): (r: seq<BrowseMovie>)
      reads this
      ensures r == FilteredMovies(movies, selectedGenre)
    {
      FilteredMovies(movies, selectedGenre)
    }

    /** Selects a genre; the catalogue is untouched. */
    method SelectGenre(genre: string)
      modifies this`selectedGenre
      ensures selectedGenre == genre
    {
      selectedGenre := genre;
    }
  }
}
