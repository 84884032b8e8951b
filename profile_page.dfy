/**
 * frontend/src/app/profile-page/profile-page.ts: the profile page. It shows the
 * signed-in user's profile, a watch history and a watchlist whose entries can
 * be removed by id, and the settings, of which dark mode is toggled here. The
 * current user is the `current` parameter of `NgOnInit`.
 */
module ProfilePage {
  import opened Wrappers
  import opened Seqs
  import Auth

  /** The page's `Movie`: ids are strings here. */
  datatype ProfileMovie = ProfileMovie(id: string, title: string, poster: string, rating: real, year: int)

  datatype UserProfile = UserProfile(name: string, email: string, avatar: string, subscriptionStatus: string)

  datatype Settings = Settings(darkMode: bool, language: string, emailNotifications: bool)

  const Poster := "https://via.placeholder.com/200x300"

  const InitialHistory: seq<ProfileMovie> := [
    ProfileMovie("1", "Inception", Poster, 8.8, 2010),
    ProfileMovie("2", "The Dark Knight", Poster, 9.0, 2008),
    ProfileMovie("3", "Interstellar", Poster, 8.6, 2014)
  ]

  const InitialWatchlist: seq<ProfileMovie> := [
    ProfileMovie("4", "Pulp Fiction", Poster, 8.9, 1994),
    ProfileMovie("5", "The Shawshank Redemption", Poster, 9.3, 1994)
  ]

  /**
   * `list.filter(movie => movie.id !== id)`: every entry with that id is gone,
   * every other entry stays, in its original order, and a list without the id
   * is returned unchanged.
   */
  function WithoutId(ms: seq<ProfileMovie>, id: string): (r: seq<ProfileMovie>)
    ensures forall m :: m in r <==> m in ms && m.id != id
    ensures forall m :: multiset(r)[m] == if m.id != id then multiset(ms)[m] else 0
    ensures IsSubsequence(r, ms)
    ensures (forall m :: m in ms ==> m.id != id) ==> r == ms
  {
    FilterIsSubsequence(ms, (m: ProfileMovie) => m.id != id);
    FilterMultiset(ms, (m: ProfileMovie) => m.id != id);
    if forall m :: m in ms ==> m.id != id then
      FilterAll(ms, (m: ProfileMovie) => m.id != id);
      Filter(ms, (m: ProfileMovie) => m.id != id)
    else
      Filter(ms, (m: ProfileMovie) => m.id != id)
  }

  /** Removing an id twice is removing it once. */
  lemma WithoutIdIdempotent(ms: seq<ProfileMovie>, id: string)
    ensures WithoutId(WithoutId(ms, id), id) == WithoutId(ms, id)
  {
  }

  /** Removals of two ids give the same list in either order. */
  lemma {:induction false} WithoutIdCommutes(ms: seq<ProfileMovie>, a: string, b: string)
    ensures WithoutId(WithoutId(ms, a), b) == WithoutId(WithoutId(ms, b), a)
  {
    FilterCommutes(ms, (m: ProfileMovie) => m.id != a, (m: ProfileMovie) => m.id != b);
  }

  class ProfilePageComponent {
    var user: Option<Auth.User>
    var userProfile: UserProfile
    var watchHistory: seq<ProfileMovie>
    var watchlist: seq<ProfileMovie>
    var settings: Settings
    var isEditingProfile: bool

    /** The field initialisers: an empty free profile and the placeholder lists. */
    constructor ()
      ensures user.None? && userProfile == UserProfile("", "", "", "Free")
      ensures watchHistory == InitialHistory && watchlist == InitialWatchlist
      ensures settings == Settings(true, "en", true) && !isEditingProfile
    {
      user := None;
      userProfile := UserProfile("", "", "", "Free");
      watchHistory := InitialHistory;
      watchlist := InitialWatchlist;
      settings := Settings(true, "en", true);
      isEditingProfile := false;
    }

    /**
     * A signed-in user's name, email and avatar are copied, each defaulting to
     * the empty string, and the status becomes 'Premium'; without a user the
     * profile is left as it was.
     */
    method NgOnInit(current: Option<Auth.User>)
      modifies this`user, this`userProfile
      ensures user == current
      ensures current.Some? ==> userProfile == UserProfile(
        OrElse(current.value.displayName, ""), OrElse(current.value.email, ""), OrElse(current.value.photoURL, ""), "Premium")
      ensures current.None? ==> userProfile == old(userProfile)
    {
      user := current;
      if user.Some? {
        userProfile := UserProfile(
          OrElse(user.value.displayName, ""), OrElse(user.value.email, ""), OrElse(user.value.photoURL, ""), "Premium");
      }
    }

    method ToggleEditProfile()
      modifies this`isEditingProfile
      ensures isEditingProfile == !old(isEditingProfile)
    {
      isEditingProfile := !isEditingProfile;
    }

    /** Leaves editing mode; the profile itself is not sent anywhere. */
    method SaveProfile()
      modifies this`isEditingProfile
      ensures !isEditingProfile
    {
      isEditingProfile := false;
    }

    method RemoveFromWatchHistory(movieId: string)
      modifies this`watchHistory
      ensures watchHistory == WithoutId(old(watchHistory), movieId)
      ensures forall m :: m in watchHistory <==> m in old(watchHistory) && m.id != movieId
    {
      watchHistory := WithoutId(watchHistory, movieId);
    }

    method RemoveFromWatchlist(movieId: string)
      modifies this`watchlist
      ensures watchlist == WithoutId(old(watchlist), movieId)
      ensures forall m :: m in watchlist <==> m in old(watchlist) && m.id != movieId
    {
      watchlist := WithoutId(watchlist, movieId);
    }

    /** Flips dark mode; language and email notifications stay. */
    method ToggleDarkMode()
      modifies this`settings
      ensures settings == old(settings).(darkMode := !old(settings).darkMode)
    {
      settings := settings.(darkMode := !settings.darkMode);
    }
  }
}
