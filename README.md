# PopcornHub in Dafny

PopcornHub is a movie-browsing site: a Python back end serving a small movie
catalogue, recommendations, search, a chat assistant and per-user watchlists,
and an Angular front end with a catalogue page, login and profile pages, a
movie detail page, a browse page, two site headers, a chat bubble, a loading
spinner, and an auth service with its route guard.

This project models the core of both halves and proves what each operation
promises.

**Back end.** The three Python back ends share one catalogue and one query
logic (module `Catalogue`), and each keeps its own watchlist dictionary
(`WatchlistStore.Store`, a class whose handlers change it in place).

- `backend/app_connexion.py` reads `limit` and `offset` as strings, so `'0'` is truthy.
- `backend/routes/default_controller.py` receives them as ints, so `0` is ignored, and it accepts an empty search query.
- `backend/routes/movies.py` has no paging and returns the five top-rated movies.
- `backend/app.py` serves the watchlist from one handler that dispatches on the HTTP verb.

Each variant is its own module with its own branches:

- listing: a search filter, then a genre filter, then offset and limit;
- ranking: a stable sort on rating, highest first;
- search: a loop that collects reduced records;
- lookup by id, answering 404;
- chat: the keyword rules;
- watchlist: add appends an id only when absent, and remove answers 404 when the id is not listed.

**Front end.** Each component whose methods update its fields is a Dafny
`class` with those fields. Angular, Firebase and the browser are not modelled
directly; each appears instead as one of the following:

- **Local storage**: a `map<string, string>` field.
- **The document's `dark` class**: a boolean field.
- **Event emitters**: a log of emitted values.
- **Router navigations**: a log of routes.
- **Alerts**: a log of the messages shown (`MovieDetail.MovieDetailPageComponent.alerts`, `MovieListPage.MovieList.alerts`).
- **Clipboard**: a log of the texts written to it (`MovieDetail.MovieDetailPageComponent.clipboard`).
- **Clock**: a `now` parameter.
- **Browser timers**: a map from handle to due time (`Auth.AuthService.pending`), or a queue of pending chat replies (`ChatBubble.MovieChatBubble.awaiting`) with an explicit step that fires the oldest one.
- **Awaited Firebase calls**: one step whose result is an `Outcome` parameter.

**Library stand-ins.** Two library calls are modelled by functions whose properties are proved:

- The library sorts (`sorted(..., reverse=True)` and `Array.prototype.sort`, both stable) are `Sorting.SortBy`, a stable insertion sort. It is proved to be a permutation, sorted, and stable.
- `localeCompare` is `Text.StrLess`, a code-unit lexicographic order. It is proved to be a strict total order.

**Session timer.** In `frontend/src/app/auth.service.ts`, `checkExistingSession` restores a stored session and arms a timer for the full 24 hours. It does not arm the timer for the time left on the session, though a comment beside that line says it does. The model follows the code.

## Model

| member | source | states |
|---|---|---|
| Text.Lower | backend/app_connexion.py:69-70 | lower-casing keeps the length, maps each character through `LowerChar`, and leaves no upper-case letter |
| Text.LowerIdempotent | backend/routes/default_controller.py:78 | lower-casing an already lower-cased message changes nothing |
| Text.Contains | backend/app_connexion.py:77 | Python's `in` on strings holds exactly when the needle occurs at some index of the haystack |
| Text.EmptyOccursEverywhere | backend/routes/default_controller.py:193 | the empty query occurs in every title |
| Text.ContainsMiddle | frontend/src/app/login-page/login-page.component.ts:135 | a string occurs in every template literal built around it |
| Text.TrimStart | frontend/src/app/movie-chat-bubble/movie-chat-bubble.component.ts:48 | removes exactly the leading whitespace: the rest is a suffix that does not start with whitespace |
| Text.TrimEnd | frontend/src/app/movie-chat-bubble/movie-chat-bubble.component.ts:48 | removes exactly the trailing whitespace: the rest is a prefix that does not end with whitespace |
| Text.TrimSpec | frontend/src/app/movie-chat-bubble/movie-chat-bubble.component.ts:48-50 | `trim()` leaves a contiguous piece of the input that neither starts nor ends with whitespace, and is empty exactly when the input is all whitespace |
| Text.BeforeFirst | frontend/src/app/header/header.ts:57 | `split('@')[0]` is the longest prefix without `@`: the whole string, or the part up to the first `@` |
| Text.StrLessIrreflexive | frontend/src/app/movie-list/movie-list.ts:75 | no title sorts before itself |
| Text.StrLessTransitive | frontend/src/app/movie-list/movie-list.ts:75 | title order is transitive |
| Text.StrLessTotal | frontend/src/app/movie-list/movie-list.ts:75 | any two distinct titles are ordered one way or the other |
| Text.StrLessAsymmetric | frontend/src/app/movie-list/movie-list.ts:75 | two titles are never each before the other |
| Wrappers.OrElse | frontend/src/app/header/header.ts:58-59 | `s \|\| default` keeps a non-empty string and gives the default for null or empty |
| Seqs.Filter | backend/app_connexion.py:77 | a list comprehension's result holds only elements of the input that satisfy the condition, and every such element |
| Seqs.FilterMultiset | backend/app_connexion.py:77 | a filter keeps every value that satisfies the condition exactly as many times as the input holds it, and drops every other value |
| Seqs.FilterCommutes | frontend/src/app/profile-page/profile-page.ts:108-121 | two filters applied one after the other give the same list in either order |
| Seqs.SubsequenceOfSelf | frontend/src/app/browse/browse.ts:43 | the unfiltered list keeps every element in order |
| Seqs.FilterIsSubsequence | frontend/src/app/profile-page/profile-page.ts:110 | filtering keeps the surviving elements in their original order |
| Seqs.FilterConcat | backend/routes/default_controller.py:192-200 | filtering a list built by appending is appending the filtered parts, the step the search loops rely on |
| Seqs.FilterAll | backend/routes/default_controller.py:131-132 | a filter every element passes returns the list unchanged |
| Seqs.Take | backend/app_connexion.py:86 | `s[:n]` is the prefix of length `min(n, len(s))` |
| Seqs.Drop | backend/app_connexion.py:83 | `s[n:]` is the suffix of length `max(0, len(s) - n)` |
| Seqs.Slice | frontend/src/app/movie-list/movie-list.ts:88 | `slice(start, end)` returns the elements from `start`, at most `end - start` of them, clipped to the list |
| Seqs.Count | backend/app_connexion.py:206 | an id is counted zero times exactly when it is absent |
| Seqs.CountNoDuplicates | backend/app_connexion.py:206-207 | in a list without repeats, a listed id occurs exactly once |
| Seqs.CountConcat | backend/app_connexion.py:207 | occurrences add up over an append |
| Seqs.FilterNoDuplicates | frontend/src/app/movie-list/movie-list.ts:111-113 | filtering a list without repeats leaves one without repeats |
| Sorting.InsertBy | backend/app_connexion.py:100 | one insertion step lengthens the list by one |
| Sorting.SortBy | backend/app_connexion.py:100 | the sort keeps the length |
| Sorting.InsertPermutation | backend/app_connexion.py:100 | an insertion step adds exactly the inserted element |
| Sorting.SortPermutation | backend/app_connexion.py:100 | the sorted list is a permutation of the input |
| Sorting.SortedCons | backend/app_connexion.py:100 | a head that nothing in a sorted tail precedes gives a sorted list |
| Sorting.InsertKeepsNoneBefore | backend/app_connexion.py:100 | inserting an element that does not precede `y` keeps everything from preceding `y` |
| Sorting.InsertSorted | backend/app_connexion.py:100 | inserting into a sorted list keeps it sorted |
| Sorting.SortSorted | backend/app_connexion.py:100 | under a strict weak order, no element of the result precedes an element to its left |
| Sorting.InsertPeers | backend/app_connexion.py:100 | an inserted element lands in front of the elements that compare equal to it, which keep their order |
| Sorting.SortStable | backend/app_connexion.py:100 | elements that compare equal keep their relative order (the sort is stable) |
| Sorting.SortUnordered | frontend/src/app/movie-list/movie-list.ts:78 | a comparator that always answers 0 leaves the list as it was |
| Catalogue.Summaries | backend/app_connexion.py:116-122 | the reduced records are one per movie, in order, each carrying that movie's id, title, poster, rating and year |
| Catalogue.FilterCatalogueIsSelection | backend/app_connexion.py:76-80 | the query filter then the genre filter keep exactly the movies satisfying both, in catalogue order |
| Catalogue.FindById | backend/app_connexion.py:92 | `next(...)` finds the first movie with the id, and finds nothing exactly when no movie has it |
| Catalogue.MovieById | backend/app_connexion.py:91-95 | a movie with the id is returned (the first such), otherwise 404 "Movie not found" |
| Catalogue.RatedAboveIsStrictWeakOrder | backend/app_connexion.py:100 | ranking by rating, highest first, is a strict weak order |
| Catalogue.ByRatingSpec | backend/app_connexion.py:100 | ranking reorders the catalogue into non-increasing rating and keeps equally rated movies in catalogue order |
| Catalogue.ByRatingOrdered | backend/app_connexion.py:100 | the ranking holds exactly the catalogue's movies, each as often, in non-increasing rating order |
| Catalogue.TopOfRanking | backend/routes/default_controller.py:173-175 | the first `n` of the ranking have length `min(n, len)`, come from the catalogue, and no movie left out is rated above one kept |
| Catalogue.CatalogueRanking | backend/app_connexion.py:16-103 | on the real `MOVIES` list the recommendations put The Shawshank Redemption (9.3) before Inception (8.8), and id 3 is not found |
| Catalogue.Window | backend/app_connexion.py:82-86 | `s[skip:]` cut to `limit` holds the elements of `s` from index `skip` on, in order, `min(limit, len - skip)` of them, all drawn from `s` |
| Catalogue.SelectionMembers | backend/app_connexion.py:76-80 | every movie of the selection is a catalogue movie that matches the query and the genre |
| Catalogue.SummariesAppend | backend/app_connexion.py:116 | appending a movie appends its reduced record |
| Catalogue.CollectMatches | backend/app_connexion.py:114-122 | the search loop returns the reduced records of exactly the movies whose title or description contains the query, in order |
| Catalogue.SummarizeAll | backend/app_connexion.py:173-180 | the loop returns the reduced record of every movie, in order |
| Catalogue.SearchResultsSpec | backend/routes/movies.py:87-96 | every search result summarises a matching movie, and every matching movie has a result |
| Catalogue.KeywordReply | backend/routes/default_controller.py:78-97 | two suggestions, with the recommendation text, exactly for 'recommend' or 'suggest'; one, with the action text, exactly for 'action' without those; otherwise none, which is exactly when the help text is the reply; suggestions are a prefix of the fixed list |
| Catalogue.KeywordReplyIgnoresCase | backend/routes/movies.py:107 | a message and its lower-cased form get the same reply |
| WatchlistStore.RemoveFirst | backend/app_connexion.py:207 | `list.remove(x)` shortens the list by one and removes exactly one `x` |
| WatchlistStore.IndexOf | backend/app_connexion.py:207 | the index found holds `x` and no earlier index does |
| WatchlistStore.RemoveFirstAt | backend/app_connexion.py:207 | `remove` deletes the first occurrence, keeping the elements around it in place |
| WatchlistStore.RemoveAppended | backend/app_connexion.py:205-207 | removing an id just appended to a list without it gives the list back |
| WatchlistStore.AddedSpec | backend/app_connexion.py:201-207 | adding keeps every list free of repeats, leaves the id exactly once, keeps the earlier ids in order, and touches no other user |
| WatchlistStore.AddIdempotent | backend/app_connexion.py:206-207 | adding an id twice is adding it once |
| WatchlistStore.RemoveFirstDistinct | backend/app_connexion.py:220-221 | removing from a list without repeats leaves one without repeats and without the id |
| WatchlistStore.RemovedSpec | backend/app_connexion.py:220-222 | removing a listed id keeps lists free of repeats, drops the id, keeps the other ids, and touches no other user |
| WatchlistStore.AddThenRemove | backend/app_connexion.py:195-222 | adding an absent id and removing it again restores the user's list |
| WatchlistStore.Store.constructor | backend/app_connexion.py:60 | the dictionary starts empty |
| WatchlistStore.Store.Add | backend/app_connexion.py:201-207 | the dictionary becomes `Added(...)`, keeps lists free of repeats, and the id is on the user's list once |
| WatchlistStore.Store.Remove | backend/app_connexion.py:220-222 | reports whether the id was listed; if so the dictionary becomes `Removed(...)`, otherwise it is unchanged |
| AppConnexion.GetMovies | backend/app_connexion.py:67-88 | the result is the selected movies from position `offset` on, cut to `limit`, with `'0'` truthy so a zero limit empties it |
| AppConnexion.GetRecommendations | backend/app_connexion.py:97-103 | the result is the top of the rating ranking, of length `limit` (capped at the catalogue size) when a limit is given |
| AppConnexion.SearchMovies | backend/app_connexion.py:105-127 | 400 for a missing or empty query; otherwise a prefix of the matching movies' records, of length `min(limit, matches)` when limited |
| AppConnexion.GenreSuggestionsSpec | backend/app_connexion.py:158-169 | at most three genre suggestions, fewer only when fewer movies have the genre, each summarising a movie of that genre |
| AppConnexion.TopSuggestionsSpec | backend/app_connexion.py:170-180 | the general suggestions summarise the top three of the rating ranking |
| AppConnexion.SuggestFirstThree | backend/app_connexion.py:161-169 | the loop appends the records of the first three movies |
| AppConnexion.AiChat | backend/app_connexion.py:129-187 | 400 without a message; otherwise the classifier's reply for the effective intent ('fallback' below confidence 0.6), with genre, top-rated or no suggestions by intent, never more than three |
| AppConnexion.GetWatchlist | backend/app_connexion.py:189-192 | the header user's list, `[]` for an unknown user |
| AppConnexion.AddToWatchlist | backend/app_connexion.py:194-209 | 400 and no change without `movie_id`; otherwise the id is on the user's list exactly once |
| AppConnexion.RemoveFromWatchlist | backend/app_connexion.py:211-222 | 400 without `movie_id`; a listed id is removed; an unlisted one gives 404 and no change |
| DefaultController.MoviesGet | backend/routes/default_controller.py:113-143 | the selected movies from `offset` on, cut to `limit`, where a zero limit or offset is ignored, so zero for both returns the whole selection |
| DefaultController.MoviesRecommendationsGet | backend/routes/default_controller.py:162-176 | the top of the ranking, cut to a non-zero `limit` |
| DefaultController.MoviesSearchGet | backend/routes/default_controller.py:179-205 | a prefix of the matching movies' records, cut to a non-zero `limit` |
| DefaultController.EmptyQueryMatchesAll | backend/routes/default_controller.py:191-200 | an empty query matches every movie, so the search lists the whole catalogue |
| DefaultController.WatchlistGet | backend/routes/default_controller.py:231-241 | the header user's list, `[]` for an unknown user |
| DefaultController.WatchlistPost | backend/routes/default_controller.py:244-266 | always succeeds; the id is on the user's list exactly once |
| DefaultController.WatchlistDelete | backend/routes/default_controller.py:208-228 | a listed id is removed; an unlisted one gives 404 and no change |
| MoviesRoutes.GetMovies | backend/routes/movies.py:50-63 | exactly the movies matching query and genre, in catalogue order |
| MoviesRoutes.GetRecommendations | backend/routes/movies.py:74-78 | the top five of the rating ranking, or all movies when fewer |
| MoviesRoutes.SearchMovies | backend/routes/movies.py:81-98 | 400 for an empty query; otherwise the records of all matching movies |
| MoviesRoutes.AiChat | backend/routes/movies.py:101-128 | 400 exactly without a message; otherwise the keyword rules' reply (`KeywordReply`: two suggestions for 'recommend' or 'suggest', one for 'action', else the help text), so at most two suggestions |
| App.HandleWatchlist | backend/app.py:25-56 | GET answers the list; POST and DELETE answer 400 without `movie_id`; POST lists the id once; DELETE removes it or answers 404; other users' lists never change |
| MovieListPage.TitleBeforeIsStrictWeakOrder | frontend/src/app/movie-list/movie-list.ts:75 | sorting by `localeCompare` of titles is a strict weak order |
| MovieListPage.OrderIsStrictWeakOrder | frontend/src/app/movie-list/movie-list.ts:73-80 | each of the four comparators is a strict weak order, so the sort is well defined |
| MovieListPage.FiltersAreVisible | frontend/src/app/movie-list/movie-list.ts:60-70 | the search filter then the genre filter keep exactly the movies passing both, in list order |
| MovieListPage.ArrangedSpec | frontend/src/app/movie-list/movie-list.ts:56-84 | the shown movies are exactly those passing both filters, each as many times as in the list; by year newest first, by rating best first, by title in title order, otherwise list order |
| MovieListPage.PageCount | frontend/src/app/movie-list/movie-list.ts:92 | `ceil(n / 12)`: the smallest page count whose pages hold `n` movies |
| MovieListPage.Page | frontend/src/app/movie-list/movie-list.ts:86-89 | page `p` holds the movies from `(p - 1) * 12` on, at most twelve, exactly `min(12, rest)` on an existing page |
| MovieListPage.PagesCover | frontend/src/app/movie-list/movie-list.ts:86-93 | every movie appears on an existing page, at place `i % 12` of page `i / 12 + 1` |
| MovieListPage.ToggledSpec | frontend/src/app/movie-list/movie-list.ts:107-122 | the selection stays non-empty, free of repeats, and either `['All']` or free of 'All'; a genre ends up selected exactly when it was not |
| MovieListPage.ToggleTwice | frontend/src/app/movie-list/movie-list.ts:107-122 | toggling a genre on and off again restores a selection of specific genres |
| MovieListPage.HasId | frontend/src/app/movie-list/movie-list.ts:125 | `find` by id succeeds exactly when some entry has the id |
| MovieListPage.WithMovieSpec | frontend/src/app/movie-list/movie-list.ts:124-128 | adding keeps ids distinct, lists the movie's id, keeps earlier entries, and is idempotent |
| MovieListPage.MovieList.constructor | frontend/src/app/movie-list/movie-list.ts:26-49 | the field initialisers; featured movies are the first three; no alerts |
| MovieListPage.MovieList.ApplyFilters | frontend/src/app/movie-list/movie-list.ts:56-84 | the shown list becomes `Arranged(...)` from page 1, keeping the page invariant |
| MovieListPage.MovieList.NgOnInit | frontend/src/app/movie-list/movie-list.ts:51-54 | the shown list is the filtered, sorted catalogue from page 1 |
| MovieListPage.MovieList.GetPaginatedMovies | frontend/src/app/movie-list/movie-list.ts:86-89 | the current page of the shown list |
| MovieListPage.MovieList.GetTotalPages | frontend/src/app/movie-list/movie-list.ts:91-93 | the page count of the shown list |
| MovieListPage.MovieList.NextPage | frontend/src/app/movie-list/movie-list.ts:95-99 | moves one page forward unless on the last page, never past it |
| MovieListPage.MovieList.PrevPage | frontend/src/app/movie-list/movie-list.ts:101-105 | moves one page back unless on page 1 |
| MovieListPage.MovieList.ToggleGenre | frontend/src/app/movie-list/movie-list.ts:107-122 | the selection becomes `Toggled(...)`, stays well formed, and the filters are re-applied |
| MovieListPage.MovieList.AddToWatchlist | frontend/src/app/movie-list/movie-list.ts:124-128 | the watchlist becomes `WithMovie(...)`, ids stay distinct, and the movie is then in the watchlist |
| MovieListPage.MovieList.IsInWatchlist | frontend/src/app/movie-list/movie-list.ts:130-132 | true exactly when some entry has the movie's id |
| MovieListPage.MovieList.PlayTrailer | frontend/src/app/movie-list/movie-list.ts:134-137 | the alert names the movie whose trailer is played |
| Auth.ProviderOf | frontend/src/app/auth.service.ts:123 | the first provider id when present and non-empty, otherwise 'email' |
| Auth.SessionFor | frontend/src/app/auth.service.ts:117-124 | the session record copies the user's fields, with login time `now` and the provider |
| Auth.ExpiringAtSpec | frontend/src/app/auth.service.ts:184-194 | expiring soon exactly when more than 23 h 55 min have passed since login; never at the moment of login |
| Auth.AuthService.constructor | frontend/src/app/auth.service.ts:15-35 | no user; in the browser a stored session under 24 hours old gets a 24-hour timer, an older one is removed with no timer armed; off the browser nothing is armed |
| Auth.AuthService.IsAuthenticated | frontend/src/app/auth.service.ts:81-83 | true exactly when a user is signed in |
| Auth.AuthService.GetSessionData | frontend/src/app/auth.service.ts:177-181 | the stored session in the browser, nothing off it |
| Auth.AuthService.IsSessionExpiringSoon | frontend/src/app/auth.service.ts:184-194 | true exactly in the browser with a stored session expiring within five minutes |
| Auth.AuthService.SetSessionData | frontend/src/app/auth.service.ts:114-126 | in the browser the stored session becomes the user's record at `now`; otherwise nothing changes |
| Auth.AuthService.ClearSessionData | frontend/src/app/auth.service.ts:128-131 | in the browser the stored session is removed |
| Auth.AuthService.ClearSessionTimer | frontend/src/app/auth.service.ts:159-164 | no timer is left pending and the handle is cleared |
| Auth.AuthService.StartSessionTimer | frontend/src/app/auth.service.ts:152-157 | exactly one timer is pending, a new one due in 24 hours |
| Auth.AuthService.OnAuthStateChanged | frontend/src/app/auth.service.ts:16-29 | the user and auth state follow the event; in the browser a sign-in writes the session and arms one timer, a sign-out clears both |
| Auth.AuthService.CheckExistingSession | frontend/src/app/auth.service.ts:133-150 | a stored session under 24 hours old is kept and gets one 24-hour timer; an older one is removed; off the browser nothing changes |
| Auth.AuthService.ExtendSession | frontend/src/app/auth.service.ts:197-202 | with a user, the session is rewritten at `now` and the single timer re-armed, so the session is not expiring soon; without one nothing changes |
| Auth.AuthService.FireTimer | frontend/src/app/auth.service.ts:154-156 | a timer fires only once the clock has reached its due time, 24 h after it was armed; then it is gone and one sign-out is requested |
| Auth.AuthGuard.CanActivate | frontend/src/app/core/guards/auth.guard.ts:12-30 | allows exactly a signed-in user, extending the session in the browser so it is not expiring soon; otherwise navigates to `/login` and changes nothing else |
| NavLinks.Activated | frontend/src/app/header/header.ts:137-139 | each link keeps its fields and is active exactly when it is at the index |
| NavLinks.ActiveCount | frontend/src/app/header/header.ts:42-45 | the active links number at most the links |
| NavLinks.ActiveCountOne | frontend/src/app/header/header.ts:137-139 | one active link when exactly the one at an in-range index is active, none otherwise |
| NavLinks.ActivatedSpec | frontend/src/app/header/header.ts:137-139 | after activation exactly the link at an in-range index is active, none for an index out of range; labels, routes and other flags are kept |
| NavLinks.MarkActive | frontend/src/app/header/header-bar.component.ts:133-135 | the `forEach` loop computes `Activated(...)` |
| NavLinks.GetItem | frontend/src/app/header/header.ts:79 | `getItem` returns the stored value exactly when the key is present |
| Header.UserNameOf | frontend/src/app/header/header.ts:57 | the display name if non-empty, else the email's part before `@` if non-empty, else 'User'; never empty |
| Header.Header.constructor | frontend/src/app/header/header.ts:24-45 | the field initialisers: light theme, 'EN', logged out, placeholder avatar, menus closed, Home active; storage and the document's `dark` class as found |
| Header.Header.ApplyTheme | frontend/src/app/header/header.ts:85-96 | in the browser the document class follows the theme and storage saves 'dark' or 'light'; nothing off the browser |
| Header.Header.ToggleTheme | frontend/src/app/header/header.ts:70-74 | the theme flips; in the browser the `dark` class follows it and 'theme' is saved as 'dark' or 'light' with no other key touched; off the browser the class and storage are unchanged |
| Header.Header.LoadTheme | frontend/src/app/header/header.ts:76-83 | in the browser dark mode is on exactly when the saved theme is 'dark', then it is applied; off the browser nothing changes, the `dark` class and storage included |
| Header.Header.ChangeLanguage | frontend/src/app/header/header.ts:99-106 | the language is set, the dropdown closed, and in the browser the choice saved |
| Header.Header.LoadLanguage | frontend/src/app/header/header.ts:108-114 | in the browser the saved language, or 'EN' when none |
| Header.Header.NgOnInit | frontend/src/app/header/header.ts:48-50 | the saved theme and language are loaded; in the browser the `dark` class follows the theme and 'theme' is re-saved; off the browser theme, class, storage and language are all unchanged |
| Header.Header.CloseOtherDropdowns | frontend/src/app/header/header.ts:131-134 | every dropdown but the named one is closed; the named one is untouched |
| Header.Header.ToggleLanguageDropdown | frontend/src/app/header/header.ts:117-120 | the language dropdown flips, the user menu closes, so at most one is open |
| Header.Header.ToggleUserMenu | frontend/src/app/header/header.ts:122-125 | the user menu flips, the language dropdown closes, so at most one is open |
| Header.Header.ToggleMobileMenu | frontend/src/app/header/header.ts:127-129 | the mobile menu flips |
| Header.Header.SetActiveLink | frontend/src/app/header/header.ts:137-139 | the links become `Activated(...)`, with exactly the indexed link active when the index is in range |
| Header.Header.Login | frontend/src/app/header/header.ts:142-144 | navigates to `/login` |
| Header.Header.Logout | frontend/src/app/header/header.ts:146-153 | after a successful sign-out navigates to `/`; a failed one changes nothing |
| Header.Header.OnAuthUpdate | frontend/src/app/header/header.ts:54-65 | logged in exactly with a user; name, email and avatar with their fallbacks, or cleared to the placeholder on sign-out |
| HeaderBar.FindTitle | frontend/src/app/header/header-bar.component.ts:176 | `find` by label gives the first link with that label, and nothing exactly when none has it |
| HeaderBar.Highlighted | frontend/src/app/header/header-bar.component.ts:176 | the found link is highlighted and every other link kept; nothing changes when none is found |
| HeaderBar.HighlightedKeeps | frontend/src/app/header/header-bar.component.ts:173-178 | highlighting keeps labels, routes, active and dropdown flags, so the active count and the found position stay |
| HeaderBar.ActiveCountSameFlags | frontend/src/app/header/header-bar.component.ts:39-46 | links with the same active flags have the same number of active links |
| HeaderBar.FindTitleSameTitles | frontend/src/app/header/header-bar.component.ts:39-46 | links with the same labels find a label at the same place |
| HeaderBar.HeaderBarComponent.constructor | frontend/src/app/header/header-bar.component.ts:13-46 | the inputs as given, the field initialisers, and the six initial links, in which My List is found; storage and the document's `dark` class as found |
| HeaderBar.HeaderBarComponent.ApplyTheme | frontend/src/app/header/header-bar.component.ts:74-85 | in the browser the document class follows the theme and storage saves it |
| HeaderBar.HeaderBarComponent.ToggleTheme | frontend/src/app/header/header-bar.component.ts:58-63 | the theme flips and the new value is emitted; in the browser the `dark` class follows it and 'theme' is saved; off the browser the class and storage are unchanged |
| HeaderBar.HeaderBarComponent.LoadTheme | frontend/src/app/header/header-bar.component.ts:65-72 | in the browser dark mode is on exactly when the saved theme is 'dark', then it is applied; off the browser nothing changes, the `dark` class and storage included |
| HeaderBar.HeaderBarComponent.ChangeLanguage | frontend/src/app/header/header-bar.component.ts:88-96 | the language is set, the dropdown closed, the choice saved in the browser, and the language emitted |
| HeaderBar.HeaderBarComponent.LoadLanguage | frontend/src/app/header/header-bar.component.ts:98-104 | in the browser the saved language, or 'EN' |
| HeaderBar.HeaderBarComponent.UpdateMyListHighlight | frontend/src/app/header/header-bar.component.ts:173-178 | with a user, My List is highlighted and nothing else changes; without one the links are untouched; the active count is kept |
| HeaderBar.HeaderBarComponent.NgOnInit | frontend/src/app/header/header-bar.component.ts:50-55 | theme and language loaded, and My List highlighted exactly when a user is present; in the browser the `dark` class follows the theme and 'theme' is re-saved; off the browser theme, class, storage and language are unchanged |
| HeaderBar.HeaderBarComponent.CloseOtherDropdowns | frontend/src/app/header/header-bar.component.ts:126-130 | of the three dropdowns, all but the named one are closed |
| HeaderBar.HeaderBarComponent.ToggleLanguageDropdown | frontend/src/app/header/header-bar.component.ts:107-110 | the language dropdown flips and the other two close |
| HeaderBar.HeaderBarComponent.ToggleUserMenu | frontend/src/app/header/header-bar.component.ts:112-115 | the user menu flips and the other two close |
| HeaderBar.HeaderBarComponent.ToggleGenresDropdown | frontend/src/app/header/header-bar.component.ts:117-120 | the genres dropdown flips and the other two close |
| HeaderBar.HeaderBarComponent.ToggleMobileMenu | frontend/src/app/header/header-bar.component.ts:122-124 | the mobile menu flips |
| HeaderBar.HeaderBarComponent.SetActiveLink | frontend/src/app/header/header-bar.component.ts:133-135 | exactly the indexed link becomes active, and My List can still be found |
| HeaderBar.HeaderBarComponent.Login | frontend/src/app/header/header-bar.component.ts:138-140 | navigates to `/login` |
| HeaderBar.HeaderBarComponent.Logout | frontend/src/app/header/header-bar.component.ts:142-146 | emits the logout event only |
| HeaderBar.HeaderBarComponent.Profile | frontend/src/app/header/header-bar.component.ts:148-150 | emits the profile event |
| HeaderBar.HeaderBarComponent.WatchHistory | frontend/src/app/header/header-bar.component.ts:152-154 | emits the watch-history event |
| HeaderBar.HeaderBarComponent.OpenMyList | frontend/src/app/header/header-bar.component.ts:156-158 | emits the my-list event |
| HeaderBar.HeaderBarComponent.NotificationCount | frontend/src/app/header/header-bar.component.ts:168-170 | the number of notifications |
| ChatBubble.ReplyTo | frontend/src/app/movie-chat-bubble/movie-chat-bubble.component.ts:77-101 | 'recommend' gets the recommendation text and its three movies; otherwise 'search' or 'find' gets the found text and its two; otherwise 'similar' gets the similar text and its two; a message with none of them, and only such a message, gets the help text and no suggestions |
| ChatBubble.ReplyIgnoresCase | frontend/src/app/movie-chat-bubble/movie-chat-bubble.component.ts:80 | a message and its lower-cased form get the same reply |
| ChatBubble.NumberedIncreasing | frontend/src/app/movie-chat-bubble/movie-chat-bubble.component.ts:60 | ids of the history strictly increase |
| ChatBubble.MovieChatBubble.constructor | frontend/src/app/movie-chat-bubble/movie-chat-bubble.component.ts:30-36 | closed, empty input, not typing, empty history, counter 0 |
| ChatBubble.MovieChatBubble.AddMessage | frontend/src/app/movie-chat-bubble/movie-chat-bubble.component.ts:58-68 | the counter is incremented first and the message appended with it, earlier messages kept, so ids stay numbered from one |
| ChatBubble.MovieChatBubble.NgOnInit | frontend/src/app/movie-chat-bubble/movie-chat-bubble.component.ts:38-41 | the welcome message is appended, with id 1 on a new bubble |
| ChatBubble.MovieChatBubble.ToggleChat | frontend/src/app/movie-chat-bubble/movie-chat-bubble.component.ts:43-45 | the bubble opens or closes |
| ChatBubble.MovieChatBubble.SendMessage | frontend/src/app/movie-chat-bubble/movie-chat-bubble.component.ts:47-56 | blank input changes nothing; otherwise the trimmed text is appended as the user's message, the input cleared, typing on, the reply queued |
| ChatBubble.MovieChatBubble.OnKeyPress | frontend/src/app/movie-chat-bubble/movie-chat-bubble.component.ts:122-127 | Enter without Shift on non-blank input appends the trimmed text as a user message with the next id, clears the input, sets typing and queues the reply; any other key, or Enter on blank input, changes nothing |
| ChatBubble.MovieChatBubble.DeliverReply | frontend/src/app/movie-chat-bubble/movie-chat-bubble.component.ts:70-111 | the oldest reply timer fires: typing off and exactly one AI message, `ReplyTo` of that message, appended |
| LoginPage.PasswordMatch | frontend/src/app/login-page/login-page.component.ts:48-52 | no error exactly when both passwords are present and equal |
| LoginPage.ErrorMessage | frontend/src/app/login-page/login-page.component.ts:99-118 | each of the seven known codes has its message, every other code or none the default |
| LoginPage.ErrorMessageDistinguishes | frontend/src/app/login-page/login-page.component.ts:99-118 | two codes with the same message are the same known code or both unknown |
| LoginPage.SocialDefault | frontend/src/app/login-page/login-page.component.ts:135 | the default social message names the provider |
| LoginPage.SocialErrorMessage | frontend/src/app/login-page/login-page.component.ts:120-137 | an unknown or absent code gets the default message |
| LoginPage.SocialErrorNamesProvider | frontend/src/app/login-page/login-page.component.ts:122-135 | the default, cancelled-popup, not-enabled and not-supported messages name the provider |
| LoginPage.LoginPageComponent.constructor | frontend/src/app/login-page/login-page.component.ts:18-26 | login mode, no errors, nothing loading, no navigation |
| LoginPage.LoginPageComponent.OnLogin | frontend/src/app/login-page/login-page.component.ts:54-68 | an invalid form changes nothing; success goes home with no error; failure shows the code's message; loading ends either way |
| LoginPage.LoginPageComponent.OnSignup | frontend/src/app/login-page/login-page.component.ts:70-84 | as login, over the sign-up fields |
| LoginPage.LoginPageComponent.OnForgotPassword | frontend/src/app/login-page/login-page.component.ts:86-97 | success sets the success flag; failure shows the code's message; an invalid form changes nothing |
| LoginPage.LoginPageComponent.OnSocialAuth | frontend/src/app/login-page/login-page.component.ts:139-160 | success with google or facebook goes home; any failure shows the social message in the current mode's error, the other cleared; an unsupported provider's message names it |
| LoginPage.LoginPageComponent.ToggleSignupMode | frontend/src/app/login-page/login-page.component.ts:162-166 | sign-up mode flips, forgot-password mode and its success flag are off |
| LoginPage.LoginPageComponent.ToggleForgotPasswordMode | frontend/src/app/login-page/login-page.component.ts:168-171 | forgot-password mode flips with its success flag off |
| ProfilePage.WithoutId | frontend/src/app/profile-page/profile-page.ts:110 | exactly the entries with another id remain, each as many times as before, in order; a list without the id is unchanged |
| ProfilePage.WithoutIdIdempotent | frontend/src/app/profile-page/profile-page.ts:108-111 | removing an id twice is removing it once |
| ProfilePage.WithoutIdCommutes | frontend/src/app/profile-page/profile-page.ts:108-121 | removing two ids gives the same list in either order |
| ProfilePage.ProfilePageComponent.constructor | frontend/src/app/profile-page/profile-page.ts:34-57 | no user, an empty free profile, the placeholder lists, default settings |
| ProfilePage.ProfilePageComponent.NgOnInit | frontend/src/app/profile-page/profile-page.ts:63-76 | a user's name, email and avatar (each defaulting to empty) and 'Premium'; without a user the profile stays |
| ProfilePage.ProfilePageComponent.ToggleEditProfile | frontend/src/app/profile-page/profile-page.ts:82-84 | editing mode flips |
| ProfilePage.ProfilePageComponent.SaveProfile | frontend/src/app/profile-page/profile-page.ts:86-90 | editing mode ends |
| ProfilePage.ProfilePageComponent.RemoveFromWatchHistory | frontend/src/app/profile-page/profile-page.ts:108-111 | exactly the entries with the id leave the history |
| ProfilePage.ProfilePageComponent.RemoveFromWatchlist | frontend/src/app/profile-page/profile-page.ts:118-121 | exactly the entries with the id leave the watchlist |
| ProfilePage.ProfilePageComponent.ToggleDarkMode | frontend/src/app/profile-page/profile-page.ts:123-126 | dark mode flips; language and notifications stay |
| MovieDetail.GetStars | frontend/src/app/movie-detail-page/movie-detail-page.component.ts:129-131 | five stars, each full, half or empty |
| MovieDetail.StarsSpec | frontend/src/app/movie-detail-page/movie-detail-page.component.ts:130 | star `i` is full exactly below the floor, half exactly between the floor and the rating, empty exactly from the rating on |
| MovieDetail.StarsShape | frontend/src/app/movie-detail-page/movie-detail-page.component.ts:130 | stars never increase from left to right and at most one is half |
| MovieDetail.CountLeadingFull | frontend/src/app/movie-detail-page/movie-detail-page.component.ts:130 | when the full stars are exactly the first `k`, there are `k` of them, clamped to the length |
| MovieDetail.FullStars | frontend/src/app/movie-detail-page/movie-detail-page.component.ts:130 | the number of full stars is the rating's floor clamped to 0..5 |
| MovieDetail.MovieDetailPageComponent.constructor | frontend/src/app/movie-detail-page/movie-detail-page.component.ts:73-74 | not in the watchlist, no rating, no alerts, nothing copied |
| MovieDetail.MovieDetailPageComponent.AddToWatchlist | frontend/src/app/movie-detail-page/movie-detail-page.component.ts:101-106 | the flag flips and the alert says which way |
| MovieDetail.MovieDetailPageComponent.WatchNow | frontend/src/app/movie-detail-page/movie-detail-page.component.ts:96-99 | the alert announces the redirect to the movie by title |
| MovieDetail.MovieDetailPageComponent.Share | frontend/src/app/movie-detail-page/movie-detail-page.component.ts:108-119 | only when the Web Share API exists and rejects is the URL copied and the fallback alert shown; otherwise nothing changes |
| MovieDetail.MovieDetailPageComponent.RateMovie | frontend/src/app/movie-detail-page/movie-detail-page.component.ts:122-126 | the rating is recorded and the alert announces it |
| MovieDetail.IntText | frontend/src/app/movie-detail-page/movie-detail-page.component.ts:125 | a number's text is its decimal digits, which `DecimalValue` reads back as the number, with no leading zero, preceded by '-' exactly for a negative number |
| Browse.OfGenre | frontend/src/app/browse/browse.ts:45 | exactly the movies of the genre, each as many times as in the catalogue, in order |
| Browse.FilteredMovies | frontend/src/app/browse/browse.ts:41-46 | everything under 'All'; otherwise exactly the movies of the selected genre, each as many times as in the catalogue, in order |
| Browse.BrowseComponent.constructor | frontend/src/app/browse/browse.ts:22-39 | the sample catalogue with 'All' selected |
| Browse.BrowseComponent.Filtered | frontend/src/app/browse/browse.ts:41-46 | the getter is `FilteredMovies` of the current state |
| Browse.BrowseComponent.SelectGenre | frontend/src/app/browse/browse.ts:48-50 | the genre is selected; the catalogue is untouched |
| LoadingSpinner.GetSize | frontend/src/app/loading-spinner/loading-spinner.ts:18-25 | '24px' exactly for small, '64px' exactly for large, '48px' for medium and any other value |

## Left out

- The chat classifier of `backend/chatbot/chatbot.py` (intent prediction, entity extraction, replies, per-user memory) is not part of this model; `AppConnexion.AiChat` takes its intent, confidence, genre and reply as parameters.
- Flask and connexion plumbing is not modelled: routing, JSON, `jsonify` and the `X-User-ID` header lookup. The header is an optional parameter and each response a datatype value.
- `limit` and `offset` that are not digit strings, or are negative, make `int()` raise or slice from the end in Python; the model takes them parsed to naturals.
- `movie_id` in a watchlist request body is taken to be an integer, and a missing key is `None`. `app_connexion.py` and `app.py` only check that the key is present. A JSON `null` would therefore be appended with a 200 where the model answers 400. A string id such as `"1"` would be a separate entry from `1`. Null and non-integer ids are not modelled.
- The health endpoints and `app.py`'s root route return constants and are not modelled.
- Lower-casing, `trim()` and `localeCompare` are ASCII, ASCII-whitespace and code-unit order here. Unicode case folding, the full whitespace set and locale collation are not modelled.
- The catalogue movies' cast and related movies are display data; `Catalogue.Movie` omits them. The back end's `MOVIES` is the two-movie list that the variants share.
- Ratings are `real`, not IEEE doubles.
- Firebase is outside the model. Email login, registration, password reset, social sign-in and sign-out each reach the model as an `Outcome`, a flag, or an auth-state event. This also covers `getCurrentUser`, `getAuthState` and `logout` in `auth.service.ts`.
- `Auth.AuthService.FireTimer`: counts the sign-out that `autoLogout` requests; the sign-out's effect arrives as a later `OnAuthStateChanged(None)`.
- Real time is the `now` parameter. Timer handles start at 1, as browser handles do.
- `auth.guard.ts` imports `../services/auth.service`; the service it reaches is taken to be `frontend/src/app/auth.service.ts`.
- Angular form validators (required, email, minimum length) are the `formValid` parameter. The form values themselves are not modelled.
- Chat message timestamps are not modelled. `callAIAPI` is an unused stub and is not modelled.
- DOM access is not modelled beyond the `dark` class, the alert log and the clipboard log: the trailer URL sanitiser, the share dialog's title, text and URL payload, and the avatar file input are left out. The page URL, and whether the Web Share API exists and rejects, are parameters of `Share`.
- `onAvatarChange` (reads a file asynchronously) and `openAvatarInput` are not modelled.
- Log-only or empty methods are not modelled: `onSearch` in both headers, `addToFavorites`, `changeLanguage` and `saveSettings` of the profile page, `loadMovie` and `ngOnInit` of the detail page, `loadWatchHistory`, `loadWatchlist`, the `trackBy` helpers, and `completeLoading` (emits a void event).
- `ngOnDestroy` of the header ends the auth subscription; subscriptions are not modelled, the auth updates arrive as calls to `OnAuthUpdate`.
- The profile page's `logout` is Firebase's sign-out and is not modelled.
- `movie-list.ts` binds `searchTerm` and `sortBy` through the template; the model sets them as fields.
- The header bar's `languages` and `genres` arrays are display data. Notifications are opaque strings.
- `MovieDetail.MovieDetailPageComponent.RateMovie`: takes the rating as an integer, the star buttons' values; a fractional rating's text is not modelled.
- `frontend/src/app/homepage/homepage.ts` and the app configuration and routes are not part of this model.
