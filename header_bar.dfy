/**
 * frontend/src/app/header/header-bar.component.ts: the presentational header
 * bar. Its inputs are the user and the notifications; its outputs are the events
 * it emits, kept here in order in `emitted`. It keeps three mutually exclusive
 * dropdowns plus a mobile menu, one active navigation link, and a "My List" link
 * that is highlighted once a user is present. Theme and language persist in
 * local storage as in the site header.
 */
module HeaderBar {
  import opened Wrappers
  import opened NavLinks

  /** The `user` input. */
  datatype BarUser = BarUser(name: string, avatarUrl: string)

  /** The values the component's `EventEmitter`s emit. */
  datatype Emitted =
    | ThemeToggled(dark: bool)
    | LanguageChanged(lang: string)
    | LoggedOut
    | ProfileRequested
    | WatchHistoryRequested
    | MyListRequested

  const MyList := "My List"

  /** The six initial links; only Genres has a dropdown, and My List starts unhighlighted. */
  const InitialLinks: seq<NavLink> := [
    NavLink("Home", "/", true, false, false),
    NavLink("Movies", "/movies", false, false, false),
    NavLink("Series", "/series", false, false, false),
    NavLink("Genres", "/genres", false, true, false),
    NavLink("New & Trending", "/trending", false, false, false),
    NavLink(MyList, "/my-list", false, false, false)
  ]

  /** `navLinks.find(link => link.label === title)`, as an index. */
  function FindTitle(links: seq<NavLink>, title: string): (r: Option<nat>)
    ensures r.Some? ==> r.value < |links| && links[r.value].title == title
    ensures r.Some? ==> forall j :: 0 <= j < r.value ==> links[j].title != title
    ensures r.None? <==> forall j :: 0 <= j < |links| ==> links[j].title != title
  {
    if links == [] then None
    else if links[0].title == title then Some(0)
    else match FindTitle(links[1..], title)
      case None => None
      case Some(i) => Some(i + 1)
  }

  /** The links with the first link titled `title` highlighted. */
  function Highlighted(links: seq<NavLink>, title: string): (r: seq<NavLink>)
    ensures |r| == |links|
    ensures FindTitle(links, title).None? ==> r == links
    ensures FindTitle(links, title).Some? ==>
      var i := FindTitle(links, title).value;
      r[i].highlight && forall j :: 0 <= j < |r| && j != i ==> r[j] == links[j]
  {
    match FindTitle(links, title)
    case None => links
    case Some(i) => links[i := links[i].(highlight := true)]
  }

  /**
   * Highlighting changes no title, route, active flag or dropdown flag, so the
   * number of active links and the position of every title stay as they were.
   */
  lemma HighlightedKeeps(links: seq<NavLink>, title: string)
    ensures forall j :: 0 <= j < |links| ==>
      var l := Highlighted(links, title)[j];
      l.title == links[j].title && l.route == links[j].route && l.active == links[j].active && l.hasDropdown == links[j].hasDropdown
    ensures ActiveCount(Highlighted(links, title)) == ActiveCount(links)
    ensures FindTitle(Highlighted(links, title), title) == FindTitle(links, title)
  {
    ActiveCountSameFlags(links, Highlighted(links, title));
    FindTitleSameTitles(links, Highlighted(links, title), title);
  }

  /** Two link lists with the same active flags have the same number of active links. */
  lemma {:induction false} ActiveCountSameFlags(a: seq<NavLink>, b: seq<NavLink>)
    requires |a| == |b| && forall j :: 0 <= j < |a| ==> a[j].active == b[j].active
    ensures ActiveCount(a) == ActiveCount(b)
  {
    if a != [] {
      ActiveCountSameFlags(a[1..], b[1..]);
    }
  }

  /** Two link lists with the same titles find a title at the same place. */
  lemma {:induction false} FindTitleSameTitles(a: seq<NavLink>, b: seq<NavLink>, title: string)
    requires |a| == |b| && forall j :: 0 <= j < |a| ==> a[j].title == b[j].title
    ensures FindTitle(a, title) == FindTitle(b, title)
  {
    if a != [] && a[0].title != title {
      FindTitleSameTitles(a[1..], b[1..], title);
    }
  }

  class HeaderBarComponent {
    const isBrowser: bool
    var user: Option<BarUser>
    var notifications: seq<string>
    var emitted: seq<Emitted>
    var isDarkMode: bool
    var documentDark: bool
    var storage: map<string, string>
    var currentLanguage: string
    var isLanguageDropdownOpen: bool
    var isUserMenuOpen: bool
    var isGenresDropdownOpen: bool
    var isMobileMenuOpen: bool
    var navLinks: seq<NavLink>
    /** The router's navigation requests, in order. */
    var navigations: seq<string>

    /** Of the three dropdowns, at most one is open. */
    predicate AtMostOneOpen()
      reads this
    {
      (if isLanguageDropdownOpen then 1 else 0) + (if isUserMenuOpen then 1 else 0) + (if isGenresDropdownOpen then 1 else 0) <= 1
    }

    /** The links keep their titles, so the `find` for My List always succeeds. */
    predicate Valid()
      reads this
    {
      FindTitle(navLinks, MyList).Some?
    }

    /** The field initialisers, with the inputs, the browser's local storage and the document's `dark` class as found. */
    constructor (isBrowser: bool, user: Option<BarUser>, notifications: seq<string>, storage: map<string, string>,
                 documentDark: bool)
      ensures Valid() && AtMostOneOpen()
      ensures this.isBrowser == isBrowser && this.user == user && this.notifications == notifications && this.storage == storage
      ensures this.documentDark == documentDark
      ensures emitted == [] && !isDarkMode && currentLanguage == "EN"
      ensures !isLanguageDropdownOpen && !isUserMenuOpen && !isGenresDropdownOpen && !isMobileMenuOpen
      ensures navLinks == InitialLinks && navigations == []
    {
      this.isBrowser := isBrowser;
      this.user := user;
      this.notifications := notifications;
      this.storage := storage;
      emitted := [];
      isDarkMode := false;
      this.documentDark := documentDark;
      currentLanguage := "EN";
      isLanguageDropdownOpen := false;
      isUserMenuOpen := false;
      isGenresDropdownOpen := false;
      isMobileMenuOpen := false;
      navLinks := InitialLinks;
      navigations := [];
      new;
      assert navLinks[5].title == MyList;
    }

    /** Writes the theme to the document root and to storage; nothing off-browser. */
    method ApplyTheme()
      modifies this`documentDark, this`storage
      ensures isBrowser ==> documentDark == isDarkMode && storage == old(storage)["theme" := if isDarkMode then "dark" else "light"]
      ensures !isBrowser ==> documentDark == old(documentDark) && storage == old(storage)
    {
      if isBrowser {
        documentDark := isDarkMode;
        storage := storage["theme" := if isDarkMode then "dark" else "light"];
      }
    }

    /** Flips the theme, emits the new value, and applies it. */
    method ToggleTheme()
      modifies this`isDarkMode, this`emitted, this`documentDark, this`storage
      ensures isDarkMode == !old(isDarkMode)
      ensures emitted == old(emitted) + [ThemeToggled(isDarkMode)]
      ensures documentDark == if isBrowser then isDarkMode else old(documentDark)
      ensures storage == if isBrowser then old(storage)["theme" := if isDarkMode then "dark" else "light"] else old(storage)
      ensures isBrowser ==> GetItem(storage, "theme") == Some(if isDarkMode then "dark" else "light")
    {
      isDarkMode := !isDarkMode;
      emitted := emitted + [ThemeToggled(isDarkMode)];
      ApplyTheme();
    }

    /** In the browser, dark mode is on exactly when the saved theme is 'dark'. */
    method LoadTheme()
      modifies this`isDarkMode, this`documentDark, this`storage
      ensures isBrowser ==> (isDarkMode <==> GetItem(old(storage), "theme") == Some("dark"))
      ensures isBrowser ==> documentDark == isDarkMode && storage == old(storage)["theme" := if isDarkMode then "dark" else "light"]
      ensures !isBrowser ==> isDarkMode == old(isDarkMode) && documentDark == old(documentDark) && storage == old(storage)
    {
      if isBrowser {
        isDarkMode := GetItem(storage, "theme") == Some("dark");
      }
      ApplyTheme();
    }

    /** Switches to `lang`, closes the language dropdown, emits the change, and saves it in the browser. */
    method ChangeLanguage(lang: string)
      modifies this`currentLanguage, this`isLanguageDropdownOpen, this`emitted, this`storage
      ensures currentLanguage == lang && !isLanguageDropdownOpen
      ensures emitted == old(emitted) + [LanguageChanged(lang)]
      ensures storage == if isBrowser then old(storage)["language" := lang] else old(storage)
    {
      currentLanguage := lang;
      isLanguageDropdownOpen := false;
      emitted := emitted + [LanguageChanged(lang)];
      if isBrowser {
        storage := storage["language" := lang];
      }
    }

    /** In the browser, the saved language or 'EN' when there is none. */
    method LoadLanguage()
      modifies this`currentLanguage
      ensures currentLanguage == if isBrowser then OrElse(GetItem(storage, "language"), "EN") else old(currentLanguage)
    {
      if isBrowser {
        currentLanguage := OrElse(GetItem(storage, "language"), "EN");
      }
    }

    /** Highlights My List when a user is present; otherwise changes nothing. */
    method UpdateMyListHighlight()
      requires Valid()
      modifies this`navLinks
      ensures Valid()
      ensures user.Some? ==> navLinks == Highlighted(old(navLinks), MyList) && navLinks[FindTitle(navLinks, MyList).value].highlight
      ensures user.None? ==> navLinks == old(navLinks)
      ensures ActiveCount(navLinks) == ActiveCount(old(navLinks))
    {
      if user.Some? {
        var i := FindTitle(navLinks, MyList).value;
        HighlightedKeeps(navLinks, MyList);
        navLinks := navLinks[i := navLinks[i].(highlight := true)];
      }
    }

    /** Loads theme and language, then updates the My List highlight. */
    method NgOnInit()
      requires Valid()
      modifies this`isDarkMode, this`documentDark, this`storage, this`currentLanguage, this`navLinks
      ensures Valid()
      ensures isBrowser ==> (isDarkMode <==> GetItem(old(storage), "theme") == Some("dark"))
      ensures isBrowser ==> currentLanguage == OrElse(GetItem(old(storage), "language"), "EN")
      ensures isBrowser ==> documentDark == isDarkMode && storage == old(storage)["theme" := if isDarkMode then "dark" else "light"]
      ensures !isBrowser ==>
        && isDarkMode == old(isDarkMode) && documentDark == old(documentDark)
        && storage == old(storage) && currentLanguage == old(currentLanguage)
      ensures navLinks == if user.Some? then Highlighted(old(navLinks), MyList) else old(navLinks)
    {
      LoadTheme();
      assert "language" != "theme";
      LoadLanguage();
      UpdateMyListHighlight();
    }

    /** Closes the dropdowns other than `except`. */
    method CloseOtherDropdowns(except: string)
      modifies this`isLanguageDropdownOpen, this`isUserMenuOpen, this`isGenresDropdownOpen
      ensures isLanguageDropdownOpen == (except == "language" && old(isLanguageDropdownOpen))
      ensures isUserMenuOpen == (except == "user" && old(isUserMenuOpen))
      ensures isGenresDropdownOpen == (except == "genres" && old(isGenresDropdownOpen))
    {
      if except != "language" {
        isLanguageDropdownOpen := false;
      }
      if except != "user" {
        isUserMenuOpen := false;
      }
      if except != "genres" {
        isGenresDropdownOpen := false;
      }
    }

    method ToggleLanguageDropdown()
      modifies this`isLanguageDropdownOpen, this`isUserMenuOpen, this`isGenresDropdownOpen
      ensures isLanguageDropdownOpen == !old(isLanguageDropdownOpen) && !isUserMenuOpen && !isGenresDropdownOpen
      ensures AtMostOneOpen()
    {
      isLanguageDropdownOpen := !isLanguageDropdownOpen;
      CloseOtherDropdowns("language");
    }

    method ToggleUserMenu()
      modifies this`isLanguageDropdownOpen, this`isUserMenuOpen, this`isGenresDropdownOpen
      ensures isUserMenuOpen == !old(isUserMenuOpen) && !isLanguageDropdownOpen && !isGenresDropdownOpen
      ensures AtMostOneOpen()
    {
      isUserMenuOpen := !isUserMenuOpen;
      CloseOtherDropdowns("user");
    }

    method ToggleGenresDropdown()
      modifies this`isLanguageDropdownOpen, this`isUserMenuOpen, this`isGenresDropdownOpen
      ensures isGenresDropdownOpen == !old(isGenresDropdownOpen) && !isLanguageDropdownOpen && !isUserMenuOpen
      ensures AtMostOneOpen()
    {
      isGenresDropdownOpen := !isGenresDropdownOpen;
      CloseOtherDropdowns("genres");
    }

    /** Flips the mobile menu; the three dropdowns are left as they are. */
    method ToggleMobileMenu()
      modifies this`isMobileMenuOpen
      ensures isMobileMenuOpen == !old(isMobileMenuOpen)
    {
      isMobileMenuOpen := !isMobileMenuOpen;
    }

    /** Makes link `index` the only active link. */
    method SetActiveLink(index: int)
      requires Valid()
      modifies this`navLinks
      ensures Valid()
      ensures navLinks == Activated(old(navLinks), index)
      ensures 0 <= index < |navLinks| ==> ActiveCount(navLinks) == 1 && navLinks[index].active
    {
      navLinks := MarkActive(navLinks, index);
      ActivatedSpec(old(navLinks), index);
      FindTitleSameTitles(old(navLinks), navLinks, MyList);
    }

    /** `login`: asks the router for the login page. */
    method Login()
      modifies this`navigations
      ensures navigations == old(navigations) + ["/login"]
    {
      navigations := navigations + ["/login"];
    }

    /** `logout`: emits the logout event and does nothing else. */
    method Logout()
      modifies this`emitted
      ensures emitted == old(emitted) + [LoggedOut]
    {
      emitted := emitted + [LoggedOut];
    }

    /** `profile`: emits the profile event. */
    method Profile()
      modifies this`emitted
      ensures emitted == old(emitted) + [ProfileRequested]
    {
      emitted := emitted + [ProfileRequested];
    }

    /** `watchHistory`: emits the watch-history event. */
    method WatchHistory()
      modifies this`emitted
      ensures emitted == old(emitted) + [WatchHistoryRequested]
    {
      emitted := emitted + [WatchHistoryRequested];
    }

    /** `myList`: emits the my-list event. */
    method OpenMyList()
      modifies this`emitted
      ensures emitted == old(emitted) + [MyListRequested]
    {
      emitted := emitted + [MyListRequested];
    }

    /** `notificationCount`: the number of notifications. */
    function NotificationCount(): (n: nat)
      reads this
      ensures n == |notifications|
    {
      |notifications|
    }
  }
}
