/**
 * frontend/src/app/header/header.ts: the site header. It keeps two mutually
 * exclusive dropdowns and a mobile menu, one active navigation link, a theme and
 * a language that persist in local storage, and the signed-in user's name, email
 * and avatar, updated on each auth-state change. The `dark` class on the document
 * root is the field `documentDark`.
 */
module Header {
  import opened Wrappers
  import opened Text
  import opened NavLinks
  import Auth

  const PlaceholderAvatar := "https://via.placeholder.com/32"

  /** `user.displayName || user.email?.split('@')[0] || 'User'`. */
  function UserNameOf(u: Auth.User): (r: string)
    ensures r != ""
    ensures u.displayName.Some? && u.displayName.value != "" ==> r == u.displayName.value
    ensures (u.displayName.None? || u.displayName.value == "") && u.email.Some? && BeforeFirst(u.email.value, '@') != "" ==>
      r == BeforeFirst(u.email.value, '@')
    ensures (u.displayName.None? || u.displayName.value == "") && (u.email.None? || BeforeFirst(u.email.value, '@') == "") ==>
      r == "User"
  {
    var fromEmail := if u.email.Some? then Some(BeforeFirst(u.email.value, '@')) else None;
    OrElse(u.displayName, OrElse(fromEmail, "User"))
  }

  class Header {
    const isBrowser: bool
    var isDarkMode: bool
    var documentDark: bool
    var storage: map<string, string>
    var currentLanguage: string
    var isLoggedIn: bool
    var userAvatar: string
    var userName: string
    var userEmail: string
    var isLanguageDropdownOpen: bool
    var isUserMenuOpen: bool
    var isMobileMenuOpen: bool
    var navLinks: seq<NavLink>
    /** The router's navigation requests, in order. */
    var navigations: seq<string>

    /** The two dropdowns are never open together. */
    predicate AtMostOneOpen()
      reads this
    {
      !(isLanguageDropdownOpen && isUserMenuOpen)
    }

    /** The field initialisers, with the browser's local storage and the document's `dark` class as found. */
    constructor (isBrowser: bool, storage: map<string, string>, documentDark: bool)
      ensures this.isBrowser == isBrowser && this.storage == storage && this.documentDark == documentDark
      ensures !isDarkMode && currentLanguage == "EN" && !isLoggedIn
      ensures userAvatar == PlaceholderAvatar && userName == "" && userEmail == ""
      ensures !isLanguageDropdownOpen && !isUserMenuOpen && !isMobileMenuOpen
      ensures navLinks == [NavLink("Home", "/", true, false, false), NavLink("Movies", "/movie-list", false, false, false)]
      ensures navigations == []
    {
      this.isBrowser := isBrowser;
      this.storage := storage;
      isDarkMode := false;
      this.documentDark := documentDark;
      currentLanguage := "EN";
      isLoggedIn := false;
      userAvatar := PlaceholderAvatar;
      userName := "";
      userEmail := "";
      isLanguageDropdownOpen := false;
      isUserMenuOpen := false;
      isMobileMenuOpen := false;
      navLinks := [NavLink("Home", "/", true, false, false), NavLink("Movies", "/movie-list", false, false, false)];
      navigations := [];
    }

    /** Writes the theme to the document root and to storage; nothing off-browser. */
    method ApplyTheme()
      modifies this`documentDark, this`storage
      ensures isBrowser ==> documentDark == isDarkMode && storage == old(storage)["theme" := if isDarkMode then "dark" else "light"]
      ensures !isBrowser ==> documentDark == old(documentDark) && storage == old(storage)
    {
      if isBrowser {
        documentDark := isDarkMode;
        storage := storage["theme" := if isDarkMode then "dark" else "light"];
      }
    }

    /** Flips the theme and applies it. */
    method ToggleTheme()
      modifies this`isDarkMode, this`documentDark, this`storage
      ensures isDarkMode == !old(isDarkMode)
      ensures documentDark == if isBrowser then isDarkMode else old(documentDark)
      ensures storage == if isBrowser then old(storage)["theme" := if isDarkMode then "dark" else "light"] else old(storage)
      ensures isBrowser ==> GetItem(storage, "theme") == Some(if isDarkMode then "dark" else "light")
    {
      isDarkMode := !isDarkMode;
      ApplyTheme();
    }

    /** In the browser, dark mode is on exactly when the saved theme is 'dark'. */
    method LoadTheme()
      modifies this`isDarkMode, this`documentDark, this`storage
      ensures isBrowser ==> (isDarkMode <==> GetItem(old(storage), "theme") == Some("dark"))
      ensures isBrowser ==> documentDark == isDarkMode && storage == old(storage)["theme" := if isDarkMode then "dark" else "light"]
      ensures !isBrowser ==> isDarkMode == old(isDarkMode) && documentDark == old(documentDark) && storage == old(storage)
    {
      if isBrowser {
        isDarkMode := GetItem(storage, "theme") == Some("dark");
      }
      ApplyTheme();
    }

    /** Switches to `lang`, closes the language dropdown, and saves the choice in the browser. */
    method ChangeLanguage(lang: string)
      modifies this`currentLanguage, this`isLanguageDropdownOpen, this`storage
      ensures currentLanguage == lang && !isLanguageDropdownOpen
      ensures storage == if isBrowser then old(storage)["language" := lang] else old(storage)
    {
      currentLanguage := lang;
      isLanguageDropdownOpen := false;
      if isBrowser {
        storage := storage["language" := lang];
      }
    }

    /** In the browser, the saved language or 'EN' when there is none. */
    method LoadLanguage()
      modifies this`currentLanguage
      ensures currentLanguage == if isBrowser then OrElse(GetItem(storage, "language"), "EN") else old(currentLanguage)
    {
      if isBrowser {
        currentLanguage := OrElse(GetItem(storage, "language"), "EN");
      }
    }

    /** Loads theme and language; the auth subscription is `OnAuthUpdate`. */
    method NgOnInit()
      modifies this`isDarkMode, this`documentDark, this`storage, this`currentLanguage
      ensures isBrowser ==> (isDarkMode <==> GetItem(old(storage), "theme") == Some("dark"))
      ensures isBrowser ==> currentLanguage == OrElse(GetItem(old(storage), "language"), "EN")
      ensures isBrowser ==> documentDark == isDarkMode && storage == old(storage)["theme" := if isDarkMode then "dark" else "light"]
      ensures !isBrowser ==>
        && isDarkMode == old(isDarkMode) && documentDark == old(documentDark)
        && storage == old(storage) && currentLanguage == old(currentLanguage)
    {
      LoadTheme();
      assert "language" != "theme";
      LoadLanguage();
    }

    /** Closes the dropdowns other than `except`. */
    method CloseOtherDropdowns(except: string)
      modifies this`isLanguageDropdownOpen, this`isUserMenuOpen
      ensures isLanguageDropdownOpen == (except == "language" && old(isLanguageDropdownOpen))
      ensures isUserMenuOpen == (except == "user" && old(isUserMenuOpen))
    {
      if except != "language" {
        isLanguageDropdownOpen := false;
      }
      if except != "user" {
        isUserMenuOpen := false;
      }
    }

    method ToggleLanguageDropdown()
      modifies this`isLanguageDropdownOpen, this`isUserMenuOpen
      ensures isLanguageDropdownOpen == !old(isLanguageDropdownOpen) && !isUserMenuOpen
      ensures AtMostOneOpen()
    {
      isLanguageDropdownOpen := !isLanguageDropdownOpen;
      CloseOtherDropdowns("language");
    }

    method ToggleUserMenu()
      modifies this`isLanguageDropdownOpen, this`isUserMenuOpen
      ensures isUserMenuOpen == !old(isUserMenuOpen) && !isLanguageDropdownOpen
      ensures AtMostOneOpen()
    {
      isUserMenuOpen := !isUserMenuOpen;
      CloseOtherDropdowns("user");
    }

    /** Flips the mobile menu and nothing else. */
    method ToggleMobileMenu()
      modifies this`isMobileMenuOpen
      ensures isMobileMenuOpen == !old(isMobileMenuOpen)
    {
      isMobileMenuOpen := !isMobileMenuOpen;
    }

    /** Makes link `index` the only active link. */
    method SetActiveLink(index: int)
      modifies this`navLinks
      ensures navLinks == Activated(old(navLinks), index)
      ensures 0 <= index < |navLinks| ==> ActiveCount(navLinks) == 1 && navLinks[index].active
    {
      navLinks := MarkActive(navLinks, index);
      ActivatedSpec(old(navLinks), index);
    }

    /** `login`: asks the router for the login page. */
    method Login()
      modifies this`navigations
      ensures navigations == old(navigations) + ["/login"]
    {
      navigations := navigations + ["/login"];
    }

    /**
     * `logout`: after the awaited sign-out the router goes home; when the
     * sign-out fails the error is logged and nothing changes. The sign-out itself
     * is `signedOut`; the user it clears arrives through `OnAuthUpdate`.
     */
    method Logout(signedOut: bool)
      modifies this`navigations
      ensures navigations == if signedOut then old(navigations) + ["/"] else old(navigations)
    {
      if signedOut {
        navigations := navigations + ["/"];
      }
    }

    /**
     * The auth-state subscription: the login flag follows the user; a user's
     * name, email and avatar are shown with their fallbacks, and a sign-out
     * clears them back to the placeholder.
     */
    method OnAuthUpdate(u: Option<Auth.User>)
      modifies this`isLoggedIn, this`userName, this`userEmail, this`userAvatar
      ensures isLoggedIn <==> u.Some?
      ensures u.Some? ==>
        && userName == UserNameOf(u.value)
        && userEmail == OrElse(u.value.email, "")
        && userAvatar == OrElse(u.value.photoURL, PlaceholderAvatar)
      ensures u.None? ==> userName == "" && userEmail == "" && userAvatar == PlaceholderAvatar
    {
      isLoggedIn := u.Some?;
      if u.Some? {
        userName := UserNameOf(u.value);
        userEmail := OrElse(u.value.email, "");
        userAvatar := OrElse(u.value.photoURL, PlaceholderAvatar);
      } else {
        userName := "";
        userEmail := "";
        userAvatar := PlaceholderAvatar;
      }
    }
  }
}
