/**
 * frontend/src/app/auth.service.ts and frontend/src/app/core/guards/auth.guard.ts:
 * the session lifecycle around the Firebase user. The service mirrors the
 * signed-in user, keeps a session record with its login time in local storage,
 * and arms one 24-hour timer that signs the user out. The clock is the `now`
 * parameter; the browser's timer queue is the `pending` map from handle to due
 * time; local storage is the `stored` field; `isBrowser` is the platform check.
 * Firebase calls are outside the model: a sign-in or sign-out reaches the
 * service as an `OnAuthStateChanged` event, and the sign-out a firing timer
 * requests is counted in `signOutRequests`.
 */
module Auth {
  import opened Wrappers

  /** `SESSION_TIMEOUT`: 24 hours in milliseconds. */
  const SessionTimeout: int := 24 * 60 * 60 * 1000

  /** The "expiring soon" margin: 5 minutes in milliseconds. */
  const ExpiryMargin: int := 5 * 60 * 1000

  /** The Firebase user fields the front end reads; `providerIds` lists `providerData[i].providerId`. */
  datatype User = User(uid: string, email: Option<string>, displayName: Option<string>,
                       photoURL: Option<string>, providerIds: seq<string>)

  /** The `popcornHub_session` record. */
  datatype Session = Session(uid: string, email: Option<string>, displayName: Option<string>,
                             photoURL: Option<string>, loginTime: int, provider: string)

  /** `user.providerData[0]?.providerId || 'email'`. */
  function ProviderOf(u: User): (p: string)
    ensures p != ""
    ensures |u.providerIds| > 0 && u.providerIds[0] != "" ==> p == u.providerIds[0]
    ensures (|u.providerIds| == 0 || u.providerIds[0] == "") ==> p == "email"
  {
    if |u.providerIds| > 0 && u.providerIds[0] != "" then u.providerIds[0] else "email"
  }

  /** The session record `setSessionData` writes for `u` at time `now`. */
  function SessionFor(u: User, now: int): (s: Session)
    ensures s.uid == u.uid && s.email == u.email && s.displayName == u.displayName && s.photoURL == u.photoURL
    ensures s.loginTime == now && s.provider == ProviderOf(u)
  {
    Session(u.uid, u.email, u.displayName, u.photoURL, now, ProviderOf(u))
  }

  /** A session whose login was at `loginTime` expires within the margin at time `now`. */
  predicate ExpiringAt(loginTime: int, now: int) {
    SessionTimeout - (now - loginTime) < ExpiryMargin
  }

  /**
   * A session is expiring soon exactly when more than 23 hours 55 minutes have
   * passed since login; a session refreshed now is not.
   */
  lemma ExpiringAtSpec(loginTime: int, now: int)
    ensures ExpiringAt(loginTime, now) <==> now - loginTime > 86100000
    ensures !ExpiringAt(now, now)
  {
  }

  class AuthService {
    const isBrowser: bool
    var user: Option<User>
    /** The last value pushed to the `authState` subject. */
    var authState: Option<User>
    /** The `popcornHub_session` entry of local storage. */
    var stored: Option<Session>
    /** The `sessionTimeout` field: the handle of the last timer armed, `None` once cleared. */
    var sessionTimeout: Option<nat>
    /** The runtime's pending timers, handle to due time. */
    var pending: map<nat, int>
    var nextHandle: nat
    var signOutRequests: nat

    /** At most one timer is pending, and it is the one `sessionTimeout` holds. */
    ghost predicate Valid()
      reads this
    {
      && (forall h :: h in pending ==> sessionTimeout == Some(h))
      && (sessionTimeout.Some? ==> 0 < sessionTimeout.value < nextHandle)
      && nextHandle >= 1
    }

    /** Subscribes to auth changes and, in the browser, checks the stored session. */
    constructor (isBrowser: bool, stored0: Option<Session>, now: int)
      ensures Valid()
      ensures this.isBrowser == isBrowser && user.None? && authState.None? && signOutRequests == 0
      ensures isBrowser && stored0.Some? && now - stored0.value.loginTime < SessionTimeout ==>
        stored == stored0 && sessionTimeout.Some? && pending == map[sessionTimeout.value := now + SessionTimeout]
      ensures isBrowser && stored0.Some? && now - stored0.value.loginTime >= SessionTimeout ==>
        stored.None? && pending == map[] && sessionTimeout.None?
      ensures !isBrowser || stored0.None? ==> stored == stored0 && pending == map[] && sessionTimeout.None?
    {
      this.isBrowser := isBrowser;
      user := None;
      authState := None;
      stored := stored0;
      sessionTimeout := None;
      pending := map[];
      nextHandle := 1;
      signOutRequests := 0;
      new;
      if isBrowser {
        CheckExistingSession(now);
      }
    }

    /** `isAuthenticated`: a user is signed in. */
    function IsAuthenticated(): (b: bool)
      reads this
      ensures b <==> user.Some?
    {
      user.Some?
    }

    /** `getSessionData`: the stored session, nothing off-browser. */
    function GetSessionData(): (s: Option<Session>)
      reads this
      ensures !isBrowser ==> s.None?
      ensures isBrowser ==> s == stored
    {
      if !isBrowser then None else stored
    }

    /** `isSessionExpiringSoon`: in the browser, a stored session with under five minutes left. */
    function IsSessionExpiringSoon(now: int): (b: bool)
      reads this
      ensures b <==> isBrowser && stored.Some? && ExpiringAt(stored.value.loginTime, now)
    {
      match GetSessionData()
      case None => false
      case Some(s) => SessionTimeout - (now - s.loginTime) < ExpiryMargin
    }

    /** Writes the session record of `u`, logged in at `now`; nothing off-browser. */
    method SetSessionData(u: User, now: int)
      modifies this`stored
      ensures stored == if isBrowser then Some(SessionFor(u, now)) else old(stored)
    {
      if !isBrowser {
        return;
      }
      stored := Some(SessionFor(u, now));
    }

    /** Removes the session record; nothing off-browser. */
    method ClearSessionData()
      modifies this`stored
      ensures stored == if isBrowser then None else old(stored)
    {
      if !isBrowser {
        return;
      }
      stored := None;
    }

    /** Cancels the timer `sessionTimeout` holds, leaving none pending. */
    method ClearSessionTimer()
      requires Valid()
      modifies this`pending, this`sessionTimeout
      ensures Valid()
      ensures pending == map[] && sessionTimeout.None?
    {
      if sessionTimeout.Some? {
        pending := pending - {sessionTimeout.value};
        sessionTimeout := None;
      }
    }

    /** Clears any timer, then arms one for the full 24 hours. */
    method StartSessionTimer(now: int)
      requires Valid()
      modifies this`pending, this`sessionTimeout, this`nextHandle
      ensures Valid()
      ensures sessionTimeout.Some? && sessionTimeout.value !in old(pending)
      ensures pending == map[sessionTimeout.value := now + SessionTimeout]
    {
      ClearSessionTimer();
      var h := nextHandle;
      nextHandle := nextHandle + 1;
      pending := pending[h := now + SessionTimeout];
      sessionTimeout := Some(h);
    }

    /**
     * The `onAuthStateChanged` callback. The user is mirrored; in the browser a
     * signed-in user gets a fresh session and timer, and a sign-out clears both.
     */
    method OnAuthStateChanged(u: Option<User>, now: int)
      requires Valid()
      modifies this
      ensures Valid()
      ensures user == u && authState == u && signOutRequests == old(signOutRequests)
      ensures isBrowser && u.Some? ==>
        stored == Some(SessionFor(u.value, now)) && sessionTimeout.Some? && pending == map[sessionTimeout.value := now + SessionTimeout]
      ensures isBrowser && u.None? ==> stored.None? && pending == map[] && sessionTimeout.None?
      ensures !isBrowser ==> stored == old(stored) && pending == old(pending) && sessionTimeout == old(sessionTimeout)
    {
      user := u;
      authState := u;
      if isBrowser {
        if u.Some? {
          SetSessionData(u.value, now);
          StartSessionTimer(now);
        } else {
          ClearSessionData();
          ClearSessionTimer();
        }
      }
    }

    /**
     * `checkExistingSession`: in the browser, a stored session younger than 24
     * hours keeps its record and gets a timer; an older one is removed.
     */
    method CheckExistingSession(now: int)
      requires Valid()
      modifies this`stored, this`pending, this`sessionTimeout, this`nextHandle
      ensures Valid()
      ensures isBrowser && old(stored).Some? && now - old(stored).value.loginTime < SessionTimeout ==>
        stored == old(stored) && sessionTimeout.Some? && pending == map[sessionTimeout.value := now + SessionTimeout]
      ensures isBrowser && old(stored).Some? && now - old(stored).value.loginTime >= SessionTimeout ==>
        stored.None? && pending == old(pending) && sessionTimeout == old(sessionTimeout)
      ensures !isBrowser || old(stored).None? ==>
        stored == old(stored) && pending == old(pending) && sessionTimeout == old(sessionTimeout)
    {
      if !isBrowser {
        return;
      }
      if stored.Some? {
        var timeSinceLogin := now - stored.value.loginTime;
        if timeSinceLogin < SessionTimeout {
          StartSessionTimer(now);
        } else {
          ClearSessionData();
        }
      }
    }

    /**
     * `extendSession`: with a user signed in, the session is rewritten with
     * login time `now` (in the browser) and the single timer is re-armed.
     */
    method ExtendSession(now: int)
      requires Valid()
      modifies this`stored, this`pending, this`sessionTimeout, this`nextHandle
      ensures Valid()
      ensures user.None? ==>
        stored == old(stored) && pending == old(pending) && sessionTimeout == old(sessionTimeout)
      ensures user.Some? ==>
        && stored == (if isBrowser then Some(SessionFor(user.value, now)) else old(stored))
        && sessionTimeout.Some? && pending == map[sessionTimeout.value := now + SessionTimeout]
      ensures user.Some? && isBrowser ==> !IsSessionExpiringSoon(now)
    {
      if user.Some? {
        SetSessionData(user.value, now);
        StartSessionTimer(now);
        ExpiringAtSpec(now, now);
      }
    }

    /**
     * At clock time `now`, the pending timer `h`, which is due by then, fires:
     * it is gone, and `autoLogout` asks Firebase to sign out.
     */
    method FireTimer(h: nat, now: int)
      requires Valid() && h in pending && pending[h] <= now
      modifies this`pending, this`signOutRequests
      ensures Valid()
      ensures pending == map[] && signOutRequests == old(signOutRequests) + 1
    {
      pending := pending - {h};
      signOutRequests := signOutRequests + 1;
    }
  }

  /** The route guard: lets a signed-in user through, otherwise sends the router to `/login`. */
  class AuthGuard {
    const auth: AuthService
    /** The router's navigation requests, in order. */
    var navigations: seq<string>

    constructor (auth: AuthService)
      ensures this.auth == auth && navigations == []
    {
      this.auth := auth;
      navigations := [];
    }

    /**
     * `canActivate`: answers whether a user is signed in. A signed-in user in the
     * browser has the session extended and is then not expiring soon; off the
     * browser nothing changes. Without a user it navigates to `/login` only.
     */
    method CanActivate(now: int) returns (allowed: bool)
      requires auth.Valid()
      modifies this`navigations, auth`stored, auth`pending, auth`sessionTimeout, auth`nextHandle
      ensures auth.Valid()
      ensures allowed == auth.IsAuthenticated()
      ensures allowed ==> navigations == old(navigations)
      ensures !allowed ==> navigations == old(navigations) + ["/login"]
      ensures !allowed || !auth.isBrowser ==>
        auth.stored == old(auth.stored) && auth.pending == old(auth.pending) && auth.sessionTimeout == old(auth.sessionTimeout)
      ensures allowed && auth.isBrowser ==>
        && auth.stored == Some(SessionFor(auth.user.value, now))
        && auth.sessionTimeout.Some? && auth.pending == map[auth.sessionTimeout.value := now + SessionTimeout]
        && !auth.IsSessionExpiringSoon(now)
    {
      if auth.IsAuthenticated() {
        if auth.isBrowser {
          auth.ExtendSession(now);
          var soon := auth.IsSessionExpiringSoon(now);
        }
        return true;
      } else {
        navigations := navigations + ["/login"];
        return false;
      }
    }
  }
}
