/**
 * frontend/src/app/login-page/login-page.component.ts: the login, sign-up and
 * forgot-password page. The Firebase call behind each form is one step whose
 * result is the `Outcome` parameter, an error carrying its optional `code`; the
 * forms' built-in validators (required, email, minimum length) are the
 * `formValid` parameter, and navigations to the home page are recorded in order.
 */
module LoginPage {
  import opened Wrappers
  import opened Text

  /** How an awaited Firebase call ended; `code` is `error.code`, absent on a plain `Error`. */
  datatype Outcome = Succeeded | Failed(code: Option<string>)

  /** The `{ mismatch: true }` validation error. */
  datatype ValidationError = Mismatch

  /**
   * `passwordMatchValidator` over the group's controls, name to value: no error
   * exactly when both password controls exist and hold the same value.
   */
  function PasswordMatch(group: map<string, string>): (r: Option<ValidationError>)
    ensures r.None? <==> "password" in group && "confirmPassword" in group && group["password"] == group["confirmPassword"]
  {
    if "password" in group && "confirmPassword" in group && group["password"] == group["confirmPassword"] then None
    else Some(Mismatch)
  }

  const DefaultError := "An error occurred. Please try again."

  /** The seven Firebase codes `getErrorMessage` knows, with their messages. */
  const AuthMessages: map<string, string> := map[
    "auth/user-not-found" := "No account found with this email address.",
    "auth/wrong-password" := "Incorrect password.",
    "auth/email-already-in-use" := "An account with this email already exists.",
    "auth/weak-password" := "Password should be at least 6 characters.",
    "auth/invalid-email" := "Please enter a valid email address.",
    "auth/user-disabled" := "This account has been disabled.",
    "auth/too-many-requests" := "Too many failed attempts. Please try again later."
  ]

  /** `getErrorMessage`: each known code has its message, every other code the default. */
  function ErrorMessage(code: Option<string>): (r: string)
    ensures code.Some? && code.value in AuthMessages ==> r == AuthMessages[code.value]
    ensures (code.None? || code.value !in AuthMessages) ==> r == DefaultError
  {
    if code == Some("auth/user-not-found") then "No account found with this email address."
    else if code == Some("auth/wrong-password") then "Incorrect password."
    else if code == Some("auth/email-already-in-use") then "An account with this email already exists."
    else if code == Some("auth/weak-password") then "Password should be at least 6 characters."
    else if code == Some("auth/invalid-email") then "Please enter a valid email address."
    else if code == Some("auth/user-disabled") then "This account has been disabled."
    else if code == Some("auth/too-many-requests") then "Too many failed attempts. Please try again later."
    else DefaultError
  }

  /**
   * The messages tell the codes apart: two codes with the same message are the
   * same known code, or both fall to the default.
   */
  lemma ErrorMessageDistinguishes(a: Option<string>, b: Option<string>)
    requires ErrorMessage(a) == ErrorMessage(b)
    ensures (a.Some? && a.value in AuthMessages) <==> (b.Some? && b.value in AuthMessages)
    ensures a.Some? && a.value in AuthMessages ==> a == b
  {
  }

  /** The six codes `getSocialAuthErrorMessage` has a message of its own for. */
  predicate KnownSocialCode(c: string) {
    || c == "auth/popup-closed-by-user"
    || c == "auth/popup-blocked"
    || c == "auth/cancelled-popup-request"
    || c == "auth/account-exists-with-different-credential"
    || c == "auth/operation-not-allowed"
    || c == "auth/operation-not-supported-in-this-environment"
  }

  /** The default social sign-in message, naming the provider. */
  function SocialDefault(provider: string): (r: string)
    ensures Contains(r, provider)
  {
    ContainsMiddle("Failed to sign in with ", provider, ". Please try again.");
    "Failed to sign in with " + provider + ". Please try again."
  }

  /**
   * `getSocialAuthErrorMessage`: every code and provider gets a message; the six
   * known codes have their own, and any other code, or none, gets the default.
   */
  function SocialErrorMessage(code: Option<string>, provider: string): (r: string)
    ensures (code.None? || !KnownSocialCode(code.value)) ==> r == SocialDefault(provider)
  {
    match code
    case None => SocialDefault(provider)
    case Some(c) =>
      if !KnownSocialCode(c) then SocialDefault(provider)
      else if c == "auth/popup-closed-by-user" then "Sign in with " + provider + " was cancelled."
      else if c == "auth/popup-blocked" then "Popup was blocked. Please allow popups for this site and try again."
      else if c == "auth/cancelled-popup-request" then "Sign in request was cancelled."
      else if c == "auth/account-exists-with-different-credential" then
        "An account already exists with the same email but different sign-in credentials. Try signing in with a different method."
      else if c == "auth/operation-not-allowed" then provider + " sign-in is not enabled. Please contact support."
      else provider + " sign-in is not supported in this environment."
  }

  /**
   * The messages that concern the provider name it: the default, a cancelled
   * popup, and a provider that is disabled or unsupported here.
   */
  lemma SocialErrorNamesProvider(code: Option<string>, provider: string)
    requires || code.None? || !KnownSocialCode(code.value)
             || code.value == "auth/popup-closed-by-user"
             || code.value == "auth/operation-not-allowed"
             || code.value == "auth/operation-not-supported-in-this-environment"
    ensures Contains(SocialErrorMessage(code, provider), provider)
  {
    if code.None? || !KnownSocialCode(code.value) {
    } else if code.value == "auth/popup-closed-by-user" {
      CancelledNamesProvider(provider);
    } else if code.value == "auth/operation-not-allowed" {
      DisabledNamesProvider(provider);
    } else {
      UnsupportedNamesProvider(provider);
    }
  }

  /** A cancelled popup's message names the provider. */
  lemma CancelledNamesProvider(provider: string)
    ensures Contains(SocialErrorMessage(Some("auth/popup-closed-by-user"), provider), provider)
  {
    assert SocialErrorMessage(Some("auth/popup-closed-by-user"), provider) == "Sign in with " + provider + " was cancelled.";
    ContainsMiddle("Sign in with ", provider, " was cancelled.");
  }

  /** A disabled provider's message names it. */
  lemma DisabledNamesProvider(provider: string)
    ensures Contains(SocialErrorMessage(Some("auth/operation-not-allowed"), provider), provider)
  {
    assert SocialErrorMessage(Some("auth/operation-not-allowed"), provider)
      == "" + provider + " sign-in is not enabled. Please contact support.";
    ContainsMiddle("", provider, " sign-in is not enabled. Please contact support.");
  }

  /** An unsupported provider's message names it. */
  lemma UnsupportedNamesProvider(provider: string)
    ensures Contains(SocialErrorMessage(Some("auth/operation-not-supported-in-this-environment"), provider), provider)
  {
    assert SocialErrorMessage(Some("auth/operation-not-supported-in-this-environment"), provider)
      == "" + provider + " sign-in is not supported in this environment.";
    ContainsMiddle("", provider, " sign-in is not supported in this environment.");
  }

  /** The providers `onSocialAuth` can reach. */
  predicate Supported(provider: string) {
    provider == "google" || provider == "facebook"
  }

  class LoginPageComponent {
    var isSignupMode: bool
    var isForgotPasswordMode: bool
    var forgotPasswordSuccess: bool
    var loginError: string
    var signupError: string
    var resetError: string
    var isLoadingLogin: bool
    var isLoadingSignup: bool
    var isLoadingForgot: bool
    /** The router's navigation requests, in order. */
    var navigations: seq<string>

    constructor ()
      ensures !isSignupMode && !isForgotPasswordMode && !forgotPasswordSuccess
      ensures loginError == "" && signupError == "" && resetError == ""
      ensures !isLoadingLogin && !isLoadingSignup && !isLoadingForgot && navigations == []
    {
      isSignupMode := false;
      isForgotPasswordMode := false;
      forgotPasswordSuccess := false;
      loginError := "";
      signupError := "";
      resetError := "";
      isLoadingLogin := false;
      isLoadingSignup := false;
      isLoadingForgot := false;
      navigations := [];
    }

    /**
     * `onLogin`: an invalid form changes nothing. Otherwise the login runs with
     * the loading flag raised, and the flag is down again afterwards whether it
     * succeeded (home page, no error) or failed (the code's message).
     */
    method OnLogin(formValid: bool, outcome: Outcome)
      modifies this`loginError, this`isLoadingLogin, this`navigations
      ensures !formValid ==> loginError == old(loginError) && isLoadingLogin == old(isLoadingLogin) && navigations == old(navigations)
      ensures formValid ==> !isLoadingLogin
      ensures formValid && outcome.Succeeded? ==> loginError == "" && navigations == old(navigations) + ["/"]
      ensures formValid && outcome.Failed? ==> loginError == ErrorMessage(outcome.code) && navigations == old(navigations)
    {
      if formValid {
        loginError := "";
        isLoadingLogin := true;
        if outcome.Succeeded? {
          navigations := navigations + ["/"];
        } else {
          loginError := ErrorMessage(outcome.code);
        }
        isLoadingLogin := false;
      }
    }

    /** `onSignup`, the same shape as `onLogin` over the sign-up fields. */
    method OnSignup(formValid: bool, outcome: Outcome)
      modifies this`signupError, this`isLoadingSignup, this`navigations
      ensures !formValid ==> signupError == old(signupError) && isLoadingSignup == old(isLoadingSignup) && navigations == old(navigations)
      ensures formValid ==> !isLoadingSignup
      ensures formValid && outcome.Succeeded? ==> signupError == "" && navigations == old(navigations) + ["/"]
      ensures formValid && outcome.Failed? ==> signupError == ErrorMessage(outcome.code) && navigations == old(navigations)
    {
      if formValid {
        signupError := "";
        isLoadingSignup := true;
        if outcome.Succeeded? {
          navigations := navigations + ["/"];
        } else {
          signupError := ErrorMessage(outcome.code);
        }
        isLoadingSignup := false;
      }
    }

    /** `onForgotPassword`: on a valid form, success is recorded or the code's message shown. */
    method OnForgotPassword(formValid: bool, outcome: Outcome)
      modifies this`resetError, this`forgotPasswordSuccess
      ensures !formValid ==> resetError == old(resetError) && forgotPasswordSuccess == old(forgotPasswordSuccess)
      ensures formValid && outcome.Succeeded? ==> resetError == "" && forgotPasswordSuccess
      ensures formValid && outcome.Failed? ==> resetError == ErrorMessage(outcome.code) && forgotPasswordSuccess == old(forgotPasswordSuccess)
    {
      if formValid {
        resetError := "";
        if outcome.Succeeded? {
          forgotPasswordSuccess := true;
        } else {
          resetError := ErrorMessage(outcome.code);
        }
      }
    }

    /**
     * `onSocialAuth`: both errors are cleared first. A supported provider whose
     * sign-in succeeds goes home. An unsupported provider throws a plain error
     * with no code, so it fails like a sign-in with an unknown code; a failure's
     * message goes to the sign-up error in sign-up mode and to the login error
     * otherwise, the other one staying empty.
     */
    method OnSocialAuth(provider: string, outcome: Outcome)
      modifies this`loginError, this`signupError, this`navigations
      ensures Supported(provider) && outcome.Succeeded? ==>
        loginError == "" && signupError == "" && navigations == old(navigations) + ["/"]
      ensures !(Supported(provider) && outcome.Succeeded?) ==>
        var message := SocialErrorMessage(if Supported(provider) then outcome.code else None, provider);
        && navigations == old(navigations)
        && (isSignupMode ==> signupError == message && loginError == "")
        && (!isSignupMode ==> loginError == message && signupError == "")
      ensures !Supported(provider) ==> Contains(if isSignupMode then signupError else loginError, provider)
    {
      SocialErrorNamesProvider(None, provider);
      loginError := "";
      signupError := "";
      var failure: Option<Option<string>>;
      if provider == "google" || provider == "facebook" {
        failure := if outcome.Succeeded? then None else Some(outcome.code);
      } else {
        failure := Some(None);
      }
      if failure.None? {
        navigations := navigations + ["/"];
      } else {
        var errorMessage := SocialErrorMessage(failure.value, provider);
        if isSignupMode {
          signupError := errorMessage;
        } else {
          loginError := errorMessage;
        }
      }
    }

    /** Flips sign-up mode and leaves the forgot-password view with its success flag down. */
    method ToggleSignupMode()
      modifies this`isSignupMode, this`isForgotPasswordMode, this`forgotPasswordSuccess
      ensures isSignupMode == !old(isSignupMode) && !isForgotPasswordMode && !forgotPasswordSuccess
    {
      isSignupMode := !isSignupMode;
      isForgotPasswordMode := false;
      forgotPasswordSuccess := false;
    }

    /** Flips forgot-password mode with its success flag down; sign-up mode is untouched. */
    method ToggleForgotPasswordMode()
      modifies this`isForgotPasswordMode, this`forgotPasswordSuccess
      ensures isForgotPasswordMode == !old(isForgotPasswordMode) && !forgotPasswordSuccess
    {
      isForgotPasswordMode := !isForgotPasswordMode;
      forgotPasswordSuccess := false;
    }
  }
}
