/** The sign-in form of `src/pages/auth/Login.jsx`: its state, the handler
    that records typed input, and the submit handler, which consults the
    rate limiter, then validates, then signs in. */
module LoginPage {
  import opened Wrappers
  import opened Validation
  import opened RateLimit
  import opened AuthService
  import opened AuthContext
  import ProtectedRoute

  /** The arguments of the page's `createRateLimit(5, 15 * 60 * 1000)`. */
  const MaxAttempts := 5
  const WindowMs := 15 * 60 * 1000

  const DefaultDestination := "/dashboard"

  /** The limiter key of a submission: `"login-" + email`. */
  function LoginKey(email: string): string { "login-" + email }

  /** `validateForm()`: the email validator and a presence check on the
      password, with no strength rule. */
  function ValidateForm(email: string, password: string): (errors: map<string, string>)
    ensures "email" in errors && errors["email"] == Email(email)
    ensures "password" in errors <==> password == ""
    ensures errors.Keys <= {"email", "password"}
    ensures NoErrors(errors) <==> Email(email) == "" && password != ""
  {
    var errors := map["email" := Email(email)];
    if password == "" then errors["password" := PasswordRequired] else errors
  }

  /** Any non-empty password passes the form, however weak. */
  lemma WeakPasswordPasses()
    ensures NoErrors(ValidateForm("a@b.co", "x")) && Password("x") != ""
  {
    var s := "a@b.co";
    assert s[1] == '@' && PlainExcept(s, 1) && s[3] == '.' && DotInDomain(s, 1);
  }

  /** `location.state?.from?.pathname || "/dashboard"`. */
  function Destination(from: Option<string>): (path: string)
    ensures from.Some? && from.value != "" ==> path == from.value
    ensures from.None? || from.value == "" ==> path == DefaultDestination
  {
    if from.Some? && from.value != "" then from.value else DefaultDestination
  }

  /** `if (error) setError(null)`: a non-empty message is cleared. */
  function ClearedError(error: Option<string>): (e: Option<string>)
    ensures e == None || e == error
    ensures e.Some? ==> e.value == ""
  {
    if error.Some? && error.value != "" then None else error
  }

  class LoginForm {
    var email: string
    var password: string
    var formErrors: map<string, string>
    var loginAttempts: int
    /** The path passed to `navigate`, once it has been called. */
    var navigatedTo: Option<string>

    constructor ()
      ensures email == "" && password == "" && formErrors == map[]
      ensures loginAttempts == 0 && navigatedTo == None
    {
      email := "";
      password := "";
      formErrors := map[];
      loginAttempts := 0;
      navigatedTo := None;
    }

    /** `handleInputChange` for the input named `name` (the form has the
        inputs `email` and `password`) receiving `value`. */
    method HandleInputChange(auth: AuthProvider, name: string, value: string)
      requires name == "email" || name == "password"
      modifies this, auth
      ensures name == "email" ==> email == Escape(value) && password == old(password)
      ensures name == "password" ==> password == Escape(value) && email == old(email)
      ensures formErrors == ClearedField(old(formErrors), name)
      ensures auth.error == ClearedError(old(auth.error))
      ensures auth.user == old(auth.user) && auth.loading == old(auth.loading)
      ensures loginAttempts == old(loginAttempts) && navigatedTo == old(navigatedTo)
    {
      SanitizeIsEscape(value);
      var sanitizedValue := Sanitize(value);
      if name == "email" {
        email := sanitizedValue;
      } else {
        password := sanitizedValue;
      }
      formErrors := ClearedField(formErrors, name);
      if auth.error.Some? && auth.error.value != "" {
        auth.SetError(None);
      }
    }

    /** `handleSubmit` at time `now`, with the limiter the page holds, the
        path the visitor came `from`, the retry message the page would
        format, and the outcomes of the remote calls of signing in. */
    method HandleSubmit(limiter: RateLimiter, now: int, auth: AuthProvider, from: Option<string>, retryMessage: string,
                        session: Result<string, ErrorInfo>, current: Result<Account, ErrorInfo>,
                        profile: Option<Profile>)
      modifies this, limiter, auth
      // the limiter is asked first, whether or not the form is valid
      ensures limiter.attempts == Step(old(limiter.attempts), LoginKey(email), now,
                                       limiter.maxAttempts, limiter.windowMs).0
      ensures email == old(email) && password == old(password)
      ensures var d := Step(old(limiter.attempts), LoginKey(email), now, limiter.maxAttempts, limiter.windowMs).1;
        && (d.Blocked? ==>
              && auth.error == Some(retryMessage) && auth.user == old(auth.user) && auth.loading == old(auth.loading)
              && formErrors == old(formErrors) && loginAttempts == old(loginAttempts)
              && navigatedTo == old(navigatedTo))
        && (d.Allowed? ==> formErrors == ValidateForm(email, password))
        && (d.Allowed? && !NoErrors(formErrors) ==>
              && auth.error == old(auth.error) && auth.user == old(auth.user) && auth.loading == old(auth.loading)
              && loginAttempts == old(loginAttempts) && navigatedTo == old(navigatedTo))
      // signing in is tried only when the limiter allows and the form is valid
      ensures var d := Step(old(limiter.attempts), LoginKey(email), now, limiter.maxAttempts, limiter.windowMs).1;
        var r := AuthService.Login(email, password, session, current, profile);
        d.Allowed? && NoErrors(formErrors) ==>
          && !auth.loading
          && (r.Ok? ==> navigatedTo == Some(Destination(from)) && loginAttempts == old(loginAttempts)
                        && auth.user == Some(User(r.value.account, r.value.profile)) && auth.error == None)
          && (r.Err? ==> navigatedTo == old(navigatedTo) && loginAttempts == old(loginAttempts) + 1
                         && auth.user == old(auth.user) && auth.error == Some(r.error))
    {
      var rateLimitResult := limiter.Check(LoginKey(email), now);
      if rateLimitResult.Blocked? {
        auth.SetError(Some(retryMessage));
        return;
      }
      var errors := ValidateForm(email, password);
      formErrors := errors;
      if !NoErrors(errors) {
        return;
      }
      var result := auth.Login(email, password, session, current, profile);
      if result.Ok? {
        navigatedTo := Some(Destination(from));
      } else {
        loginAttempts := loginAttempts + 1;
      }
    }
  }

  /** The page as written: `createRateLimit` runs on every render, so each
      submission consults a limiter with no attempts stored. */
  method HandleSubmitAsRendered(form: LoginForm, now: int, auth: AuthProvider, from: Option<string>,
                                retryMessage: string, session: Result<string, ErrorInfo>,
                                current: Result<Account, ErrorInfo>, profile: Option<Profile>)
    modifies form, auth
    // the form is validated on every submission: the limiter never refuses
    ensures form.formErrors == ValidateForm(form.email, form.password)
  {
    var limiter := new RateLimiter(MaxAttempts, WindowMs);
    form.HandleSubmit(limiter, now, auth, from, retryMessage, session, current, profile);
  }

  /** A fresh limiter allows a submission with 4 attempts left, so the
      page as written never blocks, however many submissions come. */
  lemma RebuiltLimiterNeverBlocks(email: string, now: int)
    ensures Step(map[], LoginKey(email), now, MaxAttempts, WindowMs).1 == Allowed(MaxAttempts - 1)
  {
    assert Recent([], now, WindowMs) == [];
  }

  /** A limiter that persists across submissions, as the page evidently
      intends, refuses the sixth submission for one address within the
      window, until the first one's time plus the window. */
  lemma PersistentLimiterBlocksSixth(email: string, times: seq<int>)
    requires |times| == MaxAttempts + 1
    requires forall k | 0 <= k < |times| :: times[0] <= times[k] < times[0] + WindowMs
    ensures var ds := Run(map[], LoginKey(email), times, MaxAttempts, WindowMs).1;
      && (forall k | 0 <= k < MaxAttempts :: ds[k].Allowed?)
      && ds[MaxAttempts] == Blocked(Some(times[0] + WindowMs))
  {
    FirstAttemptsThenBlocked(map[], LoginKey(email), times, MaxAttempts, WindowMs);
  }

  /** The path `ProtectedRoute` stores when it sends a visitor to sign in is
      where a successful sign-in returns them. */
  lemma ReturnsToProtectedPath(s: AuthState, requiredRole: Option<string>, requiredPermissions: seq<string>,
                               location: string)
    requires !s.loading && !IsAuthenticated(s) && location != ""
    ensures var v := ProtectedRoute.Render(s, requiredRole, requiredPermissions, ProtectedRoute.DefaultRedirect, location);
      v.Redirect? && v.to == ProtectedRoute.DefaultRedirect && Destination(v.from) == location
  {
  }
}
