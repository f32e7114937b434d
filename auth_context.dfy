/** The `AuthProvider` of `src/hooks/useAuth.js`: the `user`, `loading` and
    `error` state that every page and guard reads, and the operations that
    update it around the calls into `AuthService`.

    Each operation runs to completion over the outcomes of its remote calls,
    which are parameters; a rethrown error is an `Err` result carrying the
    error's message. */
module AuthContext {
  import opened Wrappers
  import opened AuthService

  /** The part of the context value the guards read. */
  datatype AuthState = AuthState(user: Option<User>, loading: bool, error: Option<string>)

  /** `isAuthenticated: !!user`. */
  predicate IsAuthenticated(s: AuthState) { s.user.Some? }

  /** `user?.profile?.role`: `None` without a user, a profile or a role. */
  function ProfileRole(s: AuthState): (r: Option<string>)
    ensures r.Some? ==> s.user.Some? && s.user.value.profile.Some? && r == s.user.value.profile.value.role
  {
    if s.user.Some? && s.user.value.profile.Some? then s.user.value.profile.value.role else None
  }

  /** The context's `hasRole(role)`. */
  predicate UserHasRole(s: AuthState, role: string) {
    s.user.Some? && s.user.value.profile.Some? && HasRole(s.user.value.profile.value.role, role)
  }

  /** The context's `hasPermission(permission)`. */
  predicate UserHasPermission(s: AuthState, permission: string) {
    s.user.Some? && s.user.value.profile.Some? && HasPermission(s.user.value.profile.value.permissions, permission)
  }

  /** Without a user or a profile both checks fail; with a profile they are
      the service's checks on its role and permissions, so an admin profile
      holds every role. */
  lemma ContextChecks(s: AuthState, role: string, permission: string)
    ensures s.user.None? || s.user.value.profile.None? ==> !UserHasRole(s, role) && !UserHasPermission(s, permission)
    ensures UserHasRole(s, role) <==> ProfileRole(s) == Some(role) || ProfileRole(s) == Some(Admin)
    ensures UserHasPermission(s, permission) ==> IsAuthenticated(s)
  {
  }

  /** `roles.some(role => hasRole(role))`. */
  function AnyRole(s: AuthState, roles: seq<string>): (r: bool)
    ensures r <==> exists k | 0 <= k < |roles| :: UserHasRole(s, roles[k])
  {
    if roles == [] then false
    else UserHasRole(s, roles[0]) || AnyRole(s, roles[1..])
  }

  /** `roles.every(role => hasRole(role))`. */
  function EveryRole(s: AuthState, roles: seq<string>): (r: bool)
    ensures r <==> forall k | 0 <= k < |roles| :: UserHasRole(s, roles[k])
  {
    if roles == [] then true
    else UserHasRole(s, roles[0]) && EveryRole(s, roles[1..])
  }

  /** The context's `hasRole(role)` as written: `false` without a profile,
      otherwise the service's `hasRole` as written, which throws unless the
      profile's role is `role` itself. */
  function UserHasRoleAsWritten(s: AuthState, role: string): (r: Result<bool, string>)
    ensures r == Ok(false) <==> s.user.None? || s.user.value.profile.None?
    ensures r == Ok(true) <==> ProfileRole(s) == Some(role)
    ensures r.Err? ==> r.error == AdminUnreadable
    ensures r.Ok? ==> r.value == UserHasRole(s, role)
  {
    if s.user.None? || s.user.value.profile.None? then Ok(false)
    else HasRoleAsWritten(s.user.value.profile.value.role, role)
  }

  /** `roles.some(role => hasRole(role))` as written: `some` stops at the
      first `true` and passes on the first throw.  With a profile, the first
      role listed decides everything: the profile holds it, or the render
      throws. */
  function AnyRoleAsWritten(s: AuthState, roles: seq<string>): (r: Result<bool, string>)
    ensures s.user.None? || s.user.value.profile.None? ==> r == Ok(false)
    ensures s.user.Some? && s.user.value.profile.Some? && roles != [] ==>
      (r == Ok(true) <==> ProfileRole(s) == Some(roles[0])) && r != Ok(false)
    ensures r.Err? ==> r.error == AdminUnreadable
    ensures r.Ok? ==> r.value == AnyRole(s, roles)
  {
    if roles == [] then Ok(false)
    else
      match UserHasRoleAsWritten(s, roles[0])
      case Err(e) => Err(e)
      case Ok(held) => if held then Ok(true) else AnyRoleAsWritten(s, roles[1..])
  }

  /** `roles.every(role => hasRole(role))` as written: `every` stops at the
      first `false` and passes on the first throw.  With a profile, it
      answers only when every role listed is the profile's own. */
  function EveryRoleAsWritten(s: AuthState, roles: seq<string>): (r: Result<bool, string>)
    ensures roles != [] && (s.user.None? || s.user.value.profile.None?) ==> r == Ok(false)
    ensures s.user.Some? && s.user.value.profile.Some? ==>
      (r.Ok? <==> forall k | 0 <= k < |roles| :: ProfileRole(s) == Some(roles[k])) && r != Ok(false)
    ensures r.Err? ==> r.error == AdminUnreadable
    ensures r.Ok? ==> r.value == EveryRole(s, roles)
  {
    if roles == [] then Ok(true)
    else
      match UserHasRoleAsWritten(s, roles[0])
      case Err(e) => Err(e)
      case Ok(held) =>
        if !held then Ok(false)
        else
          var rest := EveryRoleAsWritten(s, roles[1..]);
          assert forall k | 1 <= k < |roles| :: roles[k] == roles[1..][k - 1];
          rest
  }

  /** `permissions.some(permission => hasPermission(permission))`. */
  function AnyPermission(s: AuthState, permissions: seq<string>): (r: bool)
    ensures r <==> exists k | 0 <= k < |permissions| :: UserHasPermission(s, permissions[k])
  {
    if permissions == [] then false
    else UserHasPermission(s, permissions[0]) || AnyPermission(s, permissions[1..])
  }

  /** `permissions.every(permission => hasPermission(permission))`. */
  function EveryPermission(s: AuthState, permissions: seq<string>): (r: bool)
    ensures r <==> forall k | 0 <= k < |permissions| :: UserHasPermission(s, permissions[k])
  {
    if permissions == [] then true
    else UserHasPermission(s, permissions[0]) && EveryPermission(s, permissions[1..])
  }

  /** The provider component with its three pieces of state. */
  class AuthProvider {
    var user: Option<User>
    var loading: bool
    var error: Option<string>

    /** `useState(null)`, `useState(true)`, `useState(null)`. */
    constructor ()
      ensures user == None && loading && error == None
    {
      user := None;
      loading := true;
      error := None;
    }

    function State(): (s: AuthState)
      reads this
      ensures s.user == user && s.loading == loading && s.error == error
    {
      AuthState(user, loading, error)
    }

    /** The start-up `checkAuth`, given the outcomes of the two calls inside
      `getCurrentUser`, which never throws. */
    method CheckAuth(current: Result<Account, ErrorInfo>, profile: Option<Profile>)
      modifies this
      ensures user == CurrentUser(current, profile)
      ensures !loading && error == old(error)
    {
      var currentUser := CurrentUser(current, profile);
      user := currentUser;
      loading := false;
    }

    /** `login(email, password)`, given the outcomes of the service's remote
        calls. */
    method Login(email: string, password: string, session: Result<string, ErrorInfo>,
                 current: Result<Account, ErrorInfo>, profile: Option<Profile>)
      returns (result: Result<User, string>)
      modifies this
      ensures var r := AuthService.Login(email, password, session, current, profile);
        && (r.Ok? ==> result == Ok(User(r.value.account, r.value.profile)) && user == Some(result.value)
                      && error == None)
        && (r.Err? ==> result == Err(r.error) && user == old(user) && error == Some(r.error))
      ensures !loading
    {
      loading := true;
      error := None;
      var r := AuthService.Login(email, password, session, current, profile);
      if r.Ok? {
        var userWithProfile := User(r.value.account, r.value.profile);
        user := Some(userWithProfile);
        result := Ok(userWithProfile);
      } else {
        error := Some(r.error);
        result := Err(r.error);
      }
      loading := false;
    }

    /** `register(userData)`: after the service registers the account, the
        new user is whatever a fresh `getCurrentUser()` yields, not the
        account the service returned. */
    method Register(d: Registration, created: Result<Account, ErrorInfo>, session: Result<string, ErrorInfo>,
                    profileStored: bool, current: Result<Account, ErrorInfo>, profile: Option<Profile>)
      returns (result: Result<Option<User>, string>)
      modifies this
      ensures var r := AuthService.Register(d, created, session, profileStored);
        && (r.Ok? ==> result == Ok(CurrentUser(current, profile)) && user == CurrentUser(current, profile)
                      && error == None)
        && (r.Err? ==> result == Err(r.error) && user == old(user) && error == Some(r.error))
      ensures !loading
    {
      loading := true;
      error := None;
      var r := AuthService.Register(d, created, session, profileStored);
      if r.Ok? {
        var userWithProfile := CurrentUser(current, profile);
        user := userWithProfile;
        result := Ok(userWithProfile);
      } else {
        error := Some(r.error);
        result := Err(r.error);
      }
      loading := false;
    }

    /** `logout()`: the user is cleared only when the session was deleted;
        a failure is recorded and not rethrown.  The error is not cleared on
        entry. */
    method Logout(deleted: bool)
      modifies this
      ensures deleted ==> user == None && error == old(error)
      ensures !deleted ==> user == old(user) && error == Some(LogoutFailed)
      ensures !loading
    {
      loading := true;
      var r := AuthService.Logout(deleted);
      if r.Ok? {
        user := None;
      } else {
        error := Some(r.error);
      }
      loading := false;
    }

    /** `resetPassword(email)`: touches neither `loading` nor `user`. */
    method ResetPassword(email: string, recovery: Result<(), ErrorInfo>) returns (result: Result<string, string>)
      modifies this
      ensures result == AuthService.ResetPassword(email, recovery)
      ensures error == (if result.Err? then Some(result.error) else None)
      ensures user == old(user) && loading == old(loading)
    {
      error := None;
      result := AuthService.ResetPassword(email, recovery);
      if result.Err? {
        error := Some(result.error);
      }
    }

    /** `updatePassword(userId, secret, newPassword, confirmPassword)`: touches
        neither `loading` nor `user`. */
    method UpdatePassword(newPassword: string, confirmPassword: string, recovery: Result<(), ErrorInfo>)
      returns (result: Result<string, string>)
      modifies this
      ensures result == AuthService.UpdatePassword(newPassword, confirmPassword, recovery)
      ensures error == (if result.Err? then Some(result.error) else None)
      ensures user == old(user) && loading == old(loading)
    {
      error := None;
      result := AuthService.UpdatePassword(newPassword, confirmPassword, recovery);
      if result.Err? {
        error := Some(result.error);
      }
    }

    /** The exposed `setError`. */
    method SetError(e: Option<string>)
      modifies this
      ensures error == e && user == old(user) && loading == old(loading)
    {
      error := e;
    }
  }
}
