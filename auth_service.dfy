/** The decision logic of `AuthService` in `src/services/authService.js`:
    the role table, the role and permission predicates, the translation of
    remote errors into messages, the registration checks, and the local
    checks each operation makes before it reaches the Appwrite backend.

    Every remote call is replaced by its outcome, passed in as a parameter.
    An operation that throws `AuthenticationError(m)` returns `Err(m)`. */
module AuthService {
  import opened Wrappers
  import opened Text
  import Validation

  // ------------------------------------------------------------- entities

  /** An Appwrite account, as `account.get()` and `account.create` return it. */
  datatype Account = Account(id: string, email: string, name: string)

  /** A document of the `users` collection. */
  datatype Profile = Profile(firstName: string, lastName: string, email: string, phone: string,
                             role: Option<string>, permissions: Option<seq<string>>,
                             status: string, emailVerified: bool)

  /** An account with its profile attached, or `None` when the profile could
      not be read. */
  datatype User = User(account: Account, profile: Option<Profile>)

  /** A thrown error: `code` is absent on errors the service raises itself. */
  datatype ErrorInfo = ErrorInfo(code: Option<int>, message: string)

  /** The argument of `register`: a missing string field is `""`, and a
      missing role is `None`. */
  datatype Registration = Registration(email: string, password: string, firstName: string,
                                       lastName: string, phone: string, role: Option<string>)

  // ---------------------------------------------------------------- roles

  const Admin := "admin"
  const Donor := "donor"
  const Volunteer := "volunteer"
  const Viewer := "viewer"

  /** `Object.values(AuthService.ROLES)`. */
  const Roles: seq<string> := [Admin, Donor, Volunteer, Viewer]

  const AdminPermissions: seq<string> := ["admin", "create", "update", "delete", "read"]
  const DonorPermissions: seq<string> := ["donate", "read_own_profile", "update_own_profile"]
  const VolunteerPermissions: seq<string> := ["volunteer", "read_programs", "update_own_profile"]
  const ViewerPermissions: seq<string> := ["read_public"]

  /** `getDefaultPermissions(role)`: the table entry of a known role, the
      viewer's list for any other. */
  function DefaultPermissions(role: string): (perms: seq<string>)
    ensures perms != []
    // the admin token, which bypasses every permission check, only for admins
    ensures "admin" in perms <==> role == Admin
    ensures role !in Roles ==> perms == ViewerPermissions
  {
    if role == Admin then AdminPermissions
    else if role == Donor then DonorPermissions
    else if role == Volunteer then VolunteerPermissions
    else ViewerPermissions
  }

  /** `hasRole(userRole, requiredRole)`; `userRole` is `None` where the
      profile has no role, which never equals a string. */
  predicate HasRole(userRole: Option<string>, requiredRole: string) {
    userRole == Some(requiredRole) || userRole == Some(Admin)
  }

  /** `hasPermission(userPermissions, required)`; `None` stands for any value
      that is not an array. */
  predicate HasPermission(userPermissions: Option<seq<string>>, required: string) {
    userPermissions.Some? && (required in userPermissions.value || "admin" in userPermissions.value)
  }

  /** The admin role passes every role check; any other role passes only its
      own. */
  lemma HasRoleIff(userRole: Option<string>, requiredRole: string)
    ensures userRole == Some(Admin) ==> HasRole(userRole, requiredRole)
    ensures userRole != Some(Admin) ==> (HasRole(userRole, requiredRole) <==> userRole == Some(requiredRole))
    ensures userRole == None ==> !HasRole(userRole, requiredRole)
  {
  }

  /** The bypass rests on the `"admin"` permission token, not on the role: a
      list holding it passes every check, and without it only the listed
      tokens pass. */
  lemma HasPermissionIff(userPermissions: Option<seq<string>>, required: string)
    ensures userPermissions == None ==> !HasPermission(userPermissions, required)
    ensures userPermissions.Some? && "admin" in userPermissions.value ==> HasPermission(userPermissions, required)
    ensures userPermissions.Some? && "admin" !in userPermissions.value ==>
      (HasPermission(userPermissions, required) <==> required in userPermissions.value)
  {
  }

  /** A profile created with the admin role's default permissions passes
      every permission check; the defaults of any other role grant only the
      tokens they list. */
  lemma DefaultPermissionsGrant(role: string, required: string)
    ensures role == Admin ==> HasPermission(Some(DefaultPermissions(role)), required)
    ensures role != Admin ==>
      (HasPermission(Some(DefaultPermissions(role)), required) <==> required in DefaultPermissions(role))
  {
    HasPermissionIff(Some(DefaultPermissions(role)), required);
  }

  // ------------------------------------- static fields read through `this`

  /* `ROLES` and `getDefaultPermissions` are static members of the class,
     while `hasRole`, `validateRegistrationData` and `register` are called on
     the exported instance: there `this.ROLES` is `undefined` and
     `this.getDefaultPermissions` is not a function.  The members named
     `...AsWritten` follow the code as it stands; the error each one raises
     is a `TypeError` whose message is the JavaScript engine's own (the
     wording below is V8's) and is used as an opaque string. */

  const AdminUnreadable := "Cannot read properties of undefined (reading 'ADMIN')"
  const DonorUnreadable := "Cannot read properties of undefined (reading 'DONOR')"
  const RolesNotObject := "Cannot convert undefined or null to object"
  const PermissionsNotFunction := "this.getDefaultPermissions is not a function"

  /** `hasRole(userRole, requiredRole)` as written: a matching role
      short-circuits the `||`; any other role reaches `this.ROLES.ADMIN`,
      which throws.  So it never answers `false`, and an admin passes only
      a check for `"admin"`. */
  function HasRoleAsWritten(userRole: Option<string>, requiredRole: string): (r: Result<bool, string>)
    ensures r == Ok(true) <==> userRole == Some(requiredRole)
    ensures r == Err(AdminUnreadable) <==> userRole != Some(requiredRole)
  {
    if userRole == Some(requiredRole) then Ok(true) else Err(AdminUnreadable)
  }

  /** Where the code answers, it agrees with the intended check; it throws
      exactly where the intended check would look at the admin role or
      answer `false`. */
  lemma HasRoleAsWrittenAgrees(userRole: Option<string>, requiredRole: string)
    ensures HasRoleAsWritten(userRole, requiredRole).Ok? ==> HasRoleAsWritten(userRole, requiredRole).value == HasRole(userRole, requiredRole)
    ensures HasRoleAsWritten(userRole, requiredRole).Err? <==>
      (userRole == Some(Admin) && requiredRole != Admin) || !HasRole(userRole, requiredRole)
  {
  }

  /** An admin checked for the donor role: the intended check passes, the
      code throws. */
  lemma AdminCheckThrows()
    ensures HasRole(Some(Admin), Donor)
    ensures HasRoleAsWritten(Some(Admin), Donor) == Err(AdminUnreadable)
  {
  }

  // --------------------------------------------------------------- errors

  const DuplicateEmail := "An account with this email already exists"
  const InvalidCredentials := "Invalid email or password"
  const WeakPassword := "Password does not meet security requirements"
  const InvalidEmail := "Please enter a valid email address"
  const Unexpected := "An unexpected error occurred"

  /** `parseAppwriteError(error)`. */
  function ParseError(e: ErrorInfo): (msg: string)
    ensures msg != ""
  {
    if e.code == Some(409) then DuplicateEmail
    else if e.code == Some(401) then InvalidCredentials
    else if e.code == Some(400) && Contains(e.message, "password") then WeakPassword
    else if e.code == Some(400) && Contains(e.message, "email") then InvalidEmail
    else if e.message != "" then e.message
    else Unexpected
  }

  /** The message `parseAppwriteError` gives each kind of error. */
  lemma ParseErrorMessages(e: ErrorInfo)
    ensures e.code == Some(409) ==> ParseError(e) == DuplicateEmail
    ensures e.code == Some(401) ==> ParseError(e) == InvalidCredentials
    // for a bad request, a mention of "password" is looked for before one of "email"
    ensures e.code == Some(400) && Contains(e.message, "password") ==> ParseError(e) == WeakPassword
    ensures e.code == Some(400) && !Contains(e.message, "password") && Contains(e.message, "email") ==>
      ParseError(e) == InvalidEmail
    // every other error keeps its own message, or the generic one when it has none
    ensures (e.code == Some(400) ==> !Contains(e.message, "password") && !Contains(e.message, "email")) &&
            e.code != Some(409) && e.code != Some(401) ==>
      ParseError(e) == (if e.message != "" then e.message else Unexpected)
  {
  }

  /** An error the service raises itself carries no code, so once rewrapped
      it keeps its message. */
  lemma ValidationErrorKeepsMessage(message: string)
    requires message != ""
    ensures ParseError(ErrorInfo(None, message)) == message
  {
  }

  /** The message of an error without a code is never one of the messages
      reserved for Appwrite's codes, unless it is that message already. */
  lemma ParseErrorCodes(e: ErrorInfo)
    ensures ParseError(e) == DuplicateEmail ==> e.code == Some(409) || e.message == DuplicateEmail
    ensures ParseError(e) == InvalidCredentials ==> e.code == Some(401) || e.message == InvalidCredentials
  {
  }

  // -------------------------------------------------- registration checks

  const RequiredFields := "All required fields must be filled"
  const PasswordTooShort := "Password must be at least 8 characters long"
  const PasswordComposition :=
    "Password must contain at least one uppercase letter, one lowercase letter, and one number"
  const FirstNameTooShort := "First name must be at least 2 characters long"
  const LastNameTooShort := "Last name must be at least 2 characters long"
  const InvalidRole := "Invalid role specified"

  /** No line terminator lies in `s[from..to]`: `.*` can cross that stretch. */
  predicate OnOneLine(s: string, from: int, to: int) {
    forall k | from <= k < to && 0 <= k < |s| :: !IsLineTerminator(s[k])
  }

  /** The three character classes the password pattern looks ahead for. */
  datatype CharClass = LowerCase | UpperCase | Digit

  predicate InClass(c: char, k: CharClass) {
    match k
    case LowerCase => IsLower(c)
    case UpperCase => IsUpper(c)
    case Digit => IsDigit(c)
  }

  predicate HasClass(s: string, k: CharClass) {
    exists j | 0 <= j < |s| :: InClass(s[j], k)
  }

  /** The lookahead `(?=.*[a-z])` tried at position `p`, and likewise for the
      other two classes: `.*` may pass over any character but a line
      terminator before the class matches. */
  predicate Ahead(s: string, p: nat, k: CharClass)
    decreases |s| - p
  {
    p < |s| && (InClass(s[p], k) || (!IsLineTerminator(s[p]) && Ahead(s, p + 1, k)))
  }

  /** The three lookaheads tried at `p`, then at each later position, as an
      unanchored `test` does. */
  predicate CompositionFrom(s: string, p: nat)
    decreases |s| - p
  {
    || (Ahead(s, p, LowerCase) && Ahead(s, p, UpperCase) && Ahead(s, p, Digit))
    || (p < |s| && CompositionFrom(s, p + 1))
  }

  /** `/(?=.*[a-z])(?=.*[A-Z])(?=.*\d)/.test(s)`. */
  predicate Composition(s: string) { CompositionFrom(s, 0) }

  /** The lookahead succeeds exactly when a character of the class follows
      on the same line. */
  lemma {:induction false} AheadIff(s: string, p: nat, k: CharClass)
    ensures Ahead(s, p, k) <==> exists j | p <= j < |s| :: InClass(s[j], k) && OnOneLine(s, p, j)
    decreases |s| - p
  {
    if p < |s| {
      AheadIff(s, p + 1, k);
      if Ahead(s, p, k) && !InClass(s[p], k) {
        var j :| p + 1 <= j < |s| && InClass(s[j], k) && OnOneLine(s, p + 1, j);
        assert OnOneLine(s, p, j);
      }
      if j :| p <= j < |s| && InClass(s[j], k) && OnOneLine(s, p, j) {
        if j > p {
          assert !IsLineTerminator(s[p]) && OnOneLine(s, p + 1, j);
        }
      }
    }
  }

  /** The pattern matches exactly when, from some position, all three
      lookaheads succeed. */
  lemma {:induction false} CompositionFromIff(s: string, p: nat)
    requires p <= |s|
    ensures CompositionFrom(s, p) ==>
      exists q: nat | p <= q <= |s| :: Ahead(s, q, LowerCase) && Ahead(s, q, UpperCase) && Ahead(s, q, Digit)
    ensures (exists q: nat | p <= q <= |s| :: Ahead(s, q, LowerCase) && Ahead(s, q, UpperCase) && Ahead(s, q, Digit)) ==> CompositionFrom(s, p)
    decreases |s| - p
  {
    if p < |s| {
      CompositionFromIff(s, p + 1);
      if q: nat :| p <= q <= |s| && Ahead(s, q, LowerCase) && Ahead(s, q, UpperCase) && Ahead(s, q, Digit) {
        if q > p {
          assert CompositionFrom(s, p + 1);
        }
      }
    }
    if Ahead(s, p, LowerCase) && Ahead(s, p, UpperCase) && Ahead(s, p, Digit) {
      assert p <= p <= |s|;
    }
  }

  /** On a one-line password the combined lookahead is the three separate
      character tests. */
  lemma CompositionOneLine(s: string)
    requires OnOneLine(s, 0, |s|)
    ensures Composition(s) <==> HasLower(s) && HasUpper(s) && HasDigit(s)
  {
    ClassesIff(s);
    if HasClass(s, LowerCase) && HasClass(s, UpperCase) && HasClass(s, Digit) {
      OneLineAhead(s, LowerCase);
      OneLineAhead(s, UpperCase);
      OneLineAhead(s, Digit);
    }
    if Composition(s) {
      CompositionHasClasses(s);
    }
  }

  lemma ClassesIff(s: string)
    ensures HasClass(s, LowerCase) <==> HasLower(s)
    ensures HasClass(s, UpperCase) <==> HasUpper(s)
    ensures HasClass(s, Digit) <==> HasDigit(s)
  {
    if HasLower(s) { var j :| 0 <= j < |s| && IsLower(s[j]); assert InClass(s[j], LowerCase); }
    if HasUpper(s) { var j :| 0 <= j < |s| && IsUpper(s[j]); assert InClass(s[j], UpperCase); }
    if HasDigit(s) { var j :| 0 <= j < |s| && IsDigit(s[j]); assert InClass(s[j], Digit); }
  }

  lemma OneLineAhead(s: string, k: CharClass)
    requires OnOneLine(s, 0, |s|) && HasClass(s, k)
    ensures Ahead(s, 0, k)
  {
    var j :| 0 <= j < |s| && InClass(s[j], k);
    assert OnOneLine(s, 0, j);
    AheadIff(s, 0, k);
  }

  /** Whatever the lines, the combined lookahead needs each class somewhere. */
  lemma CompositionHasClasses(s: string)
    requires Composition(s)
    ensures HasLower(s) && HasUpper(s) && HasDigit(s)
  {
    CompositionFromIff(s, 0);
    var q: nat :| q <= |s| && Ahead(s, q, LowerCase) && Ahead(s, q, UpperCase) && Ahead(s, q, Digit);
    AheadIff(s, q, LowerCase);
    AheadIff(s, q, UpperCase);
    AheadIff(s, q, Digit);
    ClassesIff(s);
  }

  /** A line terminator with no uppercase letter before it and no lowercase
      letter after it defeats the combined lookahead: from any position the
      uppercase letters lie across the line break, or no lowercase letter is
      left. */
  lemma CompositionSplitLines(s: string, m: nat)
    requires m < |s| && IsLineTerminator(s[m])
    requires forall j | 0 <= j < m :: !IsUpper(s[j])
    requires forall j | m < j < |s| :: !IsLower(s[j])
    ensures !Composition(s)
  {
    CompositionFromIff(s, 0);
    forall q: nat | q <= |s| ensures !(Ahead(s, q, LowerCase) && Ahead(s, q, UpperCase)) {
      AheadIff(s, q, LowerCase);
      AheadIff(s, q, UpperCase);
      if q <= m {
        forall j | q <= j < |s| && InClass(s[j], UpperCase) ensures !OnOneLine(s, q, j) {
          assert j > m && !(!IsLineTerminator(s[m]));
        }
      }
    }
  }

  /** A password whose classes sit on different lines has each class but
      fails the combined lookahead. */
  lemma CompositionNeedsOneLine()
    ensures var s := "a\nA1"; HasLower(s) && HasUpper(s) && HasDigit(s) && !Composition(s)
  {
    var s := "a\nA1";
    assert IsLower(s[0]) && IsUpper(s[2]) && IsDigit(s[3]);
    CompositionSplitLines(s, 1);
  }

  /** `role && !Object.values(ROLES).includes(role)`: an absent or empty role
      is not looked at. */
  predicate RoleRejected(role: Option<string>) {
    role.Some? && role.value != "" && role.value !in Roles
  }

  /** `validateRegistrationData(userData)`: `Err` carries the message of the
      first check that fails. */
  function ValidateRegistration(d: Registration): (r: Result<(), string>)
    ensures r.Ok? <==>
      && d.email != "" && d.password != "" && d.firstName != "" && d.lastName != ""
      && Validation.EmailShape(d.email)
      && |d.password| >= 8 && Composition(d.password)
      && |Trim(d.firstName)| >= 2 && |Trim(d.lastName)| >= 2
      && !RoleRejected(d.role)
  {
    if d.email == "" || d.password == "" || d.firstName == "" || d.lastName == "" then Err(RequiredFields)
    else if !Validation.EmailShape(d.email) then Err(InvalidEmail)
    else if |d.password| < 8 then Err(PasswordTooShort)
    else if !Composition(d.password) then Err(PasswordComposition)
    else if |Trim(d.firstName)| < 2 then Err(FirstNameTooShort)
    else if |Trim(d.lastName)| < 2 then Err(LastNameTooShort)
    else if RoleRejected(d.role) then Err(InvalidRole)
    else Ok(())
  }

  /** The message of the first check that fails. */
  lemma ValidateRegistrationMessages(d: Registration)
    ensures ValidateRegistration(d) == Err(RequiredFields) <==>
      d.email == "" || d.password == "" || d.firstName == "" || d.lastName == ""
    ensures ValidateRegistration(d) == Err(InvalidEmail) <==>
      d.email != "" && d.password != "" && d.firstName != "" && d.lastName != ""
      && !Validation.EmailShape(d.email)
    ensures ValidateRegistration(d) == Err(PasswordTooShort) <==>
      d.email != "" && d.password != "" && d.firstName != "" && d.lastName != ""
      && Validation.EmailShape(d.email) && |d.password| < 8
    ensures ValidateRegistration(d) == Err(PasswordComposition) <==>
      d.email != "" && d.password != "" && d.firstName != "" && d.lastName != ""
      && Validation.EmailShape(d.email) && |d.password| >= 8 && !Composition(d.password)
    ensures ValidateRegistration(d) == Err(FirstNameTooShort) <==>
      d.email != "" && d.password != "" && d.firstName != "" && d.lastName != ""
      && Validation.EmailShape(d.email) && |d.password| >= 8 && Composition(d.password)
      && |Trim(d.firstName)| < 2
    ensures ValidateRegistration(d) == Err(LastNameTooShort) <==>
      d.email != "" && d.password != "" && d.firstName != "" && d.lastName != ""
      && Validation.EmailShape(d.email) && |d.password| >= 8 && Composition(d.password)
      && |Trim(d.firstName)| >= 2 && |Trim(d.lastName)| < 2
    ensures ValidateRegistration(d) == Err(InvalidRole) <==>
      d.email != "" && d.password != "" && d.firstName != "" && d.lastName != ""
      && Validation.EmailShape(d.email) && |d.password| >= 8 && Composition(d.password)
      && |Trim(d.firstName)| >= 2 && |Trim(d.lastName)| >= 2 && RoleRejected(d.role)
  {
  }

  /** `validateRegistrationData(userData)` as written: the first six checks
      are those of `ValidateRegistration`, and the role check throws for any
      non-empty role at `Object.values(this.ROLES)`, before it can compare. */
  function ValidateRegistrationAsWritten(d: Registration): (r: Result<(), string>)
    ensures r.Ok? <==> ValidateRegistration(d).Ok? && (d.role.None? || d.role.value == "")
    ensures r == Err(RolesNotObject) <==>
      (ValidateRegistration(d).Ok? || ValidateRegistration(d) == Err(InvalidRole)) && d.role.Some? && d.role.value != ""
    ensures r.Err? && r.error != RolesNotObject ==> r == ValidateRegistration(d)
  {
    var check := ValidateRegistration(d);
    if check.Err? && check.error != InvalidRole then check
    else if d.role.Some? && d.role.value != "" then Err(RolesNotObject)
    else Ok(())
  }

  // ----------------------------------------------------------- operations

  const LoginRequired := "Email and password are required"
  const EmailRequired := "Email is required"
  const PasswordsDiffer := "Passwords do not match"
  const ProfileNotCreated := "Failed to create user profile"
  const LogoutFailed := "Failed to logout"
  const ResetSent := "Password reset email sent successfully"
  const PasswordUpdated := "Password updated successfully"

  /** The answer of `register`; `needsVerification` is always true. */
  datatype Registered = Registered(account: Account, session: string)

  /** The answer of `login`. */
  datatype LoggedIn = LoggedIn(account: Account, session: string, profile: Option<Profile>)

  /** The role a new profile is stored with: `role = "donor"` as a default
      of the destructuring, which replaces only a missing role. */
  function RegisteredRole(role: Option<string>): (r: string)
    ensures role == None ==> r == Donor
    ensures role.Some? ==> r == role.value
  {
    if role.Some? then role.value else Donor
  }

  /** The document `register` writes to the `users` collection (the two
      timestamps left out). */
  function NewProfile(d: Registration): (p: Profile)
    ensures p.role == Some(RegisteredRole(d.role))
    ensures p.permissions == Some(DefaultPermissions(RegisteredRole(d.role)))
    ensures p.status == "active" && !p.emailVerified
    ensures (p.firstName, p.lastName, p.email, p.phone) == (d.firstName, d.lastName, d.email, d.phone)
  {
    var role := RegisteredRole(d.role);
    Profile(d.firstName, d.lastName, d.email, d.phone, Some(role), Some(DefaultPermissions(role)), "active", false)
  }

  /** A registration without a role gets the donor's permissions, and an
      empty role, which the checks let through, gets the viewer's. */
  lemma NewProfileRoleDefaults(d: Registration)
    ensures d.role == None ==> NewProfile(d).permissions == Some(DonorPermissions)
    ensures d.role == Some("") ==> NewProfile(d).permissions == Some(ViewerPermissions)
    ensures ValidateRegistration(d).Ok? ==> RegisteredRole(d.role) == "" || RegisteredRole(d.role) in Roles
  {
  }

  /** `register(userData)`, given the outcomes of `account.create`,
      `account.createEmailSession` and `createUserProfile`.  The outcome of
      `createVerification` is not a parameter: its failure is swallowed. */
  function Register(d: Registration, created: Result<Account, ErrorInfo>, session: Result<string, ErrorInfo>,
                    profileStored: bool): (r: Result<Registered, string>)
    // a rejected registration never depends on the backend
    ensures ValidateRegistration(d).Err? ==> r == Err(ValidateRegistration(d).error)
    ensures r.Ok? <==> ValidateRegistration(d).Ok? && created.Ok? && session.Ok? && profileStored
    ensures r.Ok? ==> r.value == Registered(created.value, session.value)
  {
    var check := ValidateRegistration(d);
    if check.Err? then
      ValidationErrorKeepsMessage(check.error);
      Err(ParseError(ErrorInfo(None, check.error)))
    else if created.Err? then Err(ParseError(created.error))
    else if session.Err? then Err(ParseError(session.error))
    else if !profileStored then
      ValidationErrorKeepsMessage(ProfileNotCreated);
      Err(ParseError(ErrorInfo(None, ProfileNotCreated)))
    else Ok(Registered(created.value, session.value))
  }

  /** Which failure `register` reports: the first step that fails. */
  lemma RegisterFailures(d: Registration, created: Result<Account, ErrorInfo>, session: Result<string, ErrorInfo>,
                         profileStored: bool)
    ensures var r := Register(d, created, session, profileStored);
      && (ValidateRegistration(d).Ok? && created.Err? ==> r == Err(ParseError(created.error)))
      && (ValidateRegistration(d).Ok? && created.Ok? && session.Err? ==> r == Err(ParseError(session.error)))
      && (ValidateRegistration(d).Ok? && created.Ok? && session.Ok? && !profileStored ==> r == Err(ProfileNotCreated))
  {
  }

  /** `register(userData)` as written.  A missing role makes the default
      `this.ROLES.DONOR` throw while destructuring, outside the `try`, so its
      message is not passed through `parseAppwriteError`.  A non-empty role
      makes the checks throw.  An empty role passes them, and the account
      and the session are created, but building the profile throws at
      `this.getDefaultPermissions`, so no profile is written. */
  function RegisterAsWritten(d: Registration, created: Result<Account, ErrorInfo>,
                             session: Result<string, ErrorInfo>): (r: Result<Registered, string>)
    // no registration ever succeeds
    ensures r.Err?
    ensures d.role.None? ==> r == Err(DonorUnreadable)
    // a payload the intended checks accept, with a role, never reaches the backend
    ensures d.role.Some? && d.role.value != "" && ValidateRegistration(d).Ok? ==> r == Err(RolesNotObject)
    ensures d.role == Some("") && ValidateRegistration(d).Ok? && created.Ok? && session.Ok? ==>
      r == Err(PermissionsNotFunction)
    // where the intended checks refuse the payload for its fields, the message is the same
    ensures d.role.Some? && ValidateRegistration(d).Err? && ValidateRegistration(d).error != InvalidRole ==>
      r == Register(d, created, session, true)
  {
    if d.role.None? then Err(DonorUnreadable)
    else
      var check := ValidateRegistrationAsWritten(d);
      if check.Err? then
        ValidationErrorKeepsMessage(check.error);
        Err(ParseError(ErrorInfo(None, check.error)))
      else if created.Err? then Err(ParseError(created.error))
      else if session.Err? then Err(ParseError(session.error))
      else
        ValidationErrorKeepsMessage(PermissionsNotFunction);
        Err(ParseError(ErrorInfo(None, PermissionsNotFunction)))
  }

  /** A registration without a role: the intended service stores a donor
      and succeeds, the code throws before it validates anything. */
  lemma MissingRoleThrows(d: Registration, created: Result<Account, ErrorInfo>, session: Result<string, ErrorInfo>)
    requires d.role.None? && ValidateRegistration(d).Ok? && created.Ok? && session.Ok?
    ensures NewProfile(d).role == Some(Donor) && Register(d, created, session, true).Ok?
    ensures RegisterAsWritten(d, created, session) == Err(DonorUnreadable)
  {
  }

  /** A registration with an empty role: the intended service stores a
      viewer profile and succeeds; the code creates the account and the
      session, then throws before any profile is written. */
  lemma EmptyRoleLeavesNoProfile(d: Registration, created: Result<Account, ErrorInfo>,
                                 session: Result<string, ErrorInfo>)
    requires d.role == Some("") && ValidateRegistration(d).Ok? && created.Ok? && session.Ok?
    ensures NewProfile(d).permissions == Some(ViewerPermissions) && Register(d, created, session, true).Ok?
    ensures RegisterAsWritten(d, created, session) == Err(PermissionsNotFunction)
  {
  }

  /** `login(email, password)`, given the outcomes of
      `account.createEmailSession`, `account.get` and `getUserProfile` (which
      yields `null` on any failure). */
  function Login(email: string, password: string, session: Result<string, ErrorInfo>,
                 current: Result<Account, ErrorInfo>, profile: Option<Profile>): (r: Result<LoggedIn, string>)
    // the local check comes before any remote call
    ensures email == "" || password == "" ==> r == Err(LoginRequired)
    ensures r.Ok? <==> email != "" && password != "" && session.Ok? && current.Ok?
    ensures r.Ok? ==> r.value == LoggedIn(current.value, session.value, profile)
    ensures email != "" && password != "" && session.Err? ==> r == Err(ParseError(session.error))
    ensures email != "" && password != "" && session.Ok? && current.Err? ==> r == Err(ParseError(current.error))
  {
    if email == "" || password == "" then
      ValidationErrorKeepsMessage(LoginRequired);
      Err(ParseError(ErrorInfo(None, LoginRequired)))
    else if session.Err? then Err(ParseError(session.error))
    else if current.Err? then Err(ParseError(current.error))
    else Ok(LoggedIn(current.value, session.value, profile))
  }

  /** `logout()`, given whether `deleteSession("current")` succeeded. */
  function Logout(deleted: bool): (r: Result<(), string>)
    ensures r.Ok? <==> deleted
    ensures !deleted ==> r == Err(LogoutFailed)
  {
    if deleted then Ok(()) else Err(LogoutFailed)
  }

  /** `getCurrentUser()`: `None` when `account.get` fails; a profile that
      cannot be read is attached as `None`. */
  function CurrentUser(current: Result<Account, ErrorInfo>, profile: Option<Profile>): (u: Option<User>)
    ensures u.Some? <==> current.Ok?
    ensures u.Some? ==> u.value.account == current.value && u.value.profile == profile
  {
    if current.Ok? then Some(User(current.value, profile)) else None
  }

  /** `resetPassword(email)`, given the outcome of `account.createRecovery`. */
  function ResetPassword(email: string, recovery: Result<(), ErrorInfo>): (r: Result<string, string>)
    ensures email == "" ==> r == Err(EmailRequired)
    ensures r.Ok? <==> email != "" && recovery.Ok?
    ensures r.Ok? ==> r.value == ResetSent
    ensures email != "" && recovery.Err? ==> r == Err(ParseError(recovery.error))
  {
    if email == "" then
      ValidationErrorKeepsMessage(EmailRequired);
      Err(ParseError(ErrorInfo(None, EmailRequired)))
    else if recovery.Err? then Err(ParseError(recovery.error))
    else Ok(ResetSent)
  }

  /** `updatePassword(userId, secret, newPassword, confirmPassword)`, given
      the outcome of `account.updateRecovery`. */
  function UpdatePassword(newPassword: string, confirmPassword: string, recovery: Result<(), ErrorInfo>)
    : (r: Result<string, string>)
    // a mismatch is reported before the length, and both before the remote call
    ensures newPassword != confirmPassword ==> r == Err(PasswordsDiffer)
    ensures newPassword == confirmPassword && |newPassword| < 8 ==> r == Err(PasswordTooShort)
    ensures r.Ok? <==> newPassword == confirmPassword && |newPassword| >= 8 && recovery.Ok?
    ensures r.Ok? ==> r.value == PasswordUpdated
    ensures newPassword == confirmPassword && |newPassword| >= 8 && recovery.Err? ==>
      r == Err(ParseError(recovery.error))
  {
    if newPassword != confirmPassword then
      ValidationErrorKeepsMessage(PasswordsDiffer);
      Err(ParseError(ErrorInfo(None, PasswordsDiffer)))
    else if |newPassword| < 8 then
      ValidationErrorKeepsMessage(PasswordTooShort);
      Err(ParseError(ErrorInfo(None, PasswordTooShort)))
    else if recovery.Err? then Err(ParseError(recovery.error))
    else Ok(PasswordUpdated)
  }
}
