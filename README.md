# Client-side authentication and authorization of CVWF

This project models, in Dafny, the browser-side access control of the CVWF
charity site. It covers:

- the input validators and the sanitizer of `src/utils/validation.js`;
- its in-memory login rate limiter;
- the account service of `src/services/authService.js`: registration checks,
  error translation, roles and permissions, sign-in, sign-out, the current
  user and the password-recovery calls;
- the authentication context of `src/hooks/useAuth.js`;
- the route guards `ProtectedRoute`, `RoleGuard`, `RedirectIfAuthenticated`
  and `RoleDashboard`;
- the three authentication pages: sign-in, sign-up and password reset.

The modules follow the source files:

- `Text` holds the character classes, `trim` and `toLowerCase` they share.
- `Views` holds the outcome of rendering a guard.
- `PasswordStrength` holds the strength meter, which the sign-up and reset
  pages define with the same body.

Pure code is modelled as functions and lemmas. Code that changes state in
place is modelled as classes, one per component:

- `AuthContext.AuthProvider` holds `user`, `loading` and `error`;
- `RateLimit.RateLimiter` holds the attempts map;
- `LoginPage.LoginForm`, `SignupPage.SignupForm` and
  `ResetPasswordPage.ResetPasswordForm` hold each page's React state.

Every remote call to the Appwrite backend is a parameter of the operation
that makes it: the call's success or failure, with the error's code and
message. The clock is a parameter too (`now`). A rethrown error is an `Err`
carrying the message that `parseAppwriteError` produced.

Some behaviours of the code are easy to miss; the model follows the code in
each of them:

- `logout` keeps the user when the remote session cannot be deleted. It only
  records "Failed to logout" (src/hooks/useAuth.js:70-80).
- The permission bypass of `hasPermission` rests on the literal permission
  `"admin"` in the user's list, not on the admin role. Only the admin
  role's default permissions contain that token.
- The service's password rule `(?=.*[a-z])(?=.*[A-Z])(?=.*\d)` uses `.`,
  which does not match a line terminator. All three classes must therefore
  appear after one position and on one line. The form's validators test
  the whole string, so a password with a line break can pass the form and
  still fail the service (`SignupPage.AcceptedFormRefusedAcrossLines`).

Three members of `AuthService` reach static members of the class through
`this`, while every caller uses the exported instance
(src/services/authService.js:302). There `this.ROLES` is `undefined` and
`this.getDefaultPermissions` is not a function, so:

- `hasRole` throws for every role other than the one required
  (src/services/authService.js:297). A guard's role check throws during the
  render unless the profile holds exactly the role consulted, and an admin
  passes only a check for "admin".
- `register` never succeeds. A missing role throws while its default is
  computed (line 61). Any non-empty role throws in the role check (line
  262). An empty role throws while the profile is built (line 87), after
  the account and the session were created.

These are modelled as written (`AuthService.HasRoleAsWritten`,
`AuthService.RegisterAsWritten`, and the guards' `RenderAsWritten`) and listed
under "## Findings". The rest of the model uses the behaviour the code
evidently intends. That includes the pages and `AuthContext.AuthProvider.Register`.
`hasRole` passes the required role and the admin role and refuses every
other role. `register` checks the role against the four known roles and
stores the role's default permissions.

## Model

| member | source | states |
|---|---|---|
| Text.Trim | src/utils/validation.js:40-45 | `trim()`: the result is a slice of the input that starts and ends with non-whitespace, and only whitespace lies outside it |
| Text.TrimIdempotent | src/utils/validation.js:40-45 | trimming twice gives the same result as trimming once |
| Text.TrimEmptyIff | src/utils/validation.js:40-45 | a string trims to empty exactly when it is all whitespace |
| Text.TrimNoWhitespace | src/utils/validation.js:40-45 | a string without whitespace is its own trim |
| Text.ToLower | src/pages/auth/Signup.jsx:103 | `toLowerCase()`: same length, each character lowered, no uppercase letter left |
| Validation.Email | src/utils/validation.js:6-12 | the email message is empty exactly when the address is non-empty, matches `^[^\s@]+@[^\s@]+\.[^\s@]+$` and has at most 255 characters |
| Validation.EmailMessages | src/utils/validation.js:6-12 | which of "required", "invalid" and "too long" is reported, in the source's order |
| Validation.EmailShapeFacts | src/utils/validation.js:8 | an address of the accepted shape has at least 5 characters, no whitespace and a single `@` |
| Validation.NormalizedEmailAccepted | src/pages/auth/Signup.jsx:103 | an accepted address is unchanged by trimming, and stays non-empty and of the accepted shape after lower-casing |
| Validation.Password | src/utils/validation.js:15-28 | the message is empty exactly when the length is 8 to 128 and the password holds a lowercase letter, an uppercase letter and a digit |
| Validation.PasswordMessages | src/utils/validation.js:15-28 | each of the six messages is reported exactly under its own condition, checked in the source's order |
| Validation.ConfirmPassword | src/utils/validation.js:31-35 | the message is empty exactly when the confirmation is non-empty and equal to the password |
| Validation.ConfirmPasswordMessages | src/utils/validation.js:31-35 | an empty confirmation is reported as missing; a non-empty one that differs is reported as a mismatch |
| Validation.Name | src/utils/validation.js:38-48 | the message is empty exactly when the trimmed name has 2 to 50 characters, all of them letters, spaces, apostrophes or hyphens |
| Validation.NameMessages | src/utils/validation.js:38-48 | "required" exactly for an empty name; "at least 2" exactly for a non-empty name trimming to fewer than 2 characters; "less than 50" exactly above 50; "invalid characters" exactly for a 2 to 50 character trimmed name holding another character |
| Validation.PlainNameAccepted | src/utils/validation.js:38-48 | a 2 to 50 character name of name characters without whitespace is accepted unchanged |
| Validation.WhitespaceNameTooShort | src/utils/validation.js:38-48 | a non-empty all-whitespace name passes the required check but is reported too short |
| Validation.Phone | src/utils/validation.js:51-56 | the message is empty exactly when the phone is empty or matches `^[\+]?[1-9][\d\s\-\(\)]{7,15}$` |
| Validation.PhoneMessages | src/utils/validation.js:51-56 | the only message is "invalid"; an accepted non-empty phone has 8 to 17 characters |
| Validation.Role | src/utils/validation.js:59-63 | the message is empty exactly when the role is non-empty and among the allowed roles |
| Validation.RoleMessages | src/utils/validation.js:59-63 | an empty role is "required"; an unknown one is "invalid" |
| Validation.ReplaceAllAbsent | src/utils/validation.js:141-146 | a replacement whose target does not occur changes nothing |
| Validation.ReplaceAllAppend | src/utils/validation.js:141-146 | a global replacement distributes over concatenation |
| Validation.SanitizeAppend | src/utils/validation.js:139-147 | sanitizing distributes over concatenation |
| Validation.SanitizeChar | src/utils/validation.js:141-146 | the chain of five replacements maps one character to its entity, or leaves it |
| Validation.SanitizeIsEscape | src/utils/validation.js:139-147 | the five chained replacements equal a character-wise escape |
| Validation.Escape | src/utils/validation.js:139-147 | the escape leaves no special character and keeps strings that have none |
| Validation.SanitizeRemovesSpecials | src/utils/validation.js:139-147 | a sanitized string holds none of `<>"'/`, and a string without them is unchanged |
| Validation.SanitizeIdempotent | src/utils/validation.js:139-147 | sanitizing twice gives the same result as sanitizing once |
| Validation.SanitizeNotInjective | src/utils/validation.js:139-147 | `<` and `&lt;` sanitize alike, so the original cannot be recovered |
| Validation.Unescape | src/utils/validation.js:139-147 | the decoding of the five entities the sanitizer writes keeps text without `&` |
| Validation.UnescapeEscape | src/utils/validation.js:139-147 | decoding undoes the character-wise escape on text without `&`, by induction |
| Validation.SanitizeRoundTrip | src/utils/validation.js:139-147 | sanitized text without `&` decodes back to the text as typed |
| Validation.ClearedField | src/pages/auth/Login.jsx:33-35 | the keys are unchanged; the typed field's message becomes empty; every other message stays |
| Validation.SanitizeInput | src/utils/validation.js:139-147 | a non-string passes through; a string is escaped |
| RateLimit.Recent | src/utils/validation.js:158-160 | the kept attempts are no more than the stored ones, and all are inside the window |
| RateLimit.RecentMembers | src/utils/validation.js:158-160 | an attempt is kept exactly when it was stored and is inside the window |
| RateLimit.RecentKeepsAll | src/utils/validation.js:158-160 | while every attempt is inside the window nothing is dropped |
| RateLimit.RecentNoneLeft | src/utils/validation.js:158-160 | once every attempt is outside the window nothing is kept |
| RateLimit.RecentSorted | src/utils/validation.js:158-160 | filtering keeps time order |
| RateLimit.StepSpec | src/utils/validation.js:150-174 | a check is refused exactly when the window holds `maxAttempts` attempts; a refusal stores nothing and reports the first kept time plus the window; an acceptance stores the kept attempts plus `now` and reports the attempts left; no other identifier is touched |
| RateLimit.RateLimiter.Check | src/utils/validation.js:153-173 | the limiter's map and answer after one call are those of `Step` on the old map |
| RateLimit.StepKeepsOrder | src/utils/validation.js:158-172 | calls in time order keep each list sorted, and a reported reset time is no later than any kept attempt's expiry |
| RateLimit.WindowExpires | src/utils/validation.js:158-172 | once every stored attempt has left the window the next call is allowed with `maxAttempts - 1` left, and restarts the list |
| RateLimit.StepWithinWindow | src/utils/validation.js:158-172 | one call among attempts that all fall inside one window: the decision follows the count of earlier attempts |
| RateLimit.FilledCons | src/utils/validation.js:158-172 | decisions made one after another compose into the outcome of the whole run |
| RateLimit.FillCons | src/utils/validation.js:158-172 | the first call of a run and the run of the rest give the outcome of the whole run |
| RateLimit.FillWithinWindow | src/utils/validation.js:150-174 | over calls that all fall inside one window, the k-th call is allowed exactly when fewer than `maxAttempts` were allowed before it, and every refusal names the first attempt's expiry |
| RateLimit.FirstAttemptsThenBlocked | src/utils/validation.js:150-174 | for a fresh identifier the first `maxAttempts` calls in one window are allowed with a falling count, and the next is refused with the first call's time plus the window as its reset time |
| RateLimit.StepKeepsBound | src/utils/validation.js:158-172 | no call leaves more than `maxAttempts` attempts kept |
| RateLimit.AllowedAfterReset | src/utils/validation.js:158-172 | once the oldest kept attempt is a window old, the next call is allowed |
| RateLimit.BlockedBeforeReset | src/utils/validation.js:158-172 | while the oldest of `maxAttempts` sorted kept attempts is inside the window, every call is refused with that attempt's time plus the window as its reset time |
| AuthService.DefaultPermissions | src/services/authService.js:40-52 | every role gets a non-empty list; only the admin role's list holds the `"admin"` token; unknown roles get the viewer's list |
| AuthService.HasRoleIff | src/services/authService.js:296-298 | the admin role passes every role check; any other role passes only its own; no role passes none |
| AuthService.HasRoleAsWritten | src/services/authService.js:296-298 | as written: true exactly when the profile's role is the required one; every other role, admin included, throws at `this.ROLES.ADMIN`; never false |
| AuthService.HasRoleAsWrittenAgrees | src/services/authService.js:296-298 | where the code answers it agrees with the intended check; it throws exactly for an admin checked for another role, or where the intended check refuses |
| AuthService.AdminCheckThrows | src/services/authService.js:297 | an admin checked for "donor": the intended check passes and the code throws |
| AuthService.HasPermissionIff | src/services/authService.js:287-293 | a non-array never passes; the `"admin"` token passes every check; otherwise the permission must be listed |
| AuthService.DefaultPermissionsGrant | src/services/authService.js:40-52 | default admin permissions pass every check; other roles pass exactly their listed permissions |
| AuthService.ParseError | src/services/authService.js:268-284 | the translated message is never empty |
| AuthService.ParseErrorMessages | src/services/authService.js:268-284 | codes 409 and 401 and the "password" and "email" mentions of a 400 map to their messages, in that order; any other error keeps its own message or the generic one |
| AuthService.ValidationErrorKeepsMessage | src/services/authService.js:268-284 | a code-less error raised by the service itself keeps its message |
| AuthService.ParseErrorCodes | src/services/authService.js:268-284 | the duplicate-email and bad-credentials messages come only from their codes, or from an error that already carried them |
| AuthService.AheadIff | src/services/authService.js:244 | the lookahead `(?=.*[a-z])` at a position succeeds exactly when a character of the class follows on the same line |
| AuthService.CompositionFromIff | src/services/authService.js:244 | the unanchored pattern matches from a position exactly when some later position has all three lookaheads |
| AuthService.ClassesIff | src/services/authService.js:244 | the per-class scans agree with the validators' character-class checks |
| AuthService.OneLineAhead | src/services/authService.js:244 | in a string without line terminators, any occurrence of a class satisfies the lookahead at the start |
| AuthService.CompositionHasClasses | src/services/authService.js:244 | a password the pattern accepts holds a lowercase letter, an uppercase letter and a digit |
| AuthService.CompositionOneLine | src/services/authService.js:244 | without line terminators the pattern accepts exactly the passwords that hold all three classes |
| AuthService.CompositionSplitLines | src/services/authService.js:244 | a line break with no uppercase before it and no lowercase after it defeats the pattern |
| AuthService.CompositionNeedsOneLine | src/services/authService.js:244 | `"a\nA1"` holds all three classes and is still refused |
| AuthService.ValidateRegistration | src/services/authService.js:226-265 | registration data passes exactly when the four required fields are present, the email has the accepted shape, the password has 8 or more characters and matches the pattern, both trimmed names have 2 or more characters, and any role given is a known one |
| AuthService.ValidateRegistrationMessages | src/services/authService.js:226-265 | each of the seven messages is reported exactly when the checks before it pass and its own fails |
| AuthService.ValidateRegistrationAsWritten | src/services/authService.js:226-265 | as written: passes exactly when the intended checks pass and the role is absent or empty; a non-empty role that passes the field checks throws at `Object.values(this.ROLES)`; any other failure is the intended message |
| AuthService.RegisteredRole | src/services/authService.js:61 | a missing role defaults to "donor"; a given one, even `""`, is kept |
| AuthService.NewProfile | src/services/authService.js:80-92 | the stored profile copies the four fields, takes the role and its default permissions, and is "active" and unverified |
| AuthService.NewProfileRoleDefaults | src/services/authService.js:61-92 | a missing role gets donor permissions, an empty role viewer permissions, and a valid registration stores a known or empty role |
| AuthService.Register | src/services/authService.js:55-108 | a rejected registration never reaches the backend; registration succeeds exactly when validation, account creation, session creation and profile storage all succeed, and returns the new account and session |
| AuthService.RegisterFailures | src/services/authService.js:65-107 | a failed account or session creation reports its translated error; a failed profile write reports "Failed to create user profile" |
| AuthService.RegisterAsWritten | src/services/authService.js:55-108 | as written: never succeeds. A missing role fails with the raw error of its default. A non-empty role that passes the field checks fails before any remote call. An empty role fails after account and session creation. Field errors are the intended ones |
| AuthService.MissingRoleThrows | src/services/authService.js:61 | a valid registration without a role: the intended service stores a donor and succeeds, and the code throws |
| AuthService.EmptyRoleLeavesNoProfile | src/services/authService.js:87 | a valid registration with role `""`: the intended service stores viewer permissions and succeeds; the code creates account and session and then fails |
| AuthService.Login | src/services/authService.js:111-128 | an empty field fails before any remote call; sign-in succeeds exactly when session and account calls succeed, returning account, session and profile; each failure reports its translated error |
| AuthService.Logout | src/services/authService.js:131-137 | sign-out succeeds exactly when the session is deleted, else reports "Failed to logout" |
| AuthService.CurrentUser | src/services/authService.js:140-148 | there is a user exactly when the account call succeeds, with whatever profile could be read |
| AuthService.ResetPassword | src/services/authService.js:151-169 | an empty address is refused before the remote call; the reset succeeds exactly when the address is non-empty and the recovery call succeeds |
| AuthService.UpdatePassword | src/services/authService.js:172-195 | a mismatch is reported before a short password, both before the remote call; the update succeeds exactly when they match, have 8 or more characters and the recovery call succeeds |
| AuthContext.ProfileRole | src/hooks/useAuth.js:115-118 | a role is read only from a user with a profile |
| AuthContext.ContextChecks | src/hooks/useAuth.js:115-123 | without a user or a profile both checks fail; the role check passes exactly for the role itself or admin; a permission implies a user |
| AuthContext.AnyRole | src/components/auth/RoleGuard.jsx:23 | `some(hasRole)`: true exactly when one listed role passes |
| AuthContext.EveryRole | src/components/auth/RoleGuard.jsx:21 | `every(hasRole)`: true exactly when every listed role passes |
| AuthContext.UserHasRoleAsWritten | src/hooks/useAuth.js:115-118 | as written: false exactly without a user or profile, true exactly when the profile's role is the one asked, otherwise a throw; where it answers it agrees with the intended check |
| AuthContext.AnyRoleAsWritten | src/components/auth/RoleGuard.jsx:23 | as written: false without a profile; with one and a non-empty list, true exactly when the first listed role is the profile's own and a throw otherwise; agrees with `AnyRole` where it answers |
| AuthContext.EveryRoleAsWritten | src/components/auth/RoleGuard.jsx:21 | as written: false without a profile for a non-empty list; with one, it answers (true) exactly when every listed role is the profile's own, and throws otherwise; agrees with `EveryRole` where it answers |
| AuthContext.AnyPermission | src/components/auth/ProtectedRoute.jsx:72-74 | `some(hasPermission)`: true exactly when one listed permission passes |
| AuthContext.EveryPermission | src/components/auth/RoleGuard.jsx:30-32 | `every(hasPermission)`: true exactly when every listed permission passes |
| AuthContext.AuthProvider.constructor | src/hooks/useAuth.js:9-11 | no user, loading, no error |
| AuthContext.AuthProvider.CheckAuth | src/hooks/useAuth.js:14-27 | the user becomes the current user and loading ends |
| AuthContext.AuthProvider.Login | src/hooks/useAuth.js:30-49 | on success the user is the account with its profile and the error is cleared; on failure the user is kept and the error is the service's message; loading ends |
| AuthContext.AuthProvider.Register | src/hooks/useAuth.js:52-67 | on success the user is a fresh current user; on failure the user is kept and the error recorded; loading ends |
| AuthContext.AuthProvider.Logout | src/hooks/useAuth.js:70-80 | the user is cleared only when the session was deleted; otherwise it is kept and the failure recorded |
| AuthContext.AuthProvider.ResetPassword | src/hooks/useAuth.js:83-91 | the error is cleared, then set to the service's message on failure; user and loading untouched |
| AuthContext.AuthProvider.UpdatePassword | src/hooks/useAuth.js:94-112 | as for the reset, with the service's update |
| ProtectedRoute.Render | src/components/auth/ProtectedRoute.jsx:4-116 | loading shows a spinner; a visitor is sent to the login path with the current location; a failed role shows "Access Denied" before permissions are looked at; with no listed permission held it shows "Insufficient Permissions"; otherwise the children |
| ProtectedRoute.RenderAsWritten | src/components/auth/ProtectedRoute.jsx:31 | as written: the render throws exactly when a loaded, signed-in user with a profile meets a role requirement naming another role; otherwise the intended view |
| ProtectedRoute.AdminCrashesOnDonorRoute | src/components/auth/ProtectedRoute.jsx:31 | an admin on a donor route: the intended guard shows the children and the code throws |
| ProtectedRoute.NoRequirements | src/components/auth/ProtectedRoute.jsx:116 | without requirements a signed-in user sees the children |
| ProtectedRoute.AdminPassesRole | src/components/auth/ProtectedRoute.jsx:31-68 | an admin profile never sees "Access Denied" |
| ProtectedRoute.AdminTokenPassesPermissions | src/components/auth/ProtectedRoute.jsx:71-113 | a profile holding the `"admin"` token never sees "Insufficient Permissions" |
| ProtectedRoute.NoProfileBlocked | src/components/auth/ProtectedRoute.jsx:31-113 | a user without a profile is denied whenever a role or permission is required |
| RoleGuard.RoleFlag | src/components/auth/RoleGuard.jsx:18-25 | no roles, or any (all when `requireAll`) of the roles held |
| RoleGuard.RoleFlagAsWritten | src/components/auth/RoleGuard.jsx:18-25 | as written: agrees with `RoleFlag` where it answers; throws exactly for a user with a profile and a non-empty list whose first role (any mode) or some role (all mode) is not the profile's own |
| RoleGuard.PermissionFlag | src/components/auth/RoleGuard.jsx:28-39 | no permissions, or any (all when `requireAll`) of the permissions held |
| RoleGuard.Render | src/components/auth/RoleGuard.jsx:4-47 | the children show exactly when there is a user and both flags hold; otherwise the fallback |
| RoleGuard.RenderAsWritten | src/components/auth/RoleGuard.jsx:4-47 | as written: the render throws exactly when a signed-in user's role flag throws; otherwise the intended view |
| RoleGuard.NoRequirements | src/components/auth/RoleGuard.jsx:42-47 | without requirements any user sees the children |
| RoleGuard.MoreRolesNeverHide | src/components/auth/RoleGuard.jsx:18-25 | in "any" mode adding a role never hides content |
| RoleGuard.RequireAllTwoRoles | src/components/auth/RoleGuard.jsx:18-25 | requiring two different roles at once admits only admins |
| RoleGuard.AdminOnly | src/components/auth/RoleGuard.jsx:53-57 | shows exactly for an admin profile |
| RoleGuard.DonorOnly | src/components/auth/RoleGuard.jsx:59-63 | shows exactly for a donor or admin profile |
| RoleGuard.VolunteerOnly | src/components/auth/RoleGuard.jsx:65-69 | shows exactly for a volunteer or admin profile |
| RoleGuard.DonorOrVolunteer | src/components/auth/RoleGuard.jsx:71-75 | shows exactly for a donor, volunteer or admin profile |
| RoleGuard.WrappersCrashAsWritten | src/components/auth/RoleGuard.jsx:53-75 | a donor under `AdminOnly`, an admin under `DonorOnly` and a volunteer under `DonorOrVolunteer` make the render throw, where the intended wrappers show the fallback, the children and the children |
| RoleGuard.AuthenticatedOnly | src/components/auth/RoleGuard.jsx:77-80 | shows exactly for a signed-in user |
| RoleGuard.WrappersNeedProfile | src/components/auth/RoleGuard.jsx:53-80 | the role wrappers imply a user, and a user without a profile passes only the authenticated wrapper |
| RedirectIfAuthenticated.Render | src/components/auth/RedirectIfAuthenticated.jsx:5-33 | loading shows a spinner; a visitor sees the page; a signed-in admin or volunteer goes to their dashboard, anyone else to `redirectTo` |
| RoleDashboard.Render | src/components/auth/RoleDashboard.jsx:9-40 | loading shows a spinner; a visitor goes to login; a user goes to the dashboard of their role, donor by default |
| RoleDashboard.AlwaysRedirects | src/components/auth/RoleDashboard.jsx:23-40 | once loaded it always redirects, to login only for a visitor |
| RoleDashboard.AgreesWithRedirect | src/components/auth/RoleDashboard.jsx:28-40 | it sends admins and volunteers where the redirect guard does; others go to the donor dashboard rather than `redirectTo` |
| PasswordStrength.Score | src/pages/auth/Signup.jsx:122-142 | 0 for an empty password, otherwise at most 5; 5 exactly when all five criteria hold; at most 4 below 8 characters |
| PasswordStrength.Rate | src/pages/auth/ResetPassword.jsx:136-156 | the label of a non-empty password is never empty, and is "Strong" or better from score 4 |
| PasswordStrength.AcceptedIsStrong | src/pages/auth/Signup.jsx:122-142 | every password the validator accepts scores at least 4 |
| PasswordStrength.VeryStrongNotAccepted | src/utils/validation.js:15-28 | a 129-character password can score 5 and still be refused |
| LoginPage.ValidateForm | src/pages/auth/Login.jsx:43-51 | the form passes exactly when the email validator passes and the password is non-empty |
| LoginPage.WeakPasswordPasses | src/pages/auth/Login.jsx:43-51 | a one-letter password passes the sign-in form |
| LoginPage.Destination | src/pages/auth/Login.jsx:72 | the stored `from` path when non-empty, else "/dashboard" |
| LoginPage.ClearedError | src/pages/auth/Login.jsx:38-40 | a shown error is cleared; no other value changes |
| LoginPage.LoginForm.HandleInputChange | src/pages/auth/Login.jsx:23-41 | the typed value is stored sanitized, its message and the global error cleared |
| LoginPage.LoginForm.HandleSubmit | src/pages/auth/Login.jsx:53-78 | the limiter is asked first; a refusal shows the retry message and stops; then the form is validated; only an allowed, valid form signs in, navigating on success and counting a failed attempt otherwise |
| LoginPage.HandleSubmitAsRendered | src/pages/auth/Login.jsx:21 | with the limiter rebuilt on every render, every submission reaches validation |
| LoginPage.RebuiltLimiterNeverBlocks | src/pages/auth/Login.jsx:21 | a fresh limiter allows any submission with 4 attempts left |
| LoginPage.PersistentLimiterBlocksSixth | src/pages/auth/Login.jsx:21 | a limiter that persists refuses the sixth submission in the window, until the first one expires |
| LoginPage.ReturnsToProtectedPath | src/components/auth/ProtectedRoute.jsx:26-28 | a visitor sent to sign in by the guard returns to the path they asked for |
| SignupPage.FieldErrors | src/pages/auth/Signup.jsx:75-84 | one entry per input and the role; no errors exactly when every message is empty |
| SignupPage.WithTerms | src/pages/auth/Signup.jsx:86-88 | an unticked box adds the terms message and so fails the form |
| SignupPage.ValidateForm | src/pages/auth/Signup.jsx:72-92 | the form's keys, its role message, and the terms message when the box is unticked |
| SignupPage.FormAccepts | src/pages/auth/Signup.jsx:72-92 | the form passes exactly when every validator passes and the terms are accepted |
| SignupPage.AdminRejected | src/pages/auth/Signup.jsx:84 | "admin" cannot be chosen at sign-up |
| SignupPage.NameAccepted | src/pages/auth/Signup.jsx:101-102 | a name the form accepts stays long enough for the service once trimmed |
| SignupPage.AcceptedFieldsPassService | src/pages/auth/Signup.jsx:94-107 | fields the form accepts, normalised as submitted, pass the service's checks when the password has no line terminator |
| SignupPage.AcceptedFormPassesService | src/pages/auth/Signup.jsx:94-107 | a form that passes its own check passes the service's checks when the password has no line terminator |
| SignupPage.RegistrationAccepted | src/services/authService.js:226-265 | the service's checks passed one by one |
| SignupPage.AcceptedFormRefusedAsWritten | src/pages/auth/Signup.jsx:94-107 | a form that passes its own check and the intended service checks is refused by the code with the role check's error, before any account is created |
| SignupPage.SplitPasswordFacts | src/utils/validation.js:15-35 | `"abcdefgh\nAB12"` passes both password validators and fails the service's pattern |
| SignupPage.AcceptedFormRefusedAcrossLines | src/pages/auth/Signup.jsx:94-107 | with that password and otherwise acceptable fields, the form passes and the service refuses the password |
| SignupPage.RegistrationRefused | src/services/authService.js:226-265 | data that passes the earlier checks and fails the pattern is refused for its composition |
| SignupPage.WithField | src/pages/auth/Signup.jsx:49-52 | `formData[name] = value` sets that one field |
| SignupPage.SignupForm.constructor | src/pages/auth/Signup.jsx:15-27 | empty fields, role "donor", terms unticked |
| SignupPage.SignupForm.HandleInputChange | src/pages/auth/Signup.jsx:45-63 | the typed value is stored sanitized, its message and the global error cleared |
| SignupPage.SignupForm.HandleRoleChange | src/pages/auth/Signup.jsx:65-70 | the role is stored as given, unsanitized, and its message cleared |
| SignupPage.SignupForm.SetAcceptTerms | src/pages/auth/Signup.jsx:504 | the box's state is recorded |
| SignupPage.SignupForm.CheckForm | src/pages/auth/Signup.jsx:72-92 | the error map is recorded, and the answer is whether it holds no message |
| SignupPage.SignupForm.HandleSubmit | src/pages/auth/Signup.jsx:94-119 | an invalid form registers nothing; a valid one registers the normalised payload and navigates to "/dashboard" only on success |
| ResetPasswordPage.InitialStep | src/pages/auth/ResetPassword.jsx:17-25 | the page starts at "reset" exactly when `userId` and `secret` are both non-empty, else at "request" |
| ResetPasswordPage.CompleteIsFinal | src/pages/auth/ResetPassword.jsx:96-133 | "complete" has no exit |
| ResetPasswordPage.FlowsStaySeparate | src/pages/auth/ResetPassword.jsx:96-133 | along any run of transitions, the request steps and the completion steps never meet |
| ResetPasswordPage.CompleteStays | src/pages/auth/ResetPassword.jsx:113-133 | once reached, "complete" stays for the rest of any run |
| ResetPasswordPage.EmailFormErrors | src/pages/auth/ResetPassword.jsx:78-83 | the form passes exactly when the email validator does |
| ResetPasswordPage.ResetFormErrors | src/pages/auth/ResetPassword.jsx:85-94 | the form passes exactly when the full password validator passes and the confirmation matches |
| ResetPasswordPage.AcceptedEmailReachesService | src/pages/auth/ResetPassword.jsx:96-111 | an accepted address, trimmed and lowered, is non-empty, so only the recovery call can fail |
| ResetPasswordPage.AcceptedResetReachesService | src/pages/auth/ResetPassword.jsx:113-133 | an accepted reset form passes the service's checks, so only the recovery call can fail |
| ResetPasswordPage.ResetPasswordForm.constructor | src/pages/auth/ResetPassword.jsx:17-40 | the initial step follows the URL; all fields empty; not loading |
| ResetPasswordPage.ResetPasswordForm.HandleInputChange | src/pages/auth/ResetPassword.jsx:51-76 | the value is stored sanitized in the email or the reset data; the field's message and the global error are cleared |
| ResetPasswordPage.ResetPasswordForm.ValidateEmailForm | src/pages/auth/ResetPassword.jsx:78-83 | the error map is recorded, and the answer is whether the address passed |
| ResetPasswordPage.ResetPasswordForm.ValidateResetForm | src/pages/auth/ResetPassword.jsx:85-94 | the error map is recorded, and the answer is whether both passwords passed |
| ResetPasswordPage.ResetPasswordForm.HandleEmailSubmit | src/pages/auth/ResetPassword.jsx:96-111 | an invalid address makes no call; a valid one moves to "sent" exactly when recovery succeeds, keeps the step and records the error otherwise; loading ends |
| ResetPasswordPage.ResetPasswordForm.HandleResetSubmit | src/pages/auth/ResetPassword.jsx:113-133 | a refused password makes no call; an accepted one moves to "complete" exactly when recovery succeeds; loading ends |
| ResetPasswordPage.ResetPasswordForm.TryAgain | src/pages/auth/ResetPassword.jsx:301-306 | "try again" returns to "request", clears the email and clears the error |

## Left out

- Appwrite client and network: every `account.*` and `databases.*` call is an
  outcome passed in; retries, latency and partial writes are not modelled.
- Asynchrony and React scheduling: each handler runs to completion in one
  step, and state updates are applied in program order. Interleaved
  submissions are not modelled.
- `Date.now()`, `toISOString()` and the formatted retry time: times are
  integers given as parameters; the retry message is opaque.
- Validation.Email, Validation.Password, Validation.Name,
  AuthService.ValidateRegistration, AuthService.UpdatePassword,
  PasswordStrength.Score and PasswordStrength.VeryStrongNotAccepted: every
  length bound in the model counts code points, while JavaScript's `length`
  counts UTF-16 code units. A character outside the Basic Multilingual Plane
  (an emoji, say) counts 1 in the model and 2 in the source. So the 255-,
  8-, 128-, 2- and 50-character bounds of the validators and of
  `validateRegistrationData`, the 8-character bound of `updatePassword`
  (src/services/authService.js:178) and the 8-character criterion of the
  strength meter (src/pages/auth/Signup.jsx:126,
  src/pages/auth/ResetPassword.jsx:140) differ on such text, and the
  "129 characters" of VeryStrongNotAccepted are code points. For example,
  "Aa1" followed by three emoji and "x" is too short here and long enough
  in JavaScript.
- Validation.SanitizeRoundTrip: holds only for text without `&`. Because
  `&` is not escaped, text that already holds an entity decodes to a
  different string (SanitizeNotInjective: `<` and `&lt;` sanitize alike).
- Text.ToLower: lowers ASCII letters only; `toLowerCase` also maps other
  scripts' letters.
- `getDefaultPermissions` on keys inherited from `Object.prototype` (such as
  "toString"): the intended registration passes only known or empty roles,
  and as written `register` never reaches the table.
- The profile timestamps `createdAt` and `updatedAt`
  (src/services/authService.js:90-91): they come from the clock and are not
  part of the modelled profile.
- Validation.NormalizedEmailAccepted: does not promise the 255-character
  bound after lowering. JavaScript's `toLowerCase` can lengthen a string
  ("İ" becomes two code units), and the callers need only the shape and
  non-emptiness.
- The messages of the `TypeError`s the as-written members raise
  (`AuthService.AdminUnreadable` and its three neighbours) are V8's wording;
  other engines word them differently, and the model uses them only as
  opaque strings.
- A render that throws is `Views.Crashed`. What React then shows is not
  modelled; the application installs no error boundary.
- The verification email requested after registration: its outcome is
  ignored by the source.
- `useFormValidation` (src/utils/validation.js:67-134): no page in this
  model uses it.
- Presentation: icons, class names, show-password toggles and messages' markup.
- The `useEffect` of src/pages/auth/ResetPassword.jsx:45-49: on mount it
  sets the step the initial state already holds.
- `userId` and `secret` are passed to the recovery call unchanged; the
  model's recovery outcome stands for that call.
- RateLimit.Recent: the `forall` membership iff is proved separately as
  `RateLimit.RecentMembers` rather than stated on the function.
- LoginPage.HandleSubmitAsRendered: states only that validation is reached;
  the rest follows from `LoginPage.LoginForm.HandleSubmit`.
- Signup page's navigation `state` and `replace` flags are not recorded.

## Findings

| source | as written | input that shows it | evidently intended | confidence | as-written member | corrected member |
|---|---|---|---|---|---|---|
| src/services/authService.js:297 | `hasRole` reads `this.ROLES.ADMIN`; `ROLES` is static and the callers use the instance, so every role but the required one throws | an admin profile checked for "donor" | the admin role passes every role check, any other role passes only its own, and a mismatch answers false | not executed | AuthService.AdminCheckThrows | AuthService.HasRoleIff |
| src/components/auth/ProtectedRoute.jsx:31 | the role check calls that `hasRole`, so a mismatched or admin role throws during the render | an admin profile on a route with `requiredRole="donor"` | an admin reaches every role-guarded route; another role sees "Access Denied" | not executed | ProtectedRoute.AdminCrashesOnDonorRoute | ProtectedRoute.AdminPassesRole |
| src/components/auth/RoleGuard.jsx:23 | `some` stops at the first throw of that `hasRole`, so only the first listed role can pass | a volunteer profile under `DonorOrVolunteer` | a donor, a volunteer or an admin sees the content | not executed | RoleGuard.WrappersCrashAsWritten | RoleGuard.DonorOrVolunteer |
| src/services/authService.js:262 | `Object.values(this.ROLES)` throws for any non-empty role, so every sign-up is refused before the account is created | the sign-up form's payload with role "donor" | the role is checked against the four known roles | not executed | SignupPage.AcceptedFormRefusedAsWritten | SignupPage.AcceptedFormPassesService |
| src/services/authService.js:87 | `this.getDefaultPermissions` is not a function on the instance, so an empty role fails after the account and the session exist, and no profile is written | a valid registration with role `""` | the profile is stored with the role's default permissions | not executed | AuthService.EmptyRoleLeavesNoProfile | AuthService.NewProfile |
| src/services/authService.js:61 | the default `this.ROLES.DONOR` throws while destructuring, outside the `try` | a valid registration without a role | a missing role defaults to "donor" | not executed | AuthService.MissingRoleThrows | AuthService.RegisteredRole |
| src/pages/auth/Login.jsx:21 | `createRateLimit(5, 15 * 60 * 1000)` runs in the component body, so every render builds an empty limiter and no submission is ever refused | six failed sign-ins for one address within fifteen minutes: the sixth is allowed | a limiter kept across renders, which refuses the sixth attempt until the first expires | not executed | LoginPage.RebuiltLimiterNeverBlocks | LoginPage.PersistentLimiterBlocksSixth |
