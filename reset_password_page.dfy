/** The password-reset page of `src/pages/auth/ResetPassword.jsx`: a
    request step that mails a recovery link, a confirmation step, and, when
    the page is opened from that link, a step that sets the new password and
    a final one that reports it. */
module ResetPasswordPage {
  import opened Wrappers
  import opened Text
  import opened Validation
  import opened AuthService
  import opened AuthContext

  /** The four values of `currentStep`. */
  datatype Step = Request | Sent | Reset | Complete

  /** `!!(userId && secret)`: both URL parameters present and non-empty. */
  predicate IsResetCompletion(userId: Option<string>, secret: Option<string>) {
    userId.Some? && userId.value != "" && secret.Some? && secret.value != ""
  }

  /** The initial `currentStep`. */
  function InitialStep(userId: Option<string>, secret: Option<string>): (s: Step)
    ensures s == Reset <==> IsResetCompletion(userId, secret)
    ensures s == Request <==> !IsResetCompletion(userId, secret)
  {
    if IsResetCompletion(userId, secret) then Reset else Request
  }

  /** The step changes the page's handlers can make, besides keeping the
      step: a sent link, "try again", and a completed reset. */
  predicate Transition(from: Step, to: Step) {
    || from == to
    || (from == Request && to == Sent)
    || (from == Sent && to == Request)
    || (from == Reset && to == Complete)
  }

  /** "complete" has no exit. */
  lemma CompleteIsFinal(to: Step)
    requires Transition(Complete, to)
    ensures to == Complete
  {
  }

  /** A run of steps, each reached from the previous one by a transition. */
  predicate Path(steps: seq<Step>) {
    forall k | 0 < k < |steps| :: Transition(steps[k - 1], steps[k])
  }

  predicate RequestFlow(s: Step) { s == Request || s == Sent }

  /** The two flows never meet: a page opened without the link's parameters
      never reaches "reset" or "complete", and one opened from the link never
      goes back to "request" or "sent". */
  lemma {:induction false} FlowsStaySeparate(steps: seq<Step>)
    requires steps != [] && Path(steps)
    ensures forall k | 0 <= k < |steps| :: RequestFlow(steps[k]) == RequestFlow(steps[0])
  {
    if |steps| > 1 {
      FlowsStaySeparate(steps[..|steps| - 1]);
      assert Transition(steps[|steps| - 2], steps[|steps| - 1]);
    }
  }

  /** Once "complete" is reached it stays. */
  lemma {:induction false} CompleteStays(steps: seq<Step>, i: nat)
    requires Path(steps) && i < |steps| && steps[i] == Complete
    ensures forall k | i <= k < |steps| :: steps[k] == Complete
    decreases |steps| - i
  {
    if i + 1 < |steps| {
      assert Transition(steps[i], steps[i + 1]);
      CompleteStays(steps, i + 1);
    }
  }

  /** The keys of `formErrors`: the `name` of each input. */
  datatype Field = EmailInput | NewPasswordInput | ConfirmPasswordInput

  /** The second argument of `handleInputChange`: which state object the
      input belongs to. */
  datatype DataType = EmailData | ResetData

  /** `validateEmailForm()`'s error map. */
  function EmailFormErrors(email: string): (errors: map<Field, string>)
    ensures errors.Keys == {EmailInput}
    ensures NoErrors(errors) <==> email != "" && EmailShape(email) && |email| <= 255
  {
    map[EmailInput := Email(email)]
  }

  /** `validateResetForm()`'s error map: the full password validator, not
      just the service's length rule, and the confirmation. */
  function ResetFormErrors(newPassword: string, confirmPassword: string): (errors: map<Field, string>)
    ensures errors.Keys == {NewPasswordInput, ConfirmPasswordInput}
    ensures NoErrors(errors) <==>
      && 8 <= |newPassword| <= 128 && HasLower(newPassword) && HasUpper(newPassword) && HasDigit(newPassword)
      && confirmPassword == newPassword
  {
    map[NewPasswordInput := Password(newPassword),
        ConfirmPasswordInput := ConfirmPassword(newPassword, confirmPassword)]
  }

  /** An address the form accepts is sent trimmed and lower-cased, and the
      service then refuses it only when the recovery call fails. */
  lemma AcceptedEmailReachesService(email: string, recovery: Result<(), ErrorInfo>)
    requires NoErrors(EmailFormErrors(email))
    ensures ToLower(Trim(email)) != ""
    ensures AuthService.ResetPassword(ToLower(Trim(email)), recovery).Ok? <==> recovery.Ok?
  {
    assert EmailFormErrors(email)[EmailInput] == "";
    NormalizedEmailAccepted(email);
  }

  /** A reset form that passes its own check passes the service's checks:
      only the recovery call can then fail. */
  lemma AcceptedResetReachesService(newPassword: string, confirmPassword: string, recovery: Result<(), ErrorInfo>)
    requires NoErrors(ResetFormErrors(newPassword, confirmPassword))
    ensures AuthService.UpdatePassword(newPassword, confirmPassword, recovery).Ok? <==> recovery.Ok?
  {
  }

  class ResetPasswordForm {
    var currentStep: Step
    var loading: bool
    var success: bool
    /** `emailData.email`. */
    var email: string
    /** `resetData.newPassword` and `resetData.confirmPassword`. */
    var newPassword: string
    var confirmPassword: string
    var formErrors: map<Field, string>

    /** The page's state when it mounts with the URL's `userId` and
        `secret`. */
    constructor (userId: Option<string>, secret: Option<string>)
      ensures currentStep == InitialStep(userId, secret)
      ensures !loading && !success && email == "" && newPassword == "" && confirmPassword == ""
      ensures formErrors == map[]
    {
      currentStep := InitialStep(userId, secret);
      loading := false;
      success := false;
      email := "";
      newPassword := "";
      confirmPassword := "";
      formErrors := map[];
    }

    /** `handleInputChange(e, dataType)`: the email input belongs to
        `emailData`, the two password inputs to `resetData`. */
    method HandleInputChange(auth: AuthProvider, dataType: DataType, name: Field, value: string)
      requires dataType == EmailData <==> name == EmailInput
      modifies this, auth
      ensures name == EmailInput ==> email == Escape(value)
      ensures name != EmailInput ==> email == old(email)
      ensures newPassword == (if name == NewPasswordInput then Escape(value) else old(newPassword))
      ensures confirmPassword == (if name == ConfirmPasswordInput then Escape(value) else old(confirmPassword))
      ensures formErrors == ClearedField(old(formErrors), name)
      ensures auth.error == (if old(auth.error).Some? && old(auth.error).value != "" then None else old(auth.error))
      ensures auth.user == old(auth.user) && auth.loading == old(auth.loading)
      ensures currentStep == old(currentStep) && loading == old(loading) && success == old(success)
    {
      SanitizeIsEscape(value);
      var sanitizedValue := Sanitize(value);
      if dataType == EmailData {
        email := sanitizedValue;
      } else if name == NewPasswordInput {
        newPassword := sanitizedValue;
      } else {
        confirmPassword := sanitizedValue;
      }
      formErrors := ClearedField(formErrors, name);
      if auth.error.Some? && auth.error.value != "" {
        auth.SetError(None);
      }
    }

    /** `validateEmailForm()`: records the error map and says whether the
        address passed. */
    method ValidateEmailForm() returns (valid: bool)
      modifies this
      ensures formErrors == EmailFormErrors(email)
      ensures valid <==> NoErrors(formErrors)
      ensures currentStep == old(currentStep) && loading == old(loading) && success == old(success)
      ensures email == old(email) && newPassword == old(newPassword) && confirmPassword == old(confirmPassword)
    {
      var errors := EmailFormErrors(email);
      formErrors := errors;
      valid := NoErrors(errors);
    }

    /** `validateResetForm()`. */
    method ValidateResetForm() returns (valid: bool)
      modifies this
      ensures formErrors == ResetFormErrors(newPassword, confirmPassword)
      ensures valid <==> NoErrors(formErrors)
      ensures currentStep == old(currentStep) && loading == old(loading) && success == old(success)
      ensures email == old(email) && newPassword == old(newPassword) && confirmPassword == old(confirmPassword)
    {
      var errors := ResetFormErrors(newPassword, confirmPassword);
      formErrors := errors;
      valid := NoErrors(errors);
    }

    /** `handleEmailSubmit`, given the outcome of `account.createRecovery`.
        Its form is rendered only in the "request" step. */
    method HandleEmailSubmit(auth: AuthProvider, recovery: Result<(), ErrorInfo>)
      requires currentStep == Request
      modifies this, auth
      ensures Transition(old(currentStep), currentStep)
      ensures formErrors == EmailFormErrors(email)
      ensures email == old(email) && newPassword == old(newPassword) && confirmPassword == old(confirmPassword)
      // an invalid address makes no call
      ensures !NoErrors(formErrors) ==>
        && currentStep == Request && loading == old(loading) && success == old(success)
        && auth.error == old(auth.error)
      // otherwise the step moves on exactly when the recovery call succeeds
      ensures NoErrors(formErrors) ==>
        && !loading
        && (currentStep == Sent <==> recovery.Ok?)
        && success == (recovery.Ok? || old(success))
        && auth.error == (if recovery.Ok? then None else Some(ParseError(recovery.error)))
      ensures auth.user == old(auth.user) && auth.loading == old(auth.loading)
    {
      var valid := ValidateEmailForm();
      if !valid {
        return;
      }
      loading := true;
      AcceptedEmailReachesService(email, recovery);
      var result := auth.ResetPassword(ToLower(Trim(email)), recovery);
      if result.Ok? {
        success := true;
        currentStep := Sent;
      }
      loading := false;
    }

    /** `handleResetSubmit`, given the outcome of `account.updateRecovery`.
        Its form is rendered only in the "reset" step. */
    method HandleResetSubmit(auth: AuthProvider, recovery: Result<(), ErrorInfo>)
      requires currentStep == Reset
      modifies this, auth
      ensures Transition(old(currentStep), currentStep)
      ensures formErrors == ResetFormErrors(newPassword, confirmPassword)
      ensures email == old(email) && newPassword == old(newPassword) && confirmPassword == old(confirmPassword)
      // a password the full validator refuses, or a mismatch, makes no call
      ensures !NoErrors(formErrors) ==>
        && currentStep == Reset && loading == old(loading) && success == old(success)
        && auth.error == old(auth.error)
      ensures NoErrors(formErrors) ==>
        && !loading
        && (currentStep == Complete <==> recovery.Ok?)
        && success == (recovery.Ok? || old(success))
        && auth.error == (if recovery.Ok? then None else Some(ParseError(recovery.error)))
      ensures auth.user == old(auth.user) && auth.loading == old(auth.loading)
    {
      var valid := ValidateResetForm();
      if !valid {
        return;
      }
      loading := true;
      AcceptedResetReachesService(newPassword, confirmPassword, recovery);
      var result := auth.UpdatePassword(newPassword, confirmPassword, recovery);
      if result.Ok? {
        success := true;
        currentStep := Complete;
      }
      loading := false;
    }

    /** The "Try again" button of the "sent" step. */
    method TryAgain(auth: AuthProvider)
      requires currentStep == Sent
      modifies this, auth
      ensures Transition(old(currentStep), currentStep)
      ensures currentStep == Request && email == "" && auth.error == None
      ensures newPassword == old(newPassword) && confirmPassword == old(confirmPassword)
      ensures formErrors == old(formErrors) && loading == old(loading) && success == old(success)
      ensures auth.user == old(auth.user) && auth.loading == old(auth.loading)
    {
      currentStep := Request;
      email := "";
      auth.SetError(None);
    }
  }
}
