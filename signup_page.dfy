/** The sign-up form of `src/pages/auth/Signup.jsx`: its fields, the
    handlers that record input, the form check, and the submit handler that
    normalises the fields before registering. */
module SignupPage {
  import opened Wrappers
  import opened Text
  import opened Validation
  import opened AuthService
  import opened AuthContext

  /** `formData`. */
  datatype SignupData = SignupData(firstName: string, lastName: string, email: string, phone: string,
                                   password: string, confirmPassword: string, role: string)

  /** The initial `formData`: every field empty and the role "donor". */
  const InitialData := SignupData("", "", "", "", "", "", Donor)

  /** The roles a visitor may choose here: not "admin". */
  const SignupRoles: seq<string> := [Donor, Volunteer]

  const TermsRequired := "You must accept the Terms of Service and Privacy Policy"

  /** The keys of the form's error map: the `name` of each input, and
      "terms" for the checkbox. */
  datatype Field = FirstName | LastName | EmailField | PhoneField | PasswordField | ConfirmPasswordField
                 | RoleField | Terms

  /** The text inputs of the form. */
  const InputNames: set<Field> := {FirstName, LastName, EmailField, PhoneField, PasswordField, ConfirmPasswordField}

  /** The error map of `validateForm()` before the terms are looked at. */
  function FieldErrors(firstName: string, lastName: string, email: string, phone: string, password: string,
                       confirmPassword: string, role: string): (errors: map<Field, string>)
    ensures errors.Keys == InputNames + {RoleField}
    ensures errors[RoleField] == role
    ensures NoErrors(errors) <==>
      firstName == "" && lastName == "" && email == "" && phone == "" && password == "" &&
      confirmPassword == "" && role == ""
  {
    map[FirstName := firstName, LastName := lastName, EmailField := email, PhoneField := phone,
        PasswordField := password, ConfirmPasswordField := confirmPassword, RoleField := role]
  }

  /** The terms entry `validateForm()` adds when the box is not ticked. */
  function WithTerms(errors: map<Field, string>, acceptTerms: bool): (r: map<Field, string>)
    requires Terms !in errors
    ensures r.Keys == errors.Keys + (if acceptTerms then {} else {Terms})
    ensures forall name | name in errors :: r[name] == errors[name]
    ensures NoErrors(r) <==> NoErrors(errors) && acceptTerms
    ensures !acceptTerms ==> r[Terms] == TermsRequired
  {
    if acceptTerms then errors
    else
      var r := errors[Terms := TermsRequired];
      assert r[Terms] != "";
      r
  }

  /** `validateForm()`: one message per field, and one for the terms when
      they are not accepted. */
  function ValidateForm(d: SignupData, acceptTerms: bool): (errors: map<Field, string>)
    ensures errors.Keys == InputNames + {RoleField} + (if acceptTerms then {} else {Terms})
    ensures RoleField in errors && errors[RoleField] == Role(d.role, SignupRoles)
    // without the terms the form never passes
    ensures !acceptTerms ==> errors[Terms] == TermsRequired
  {
    var fields := FieldErrors(Name(d.firstName, "First name"), Name(d.lastName, "Last name"), Email(d.email),
                              Phone(d.phone), Password(d.password), ConfirmPassword(d.password, d.confirmPassword),
                              Role(d.role, SignupRoles));
    assert RoleField in fields && Terms !in fields;
    WithTerms(fields, acceptTerms)
  }

  /** The form passes exactly when every validator and the terms do. */
  lemma FormAccepts(d: SignupData, acceptTerms: bool)
    ensures NoErrors(ValidateForm(d, acceptTerms)) <==>
      && Name(d.firstName, "First name") == "" && Name(d.lastName, "Last name") == ""
      && Email(d.email) == "" && Phone(d.phone) == "" && Password(d.password) == ""
      && ConfirmPassword(d.password, d.confirmPassword) == "" && Role(d.role, SignupRoles) == ""
      && acceptTerms
  {
  }

  /** The admin role cannot be chosen at sign-up. */
  lemma AdminRejected(d: SignupData, acceptTerms: bool)
    requires d.role == Admin
    ensures ValidateForm(d, acceptTerms)[RoleField] == RoleInvalid
  {
  }

  /** The argument given to `register`: names and phone trimmed, the email
      trimmed and lower-cased, password and role as entered. */
  function Payload(d: SignupData): Registration {
    Registration(ToLower(Trim(d.email)), d.password, Trim(d.firstName), Trim(d.lastName), Trim(d.phone), Some(d.role))
  }

  /** A name the form accepts passes the service's name check once trimmed. */
  lemma NameAccepted(name: string, fieldName: string)
    requires Name(name, fieldName) == ""
    ensures Trim(name) != "" && |Trim(Trim(name))| >= 2
  {
    TrimIdempotent(name);
  }

  /** Fields the form accepts pass the service's registration checks once
      normalised, as long as the password holds no line terminator. */
  lemma AcceptedFieldsPassService(d: SignupData)
    requires Name(d.firstName, "First name") == "" && Name(d.lastName, "Last name") == ""
    requires Email(d.email) == "" && Password(d.password) == "" && Role(d.role, SignupRoles) == ""
    requires OnOneLine(d.password, 0, |d.password|)
    ensures ValidateRegistration(Payload(d)).Ok?
  {
    var p := Payload(d);
    NameAccepted(d.firstName, "First name");
    NameAccepted(d.lastName, "Last name");
    NormalizedEmailAccepted(d.email);
    CompositionOneLine(d.password);
    assert d.role == Donor || d.role == Volunteer;
    RegistrationAccepted(p);
  }

  /** The service's checks, one by one. */
  lemma RegistrationAccepted(r: Registration)
    requires r.firstName != "" && |Trim(r.firstName)| >= 2 && r.lastName != "" && |Trim(r.lastName)| >= 2
    requires r.email != "" && EmailShape(r.email)
    requires |r.password| >= 8 && Composition(r.password)
    requires r.role == Some(Donor) || r.role == Some(Volunteer)
    ensures ValidateRegistration(r).Ok?
  {
  }

  /** A form that passes its own check passes the service's registration
      checks, as long as the password holds no line terminator: the
      service's combined lookahead cannot look across lines, and the form's
      separate checks can. */
  lemma AcceptedFormPassesService(d: SignupData)
    requires NoErrors(ValidateForm(d, true))
    requires OnOneLine(d.password, 0, |d.password|)
    ensures ValidateRegistration(Payload(d)).Ok?
  {
    FormAccepts(d, true);
    AcceptedFieldsPassService(d);
  }

  /** As the code stands, no sign-up gets through: the form only offers
      non-empty roles, and the service's role check throws on any of them
      before the account is created. */
  lemma AcceptedFormRefusedAsWritten(d: SignupData, created: Result<Account, ErrorInfo>,
                                     session: Result<string, ErrorInfo>)
    requires NoErrors(ValidateForm(d, true))
    requires OnOneLine(d.password, 0, |d.password|)
    ensures Register(Payload(d), created, session, true).Ok? <==> created.Ok? && session.Ok?
    ensures RegisterAsWritten(Payload(d), created, session) == Err(RolesNotObject)
  {
    AcceptedFormPassesService(d);
  }

  /** A password the form accepts whose lowercase letters sit on a line of
      their own. */
  const SplitPassword := "abcdefgh\nAB12"

  lemma SplitPasswordFacts()
    ensures Password(SplitPassword) == "" && ConfirmPassword(SplitPassword, SplitPassword) == ""
    ensures !Composition(SplitPassword)
  {
    var pw := SplitPassword;
    assert IsLower(pw[0]) && IsUpper(pw[9]) && IsDigit(pw[11]);
    CompositionSplitLines(pw, 8);
  }

  /** Without that proviso the service can refuse what the form accepted:
      every form with the split password and otherwise acceptable fields. */
  lemma AcceptedFormRefusedAcrossLines(d: SignupData)
    requires Name(d.firstName, "First name") == "" && Name(d.lastName, "Last name") == ""
    requires Email(d.email) == "" && Phone(d.phone) == "" && Role(d.role, SignupRoles) == ""
    requires d.password == SplitPassword && d.confirmPassword == SplitPassword
    ensures NoErrors(ValidateForm(d, true))
    ensures ValidateRegistration(Payload(d)) == Err(PasswordComposition)
  {
    FormAccepts(d, true);
    SplitPasswordFacts();
    NameAccepted(d.firstName, "First name");
    NameAccepted(d.lastName, "Last name");
    NormalizedEmailAccepted(d.email);
    RegistrationRefused(Payload(d));
  }

  /** The service's checks up to the password's composition. */
  lemma RegistrationRefused(r: Registration)
    requires r.firstName != "" && r.lastName != "" && r.email != "" && EmailShape(r.email)
    requires |r.password| >= 8 && !Composition(r.password)
    ensures ValidateRegistration(r) == Err(PasswordComposition)
  {
  }

  /** `formData[name] = value` for a text input. */
  function WithField(d: SignupData, name: Field, value: string): (r: SignupData)
    requires name in InputNames
    ensures r.role == d.role
    ensures name == FirstName ==> r == d.(firstName := value)
    ensures name == LastName ==> r == d.(lastName := value)
    ensures name == EmailField ==> r == d.(email := value)
    ensures name == PhoneField ==> r == d.(phone := value)
    ensures name == PasswordField ==> r == d.(password := value)
    ensures name == ConfirmPasswordField ==> r == d.(confirmPassword := value)
  {
    match name
    case FirstName => d.(firstName := value)
    case LastName => d.(lastName := value)
    case EmailField => d.(email := value)
    case PhoneField => d.(phone := value)
    case PasswordField => d.(password := value)
    case _ => d.(confirmPassword := value)
  }

  class SignupForm {
    var data: SignupData
    var formErrors: map<Field, string>
    var acceptTerms: bool
    /** The path passed to `navigate`, once it has been called. */
    var navigatedTo: Option<string>

    constructor ()
      ensures data == InitialData && formErrors == map[] && !acceptTerms && navigatedTo == None
    {
      data := InitialData;
      formErrors := map[];
      acceptTerms := false;
      navigatedTo := None;
    }

    /** `handleInputChange`: the value is stored sanitized. */
    method HandleInputChange(auth: AuthProvider, name: Field, value: string)
      requires name in InputNames
      modifies this, auth
      ensures data == WithField(old(data), name, Escape(value))
      ensures formErrors == ClearedField(old(formErrors), name)
      ensures auth.error == (if old(auth.error).Some? && old(auth.error).value != "" then None else old(auth.error))
      ensures auth.user == old(auth.user) && auth.loading == old(auth.loading)
      ensures acceptTerms == old(acceptTerms) && navigatedTo == old(navigatedTo)
    {
      SanitizeIsEscape(value);
      var sanitizedValue := Sanitize(value);
      data := WithField(data, name, sanitizedValue);
      formErrors := ClearedField(formErrors, name);
      if auth.error.Some? && auth.error.value != "" {
        auth.SetError(None);
      }
    }

    /** `handleRoleChange`: the role is stored as given, unsanitized. */
    method HandleRoleChange(role: string)
      modifies this
      ensures data == old(data).(role := role)
      ensures formErrors == ClearedField(old(formErrors), RoleField)
      ensures acceptTerms == old(acceptTerms) && navigatedTo == old(navigatedTo)
    {
      data := data.(role := role);
      formErrors := ClearedField(formErrors, RoleField);
    }

    /** The terms checkbox's `setAcceptTerms(e.target.checked)`. */
    method SetAcceptTerms(checked: bool)
      modifies this
      ensures acceptTerms == checked
      ensures data == old(data) && formErrors == old(formErrors) && navigatedTo == old(navigatedTo)
    {
      acceptTerms := checked;
    }

    /** The component's `validateForm()`: records the error map and says
        whether it holds no message. */
    method CheckForm() returns (valid: bool)
      modifies this
      ensures formErrors == ValidateForm(data, acceptTerms)
      ensures valid <==> NoErrors(formErrors)
      ensures data == old(data) && acceptTerms == old(acceptTerms) && navigatedTo == old(navigatedTo)
    {
      var errors := ValidateForm(data, acceptTerms);
      formErrors := errors;
      valid := NoErrors(errors);
    }

    /** `handleSubmit`, given the outcomes of the remote calls of
        registering and of the `getCurrentUser` that follows. */
    method HandleSubmit(auth: AuthProvider, created: Result<Account, ErrorInfo>, session: Result<string, ErrorInfo>,
                        profileStored: bool, current: Result<Account, ErrorInfo>, profile: Option<Profile>)
      modifies this, auth
      ensures data == old(data) && acceptTerms == old(acceptTerms)
      ensures formErrors == ValidateForm(data, acceptTerms)
      // an invalid form registers nothing
      ensures !NoErrors(formErrors) ==>
        && auth.user == old(auth.user) && auth.loading == old(auth.loading) && auth.error == old(auth.error)
        && navigatedTo == old(navigatedTo)
      ensures var r := AuthService.Register(Payload(data), created, session, profileStored);
        NoErrors(formErrors) ==>
          && !auth.loading
          && (r.Ok? ==> navigatedTo == Some("/dashboard") && auth.user == CurrentUser(current, profile)
                        && auth.error == None)
          && (r.Err? ==> navigatedTo == old(navigatedTo) && auth.user == old(auth.user) && auth.error == Some(r.error))
    {
      var valid := CheckForm();
      if !valid {
        return;
      }
      var result := auth.Register(Payload(data), created, session, profileStored, current, profile);
      if result.Ok? {
        navigatedTo := Some("/dashboard");
      }
    }
  }
}
