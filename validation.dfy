/** The field validators and the input sanitizer of `src/utils/validation.js`.

    Every validator is total: it returns "" when the value is acceptable and
    otherwise the message of the first check that fails.  Each regular
    expression of the source is spelled out as a predicate over characters. */
module Validation {
  import opened Text

  const EmailRequired := "Email is required"
  const EmailInvalid := "Please enter a valid email address"
  const EmailTooLong := "Email must be less than 255 characters"

  const PasswordRequired := "Password is required"
  const PasswordTooShort := "Password must be at least 8 characters long"
  const PasswordTooLong := "Password must be less than 128 characters"
  const PasswordNoLower := "Password must contain at least one lowercase letter"
  const PasswordNoUpper := "Password must contain at least one uppercase letter"
  const PasswordNoDigit := "Password must contain at least one number"

  const ConfirmRequired := "Please confirm your password"
  const ConfirmMismatch := "Passwords do not match"

  const PhoneInvalid := "Please enter a valid phone number"

  const RoleRequired := "Role is required"
  const RoleInvalid := "Invalid role selected"

  // ---------------------------------------------------------------- email

  /** A character of the class `[^\s@]`. */
  predicate Plain(c: char) { !IsWhitespace(c) && c != '@' }

  /** Every character of `s` but the one at `at` is in `[^\s@]`. */
  predicate PlainExcept(s: string, at: int) {
    forall k | 0 <= k < |s| && k != at :: Plain(s[k])
  }

  /** After the `@` at index `at` there is a dot with at least one character
      on each side of it. */
  predicate DotInDomain(s: string, at: nat) {
    exists j | at + 2 <= j <= |s| - 2 :: s[j] == '.'
  }

  /** The language of `/^[^\s@]+@[^\s@]+\.[^\s@]+$/`: a non-empty local part,
      one `@`, and a domain holding an inner dot, none of them containing
      whitespace or a second `@`. */
  predicate EmailShape(s: string) {
    exists at | 0 < at < |s| :: s[at] == '@' && PlainExcept(s, at) && DotInDomain(s, at)
  }

  /** `validation.email`. */
  function Email(email: string): (msg: string)
    ensures msg == "" <==> email != "" && EmailShape(email) && |email| <= 255
  {
    if email == "" then EmailRequired
    else if !EmailShape(email) then EmailInvalid
    else if |email| > 255 then EmailTooLong
    else ""
  }

  /** The messages of `validation.email`, in the order its checks run. */
  lemma EmailMessages(email: string)
    ensures Email(email) == EmailRequired <==> email == ""
    ensures Email(email) == EmailInvalid <==> email != "" && !EmailShape(email)
    // the length is only looked at once the shape is right
    ensures Email(email) == EmailTooLong <==> EmailShape(email) && |email| > 255
  {
  }

  /** An email-shaped string has one `@`, no whitespace, and at least five
      characters (`a@b.c`). */
  lemma {:induction false} EmailShapeFacts(s: string)
    requires EmailShape(s)
    ensures |s| >= 5
    ensures NoWhitespace(s)
    ensures forall k, m | 0 <= k < m < |s| :: !(s[k] == '@' && s[m] == '@')
  {
    var at :| 0 < at < |s| && s[at] == '@' && PlainExcept(s, at) && DotInDomain(s, at);
    var j :| at + 2 <= j <= |s| - 2 && s[j] == '.';
    forall k | 0 <= k < |s| ensures !IsWhitespace(s[k]) {
      if k != at { assert Plain(s[k]); }
    }
  }

  /** A lowercase ASCII letter is in `[^\s@]`. */
  lemma LowerIsPlain(c: char)
    requires Plain(c)
    ensures Plain(LowerChar(c))
  {
    if IsUpper(c) {
      assert IsLower(LowerChar(c));
    }
  }

  /** The sign-up and reset forms submit `email.trim().toLowerCase()`: an
      address the validator accepts keeps its shape and stays non-empty, and
      only its letters' case changes. */
  lemma {:induction false} NormalizedEmailAccepted(s: string)
    requires Email(s) == ""
    ensures ToLower(Trim(s)) == ToLower(s)
    ensures ToLower(Trim(s)) != "" && EmailShape(ToLower(Trim(s)))
  {
    EmailShapeFacts(s);
    TrimNoWhitespace(s);
    var at :| 0 < at < |s| && s[at] == '@' && PlainExcept(s, at) && DotInDomain(s, at);
    var j :| at + 2 <= j <= |s| - 2 && s[j] == '.';
    var t := ToLower(s);
    assert t[at] == '@' && t[j] == '.';
    forall k | 0 <= k < |t| && k != at ensures Plain(t[k]) {
      assert Plain(s[k]);
      LowerIsPlain(s[k]);
    }
    assert DotInDomain(t, at);
    assert EmailShape(t);
  }

  // ------------------------------------------------------------- password

  /** `validation.password`. */
  function Password(password: string): (msg: string)
    ensures msg == "" <==>
      8 <= |password| <= 128 && HasLower(password) && HasUpper(password) && HasDigit(password)
  {
    if password == "" then PasswordRequired
    else if |password| < 8 then PasswordTooShort
    else if |password| > 128 then PasswordTooLong
    else if !HasLower(password) then PasswordNoLower
    else if !HasUpper(password) then PasswordNoUpper
    else if !HasDigit(password) then PasswordNoDigit
    else ""
  }

  /** The messages of `validation.password`, in the order its checks run. */
  lemma PasswordMessages(password: string)
    ensures Password(password) == PasswordRequired <==> password == ""
    ensures Password(password) == PasswordTooShort <==> 0 < |password| < 8
    ensures Password(password) == PasswordTooLong <==> |password| > 128
    // the character classes are looked at only for a string of acceptable length
    ensures Password(password) == PasswordNoLower <==> 8 <= |password| <= 128 && !HasLower(password)
    ensures Password(password) == PasswordNoUpper <==>
      8 <= |password| <= 128 && HasLower(password) && !HasUpper(password)
    ensures Password(password) == PasswordNoDigit <==>
      8 <= |password| <= 128 && HasLower(password) && HasUpper(password) && !HasDigit(password)
  {
  }

  /** `validation.confirmPassword`. */
  function ConfirmPassword(password: string, confirmPassword: string): (msg: string)
    ensures msg == "" <==> confirmPassword != "" && confirmPassword == password
  {
    if confirmPassword == "" then ConfirmRequired
    else if password != confirmPassword then ConfirmMismatch
    else ""
  }

  /** The messages of `validation.confirmPassword`. */
  lemma ConfirmPasswordMessages(password: string, confirmPassword: string)
    // an empty confirmation is reported as missing even when it also differs
    ensures confirmPassword == "" ==> ConfirmPassword(password, confirmPassword) == ConfirmRequired
    ensures ConfirmPassword(password, confirmPassword) == ConfirmMismatch <==>
      confirmPassword != "" && confirmPassword != password
  {
  }

  // ----------------------------------------------------------------- name

  /** A character of the class `[a-zA-Z\s'-]`. */
  predicate NameChar(c: char) { IsLetter(c) || IsWhitespace(c) || c == '\'' || c == '-' }

  predicate AllNameChars(s: string) { forall k | 0 <= k < |s| :: NameChar(s[k]) }

  function NameRequired(fieldName: string): string { fieldName + " is required" }
  function NameTooShort(fieldName: string): string { fieldName + " must be at least 2 characters long" }
  function NameTooLong(fieldName: string): string { fieldName + " must be less than 50 characters" }
  function NameInvalid(fieldName: string): string { fieldName + " contains invalid characters" }

  /** `validation.name`: the required check looks at the raw value, the
      length and character checks at the trimmed value. */
  function Name(name: string, fieldName: string): (msg: string)
    ensures msg == "" <==> 2 <= |Trim(name)| <= 50 && AllNameChars(Trim(name))
  {
    if name == "" then NameRequired(fieldName)
    else
      var trimmed := Trim(name);
      if |trimmed| < 2 then NameTooShort(fieldName)
      else if |trimmed| > 50 then NameTooLong(fieldName)
      else if !AllNameChars(trimmed) then NameInvalid(fieldName)
      else ""
  }

  /** The messages of `validation.name`. */
  lemma NameMessages(name: string, fieldName: string)
    ensures Name(name, fieldName) == NameRequired(fieldName) <==> name == ""
    ensures Name(name, fieldName) == NameTooShort(fieldName) <==> name != "" && |Trim(name)| < 2
    ensures Name(name, fieldName) == NameTooLong(fieldName) <==> |Trim(name)| > 50
    ensures Name(name, fieldName) == NameInvalid(fieldName) <==>
      2 <= |Trim(name)| <= 50 && !AllNameChars(Trim(name))
  {
  }

  /** A name of 2 to 50 letters, apostrophes and hyphens, with no
      whitespace, is accepted as it is. */
  lemma PlainNameAccepted(name: string, fieldName: string)
    requires 2 <= |name| <= 50 && NoWhitespace(name) && AllNameChars(name)
    ensures Trim(name) == name && Name(name, fieldName) == ""
  {
    TrimNoWhitespace(name);
  }

  /** A name made only of whitespace is present, so it is reported as too
      short rather than as missing. */
  lemma WhitespaceNameTooShort(name: string, fieldName: string)
    requires name != "" && AllWhitespace(name)
    ensures Name(name, fieldName) == NameTooShort(fieldName)
  {
    TrimEmptyIff(name);
  }

  // ---------------------------------------------------------------- phone

  /** A character of the class `[\d\s\-\(\)]`. */
  predicate PhoneChar(c: char) { IsDigit(c) || IsWhitespace(c) || c == '-' || c == '(' || c == ')' }

  /** `/^[\+]?[1-9][\d\s\-\(\)]{7,15}$/`: an optional `+`, then a digit 1-9,
      then 7 to 15 digits, whitespace, hyphens or parentheses. */
  predicate PhoneShape(s: string) {
    var start := if |s| > 0 && s[0] == '+' then 1 else 0;
    && 8 <= |s| - start <= 16
    && '1' <= s[start] <= '9'
    && forall k | start < k < |s| :: PhoneChar(s[k])
  }

  /** `validation.phone`: the phone number is optional. */
  function Phone(phone: string): (msg: string)
    ensures msg == "" <==> phone == "" || PhoneShape(phone)
  {
    if phone == "" then ""
    else if !PhoneShape(phone) then PhoneInvalid
    else ""
  }

  /** The message of `validation.phone` and the length of an accepted number. */
  lemma PhoneMessages(phone: string)
    ensures Phone(phone) != "" ==> Phone(phone) == PhoneInvalid
    ensures Phone(phone) == "" && phone != "" ==> 8 <= |phone| <= 17
  {
  }

  // ----------------------------------------------------------------- role

  /** `validation.role(role, allowedRoles)`. */
  function Role(role: string, allowedRoles: seq<string>): (msg: string)
    ensures msg == "" <==> role != "" && role in allowedRoles
  {
    if role == "" then RoleRequired
    else if role !in allowedRoles then RoleInvalid
    else ""
  }

  /** The messages of `validation.role`. */
  lemma RoleMessages(role: string, allowedRoles: seq<string>)
    ensures role == "" ==> Role(role, allowedRoles) == RoleRequired
    ensures Role(role, allowedRoles) == RoleInvalid <==> role != "" && role !in allowedRoles
  {
  }

  // ---------------------------------------------------------------- forms

  /** `Object.values(errors).every((error) => !error)`: every message of a
      form's error map is empty. */
  predicate NoErrors<K>(errors: map<K, string>) {
    forall name | name in errors :: errors[name] == ""
  }

  /** What every page's `handleInputChange` does to its error map:
      `if (formErrors[name]) setFormErrors({ ...prev, [name]: "" })`.  The
      typed field's message becomes empty; no key is added, and every other
      message stays. */
  function ClearedField<K(==)>(errors: map<K, string>, name: K): (r: map<K, string>)
    ensures r.Keys == errors.Keys
    ensures name in errors ==> r[name] == ""
    ensures forall other | other in errors && other != name :: r[other] == errors[other]
  {
    if name in errors && errors[name] != "" then errors[name := ""] else errors
  }

  // ------------------------------------------------------------- sanitize

  /** The five characters `sanitizeInput` rewrites. */
  predicate Special(c: char) { c == '<' || c == '>' || c == '"' || c == '\'' || c == '/' }

  predicate NoSpecial(s: string) { forall k | 0 <= k < |s| :: !Special(s[k]) }

  /** `s.replace(/t/g, entity)`: every occurrence of `target` replaced. */
  function ReplaceAll(s: string, target: char, entity: string): string {
    if s == [] then []
    else (if s[0] == target then entity else [s[0]]) + ReplaceAll(s[1..], target, entity)
  }

  /** A string without the target is left as it is. */
  lemma {:induction false} ReplaceAllAbsent(s: string, target: char, entity: string)
    requires target !in s
    ensures ReplaceAll(s, target, entity) == s
  {
    if s != [] {
      assert s == [s[0]] + s[1..];
      ReplaceAllAbsent(s[1..], target, entity);
    }
  }

  /** `sanitizeInput` on a string, as written: a chain of five global replaces. */
  function Sanitize(s: string): string {
    var s1 := ReplaceAll(s, '<', "&lt;");
    var s2 := ReplaceAll(s1, '>', "&gt;");
    var s3 := ReplaceAll(s2, '"', "&quot;");
    var s4 := ReplaceAll(s3, '\'', "&#x27;");
    ReplaceAll(s4, '/', "&#x2F;")
  }

  /** The entity each special character becomes; other characters stay. */
  function EscapeChar(c: char): (r: string)
    ensures NoSpecial(r)
    ensures !Special(c) ==> r == [c]
    ensures Special(c) ==> |r| >= 4 && r[0] == '&' && r[|r| - 1] == ';'
  {
    match c
    case '<' => "&lt;"
    case '>' => "&gt;"
    case '"' => "&quot;"
    case '\'' => "&#x27;"
    case '/' => "&#x2F;"
    case _ => [c]
  }

  /** Reference definition of sanitizing: one pass, character by character. */
  function Escape(s: string): (r: string)
    ensures NoSpecial(r)
    ensures NoSpecial(s) ==> r == s
    ensures |r| >= |s|
  {
    if s == [] then [] else EscapeChar(s[0]) + Escape(s[1..])
  }

  lemma {:induction false} ReplaceAllAppend(a: string, b: string, target: char, entity: string)
    ensures ReplaceAll(a + b, target, entity) == ReplaceAll(a, target, entity) + ReplaceAll(b, target, entity)
  {
    if a != [] {
      var head := if a[0] == target then entity else [a[0]];
      assert (a + b)[0] == a[0] && (a + b)[1..] == a[1..] + b;
      ReplaceAllAppend(a[1..], b, target, entity);
      calc {
        ReplaceAll(a + b, target, entity);
        head + ReplaceAll(a[1..] + b, target, entity);
        head + (ReplaceAll(a[1..], target, entity) + ReplaceAll(b, target, entity));
        (head + ReplaceAll(a[1..], target, entity)) + ReplaceAll(b, target, entity);
        ReplaceAll(a, target, entity) + ReplaceAll(b, target, entity);
      }
    } else {
      assert a + b == b;
    }
  }

  lemma SanitizeAppend(a: string, b: string)
    ensures Sanitize(a + b) == Sanitize(a) + Sanitize(b)
  {
    var a1, b1 := ReplaceAll(a, '<', "&lt;"), ReplaceAll(b, '<', "&lt;");
    ReplaceAllAppend(a, b, '<', "&lt;");
    var a2, b2 := ReplaceAll(a1, '>', "&gt;"), ReplaceAll(b1, '>', "&gt;");
    ReplaceAllAppend(a1, b1, '>', "&gt;");
    var a3, b3 := ReplaceAll(a2, '"', "&quot;"), ReplaceAll(b2, '"', "&quot;");
    ReplaceAllAppend(a2, b2, '"', "&quot;");
    var a4, b4 := ReplaceAll(a3, '\'', "&#x27;"), ReplaceAll(b3, '\'', "&#x27;");
    ReplaceAllAppend(a3, b3, '\'', "&#x27;");
    ReplaceAllAppend(a4, b4, '/', "&#x2F;");
  }

  /** One replace applied to a single character, or to text without its target. */
  lemma ReplaceStep(prev: string, c: char, target: char, entity: string)
    requires prev == [c] || target !in prev
    ensures ReplaceAll(prev, target, entity) == if prev == [c] && c == target then entity else prev
  {
    if prev == [c] {
      assert prev[1..] == [];
    } else {
      ReplaceAllAbsent(prev, target, entity);
    }
  }

  /** On one character the replace chain gives that character's entity: no
      entity written by an earlier replace holds a later replace's target. */
  lemma SanitizeChar(c: char)
    ensures Sanitize([c]) == EscapeChar(c)
  {
    if c == '<' {
      assert ReplaceAll([c], '<', "&lt;") == "&lt;" by { ReplaceStep([c], c, '<', "&lt;"); }
      ReplaceLaterSteps("&lt;");
    } else if c == '>' {
      ReplaceAllAbsent([c], '<', "&lt;");
      assert ReplaceAll([c], '>', "&gt;") == "&gt;" by { ReplaceStep([c], c, '>', "&gt;"); }
      ReplaceLaterSteps("&gt;");
    } else if c == '"' {
      ReplaceAllAbsent([c], '<', "&lt;");
      ReplaceAllAbsent([c], '>', "&gt;");
      assert ReplaceAll([c], '"', "&quot;") == "&quot;" by { ReplaceStep([c], c, '"', "&quot;"); }
      ReplaceLaterSteps("&quot;");
    } else if c == '\'' {
      ReplaceAllAbsent([c], '<', "&lt;");
      ReplaceAllAbsent([c], '>', "&gt;");
      ReplaceAllAbsent([c], '"', "&quot;");
      assert ReplaceAll([c], '\'', "&#x27;") == "&#x27;" by { ReplaceStep([c], c, '\'', "&#x27;"); }
      ReplaceLaterSteps("&#x27;");
    } else {
      ReplaceAllAbsent([c], '<', "&lt;");
      ReplaceAllAbsent([c], '>', "&gt;");
      ReplaceAllAbsent([c], '"', "&quot;");
      ReplaceAllAbsent([c], '\'', "&#x27;");
      ReplaceStep([c], c, '/', "&#x2F;");
    }
  }

  /** Text without special characters, such as an entity, passes the later
      replaces of the chain unchanged. */
  lemma ReplaceLaterSteps(text: string)
    requires NoSpecial(text)
    ensures ReplaceAll(text, '>', "&gt;") == text
    ensures ReplaceAll(text, '"', "&quot;") == text
    ensures ReplaceAll(text, '\'', "&#x27;") == text
    ensures ReplaceAll(text, '/', "&#x2F;") == text
  {
    assert forall t | Special(t) :: t !in text;
    ReplaceAllAbsent(text, '>', "&gt;");
    ReplaceAllAbsent(text, '"', "&quot;");
    ReplaceAllAbsent(text, '\'', "&#x27;");
    ReplaceAllAbsent(text, '/', "&#x2F;");
  }

  /** The replace chain of the source equals the one-pass escape. */
  lemma {:induction false} SanitizeIsEscape(s: string)
    ensures Sanitize(s) == Escape(s)
  {
    if s != [] {
      assert s == [s[0]] + s[1..];
      SanitizeAppend([s[0]], s[1..]);
      SanitizeChar(s[0]);
      SanitizeIsEscape(s[1..]);
    }
  }

  /** Sanitized text holds none of the five special characters, and text
      without them passes through unchanged. */
  lemma SanitizeRemovesSpecials(s: string)
    ensures NoSpecial(Sanitize(s))
    ensures NoSpecial(s) ==> Sanitize(s) == s
  {
    SanitizeIsEscape(s);
  }

  /** Sanitizing twice is sanitizing once: `&` is never escaped and the
      entities hold no special character. */
  lemma SanitizeIdempotent(s: string)
    ensures Sanitize(Sanitize(s)) == Sanitize(s)
  {
    SanitizeIsEscape(s);
    SanitizeIsEscape(Sanitize(s));
  }

  /** Because `&` is left alone, a literal entity and the character it stands
      for sanitize to the same text: sanitized text cannot be decoded back. */
  lemma SanitizeNotInjective()
    ensures Sanitize("<") == Sanitize("&lt;") && "<" != "&lt;"
  {
    SanitizeIsEscape("<");
    SanitizeIsEscape("&lt;");
    assert NoSpecial("&lt;");
  }

  /** `s` begins with `prefix`. */
  predicate StartsWith(s: string, prefix: string) {
    |prefix| <= |s| && s[..|prefix|] == prefix
  }

  /** Decoding of the five entities `sanitizeInput` writes, the way a browser
      shows them: each entity becomes its character, and everything else,
      including any other `&`, is kept. */
  function Unescape(s: string): (r: string)
    ensures '&' !in s ==> r == s
    decreases |s|
  {
    if s == [] then []
    else if s[0] != '&' then [s[0]] + Unescape(s[1..])
    else if StartsWith(s, "&lt;") then "<" + Unescape(s[4..])
    else if StartsWith(s, "&gt;") then ">" + Unescape(s[4..])
    else if StartsWith(s, "&quot;") then "\"" + Unescape(s[6..])
    else if StartsWith(s, "&#x27;") then "'" + Unescape(s[6..])
    else if StartsWith(s, "&#x2F;") then "/" + Unescape(s[6..])
    else "&" + Unescape(s[1..])
  }

  /** A character other than `&` is kept by decoding. */
  lemma UnescapePlain(c: char, rest: string)
    requires c != '&'
    ensures Unescape([c] + rest) == [c] + Unescape(rest)
  {
    assert ([c] + rest)[0] == c && ([c] + rest)[1..] == rest;
  }

  /** Each entity decodes back to the special character it stands for. */
  lemma UnescapeEntity(c: char, rest: string)
    requires Special(c)
    ensures Unescape(EscapeChar(c) + rest) == [c] + Unescape(rest)
  {
    var e := EscapeChar(c);
    var s := e + rest;
    assert s[..|e|] == e && s[|e|..] == rest && s[0] == '&';
    if c == '<' {
      assert StartsWith(s, "&lt;");
    } else if c == '>' {
      assert !StartsWith(s, "&lt;") by { assert s[1] == 'g'; }
      assert StartsWith(s, "&gt;");
    } else if c == '"' {
      assert !StartsWith(s, "&lt;") && !StartsWith(s, "&gt;") by { assert s[1] == 'q'; }
      assert StartsWith(s, "&quot;");
    } else if c == '\'' {
      assert !StartsWith(s, "&lt;") && !StartsWith(s, "&gt;") && !StartsWith(s, "&quot;") by { assert s[1] == '#'; }
      assert StartsWith(s, "&#x27;");
    } else {
      assert !StartsWith(s, "&lt;") && !StartsWith(s, "&gt;") && !StartsWith(s, "&quot;") by { assert s[1] == '#'; }
      assert !StartsWith(s, "&#x27;") by { assert s[4] == 'F'; }
      assert StartsWith(s, "&#x2F;");
    }
  }

  /** Decoding undoes the one-pass escape on text without `&`. */
  lemma {:induction false} UnescapeEscape(s: string)
    requires forall i | 0 <= i < |s| :: s[i] != '&'
    ensures Unescape(Escape(s)) == s
  {
    if s != [] {
      UnescapeEscape(s[1..]);
      if Special(s[0]) {
        UnescapeEntity(s[0], Escape(s[1..]));
      } else {
        UnescapePlain(s[0], Escape(s[1..]));
      }
      assert s == [s[0]] + s[1..];
    }
  }

  /** Sanitized text without `&` decodes back to the text as typed: the
      browser shows what the user entered. `SanitizeNotInjective` is why the
      requirement is needed. */
  lemma SanitizeRoundTrip(s: string)
    requires forall i | 0 <= i < |s| :: s[i] != '&'
    ensures Unescape(Sanitize(s)) == s
  {
    SanitizeIsEscape(s);
    UnescapeEscape(s);
  }

  /** A JavaScript value reaching `sanitizeInput`: a string, or anything else
      (number, object, `null`, ...), identified by an opaque tag. */
  datatype InputValue = StringValue(s: string) | OtherValue(tag: nat)

  /** `security.sanitizeInput`. */
  function SanitizeInput(input: InputValue): (r: InputValue)
    ensures !input.StringValue? ==> r == input
    ensures input.StringValue? ==> r.StringValue? && r.s == Escape(input.s) && NoSpecial(r.s)
  {
    match input
    case StringValue(s) =>
      SanitizeIsEscape(s);
      StringValue(Sanitize(s))
    case OtherValue(_) => input
  }
}
