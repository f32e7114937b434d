/** `getPasswordStrength`, which `src/pages/auth/Signup.jsx` and
    `src/pages/auth/ResetPassword.jsx` each define with the same body: one
    point for each of five independent criteria, and a label and colour per
    score. */
module PasswordStrength {
  import opened Text
  import Validation

  /** A character of `[!@#$%^&*]`. */
  predicate IsSymbol(c: char) { c in {'!', '@', '#', '$', '%', '^', '&', '*'} }

  predicate HasSymbol(s: string) { exists k | 0 <= k < |s| :: IsSymbol(s[k]) }

  function Point(b: bool): (n: nat)
    ensures n <= 1 && (n == 1 <==> b)
  {
    if b then 1 else 0
  }

  /** The `strength` counter: 0 for an empty password, else the number of
      criteria met. */
  function Score(password: string): (n: nat)
    ensures n <= 5
    ensures password == "" ==> n == 0
    ensures n == 5 <==> |password| >= 8 && HasLower(password) && HasUpper(password) && HasDigit(password) &&
                        HasSymbol(password)
    // a short password cannot rate above 4
    ensures |password| < 8 ==> n <= 4
  {
    if password == "" then 0
    else
      Point(|password| >= 8) + Point(HasLower(password)) + Point(HasUpper(password)) +
      Point(HasDigit(password)) + Point(HasSymbol(password))
  }

  /** `{ strength, label, color }`, with the label as `caption`. */
  datatype Rating = Rating(strength: nat, caption: string, color: string)

  /** The `strengthMap` entry of each score. */
  function Rate(password: string): (r: Rating)
    ensures r.strength == Score(password)
    ensures password == "" ==> r == Rating(0, "", "bg-gray-200")
    ensures password != "" ==> r.caption != ""
    ensures password != "" && r.strength >= 4 ==> r.caption in {"Strong", "Very Strong"}
  {
    if password == "" then Rating(0, "", "bg-gray-200")
    else
      var n := Score(password);
      match n
      case 0 => Rating(n, "Very Weak", "bg-red-500")
      case 1 => Rating(n, "Weak", "bg-red-400")
      case 2 => Rating(n, "Fair", "bg-yellow-400")
      case 3 => Rating(n, "Good", "bg-blue-500")
      case 4 => Rating(n, "Strong", "bg-green-500")
      case 5 => Rating(n, "Very Strong", "bg-green-600")
  }

  /** A password the form's validator accepts rates at least "Strong"; the
      meter's fifth point, a symbol, is not required by the validator. */
  lemma AcceptedIsStrong(password: string)
    requires Validation.Password(password) == ""
    ensures Score(password) >= 4
    ensures Rate(password).caption in {"Strong", "Very Strong"}
  {
  }

  /** A password can score "Very Strong" and still be rejected for its
      length, since the meter has no upper bound. */
  lemma VeryStrongNotAccepted()
    ensures var p := "aA1!" + seq(125, k => 'x'); Score(p) == 5 && Validation.Password(p) != ""
  {
    var p := "aA1!" + seq(125, k => 'x');
    assert IsLower(p[0]) && IsUpper(p[1]) && IsDigit(p[2]) && IsSymbol(p[3]);
  }
}
