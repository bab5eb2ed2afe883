/** The field checks shared by the sign-up and sign-in forms: the email
    pattern `\S+@\S+\.\S+`, the password pattern `(?=.*[a-z])(?=.*[A-Z])(?=.*\d)`,
    and the one message each field may carry. */
module FormRules {
  import opened Domain
  import opened Strings

  /** `s[i..j]` is a non-empty run of non-whitespace characters (`\S+`). */
  predicate NonSpaceRun(s: string, i: int, j: int) {
    0 <= i < j <= |s| && forall k | i <= k < j :: !IsSpace(s[k])
  }

  /** A non-space run starts just after position `b` and ends at `e`. */
  predicate RunAfter(s: string, b: int, e: int) {
    NonSpaceRun(s, b + 1, e)
  }

  /** What `/\S+@\S+\.\S+/.test(s)` means: some substring `s[i..e]` is a
      non-space run, an `@`, a non-space run, a `.` and a non-space run. */
  ghost predicate EmailPattern(s: string)
    ensures EmailPattern(s) ==> |s| >= 5 && '@' in s && '.' in s
  {
    exists a, b | 0 <= a < b < |s| ::
      s[a] == '@' && s[b] == '.' && NonSpaceRun(s, a + 1, b)
      && (exists i :: NonSpaceRun(s, i, a))
      && (exists e :: RunAfter(s, b, e))
  }

  /** The same test with the outer runs cut to one character: a non-space
      character, `@`, a non-space run ending just before a `.`, and one
      non-space character after it. */
  predicate EmailShape(s: string, a: int, b: int) {
    1 <= a && a + 1 < b && b + 1 < |s|
    && !IsSpace(s[a - 1]) && s[a] == '@'
    && NonSpaceRun(s, a + 1, b) && s[b] == '.' && !IsSpace(s[b + 1])
  }

  /** The regular-expression test, decided by looking for an `@` and a `.`. */
  function MatchesEmail(s: string): (ok: bool)
    ensures ok <==> EmailPattern(s)
  {
    EmailShapeIffPattern(s);
    exists a, b | 0 <= a < b < |s| :: EmailShape(s, a, b)
  }

  /** A match of the pattern and a match of the cut-down shape imply each other. */
  lemma EmailShapeIffPattern(s: string)
    ensures (exists a, b | 0 <= a < b < |s| :: EmailShape(s, a, b)) <==> EmailPattern(s)
  {
    if exists a, b | 0 <= a < b < |s| :: EmailShape(s, a, b) {
      var a, b :| 0 <= a < b < |s| && EmailShape(s, a, b);
      assert NonSpaceRun(s, a - 1, a) && RunAfter(s, b, b + 2);
    }
    if EmailPattern(s) {
      var a, b :| 0 <= a < b < |s| && s[a] == '@' && s[b] == '.' && NonSpaceRun(s, a + 1, b)
        && (exists i :: NonSpaceRun(s, i, a)) && (exists e :: RunAfter(s, b, e));
      var i :| NonSpaceRun(s, i, a);
      var e :| RunAfter(s, b, e);
      assert EmailShape(s, a, b);
    }
  }

  /** Some character of `s` is in the class `cls`. */
  predicate HasCharIn(s: string, cls: char -> bool) {
    exists k | 0 <= k < |s| :: cls(s[k])
  }

  /** `(?=.*C)` at position `p`: a character of class `C` follows `p` on the same line. */
  predicate LookaheadAt(s: string, p: int, cls: char -> bool) {
    exists k | 0 <= p <= k < |s| :: cls(s[k]) && forall m | p <= m < k :: !IsLineTerminator(s[m])
  }

  /** What `/(?=.*[a-z])(?=.*[A-Z])(?=.*\d)/.test(s)` means: from some
      position, all three lookaheads succeed. */
  predicate MeetsComplexity(s: string)
    ensures MeetsComplexity(s) ==> |s| >= 3
  {
    exists p | 0 <= p <= |s| :: LookaheadAt(s, p, IsLower) && LookaheadAt(s, p, IsUpper) && LookaheadAt(s, p, IsDigit)
  }

  /** On a single line, the lookaheads ask exactly for a lowercase letter, an
      uppercase letter and a digit, anywhere and in any order. */
  lemma ComplexityOnOneLine(s: string)
    requires forall k | 0 <= k < |s| :: !IsLineTerminator(s[k])
    ensures MeetsComplexity(s) <==> HasCharIn(s, IsLower) && HasCharIn(s, IsUpper) && HasCharIn(s, IsDigit)
  {
    if HasCharIn(s, IsLower) && HasCharIn(s, IsUpper) && HasCharIn(s, IsDigit) {
      assert LookaheadAt(s, 0, IsLower) && LookaheadAt(s, 0, IsUpper) && LookaheadAt(s, 0, IsDigit);
    }
    if MeetsComplexity(s) {
      var p :| 0 <= p <= |s| && LookaheadAt(s, p, IsLower) && LookaheadAt(s, p, IsUpper) && LookaheadAt(s, p, IsDigit);
      var kl :| p <= kl < |s| && IsLower(s[kl]);
      var ku :| p <= ku < |s| && IsUpper(s[ku]);
      var kd :| p <= kd < |s| && IsDigit(s[kd]);
      assert HasCharIn(s, IsLower) && HasCharIn(s, IsUpper) && HasCharIn(s, IsDigit);
    }
  }

  /** Whatever the line breaks, a password that passes has all three kinds of character. */
  lemma ComplexityNeedsAllThree(s: string)
    requires MeetsComplexity(s)
    ensures HasCharIn(s, IsLower) && HasCharIn(s, IsUpper) && HasCharIn(s, IsDigit)
  {
    var p :| 0 <= p <= |s| && LookaheadAt(s, p, IsLower) && LookaheadAt(s, p, IsUpper) && LookaheadAt(s, p, IsDigit);
    var kl :| p <= kl < |s| && IsLower(s[kl]);
    var ku :| p <= ku < |s| && IsUpper(s[ku]);
    var kd :| p <= kd < |s| && IsDigit(s[kd]);
  }

  const NameRequired := "Name is required"
  const NameTooShort := "Name must be at least 2 characters"
  const EmailRequired := "Email is required"
  const EmailInvalid := "Email is invalid"
  const PasswordRequired := "Password is required"
  const PasswordTooShort := "Password must be at least 6 characters"
  const PasswordTooWeak := "Password must contain uppercase, lowercase, and number"
  const ConfirmRequired := "Please confirm your password"
  const ConfirmMismatch := "Passwords do not match"
  const TermsRequired := "You must accept the Terms and Conditions"

  /** The name check: on the trimmed name, empty, then shorter than two. */
  function NameError(name: string): (e: Option<string>)
    ensures e == Some(NameRequired) <==> AllSpace(name)
    ensures e == Some(NameTooShort) <==> |Trim(name)| == 1
    ensures e.None? <==> |Trim(name)| >= 2
  {
    TrimEmptyIffAllSpace(name);
    var t := Trim(name);
    if t == [] then Some(NameRequired)
    else if |t| < 2 then Some(NameTooShort)
    else None
  }

  /** The email check: empty, then not matching the pattern. */
  function EmailError(email: string): (e: Option<string>)
    ensures e == Some(EmailRequired) <==> email == ""
    ensures e == Some(EmailInvalid) <==> email != "" && !EmailPattern(email)
    ensures e.None? <==> EmailPattern(email)
  {
    if email == "" then Some(EmailRequired)
    else if !MatchesEmail(email) then Some(EmailInvalid)
    else None
  }

  /** The sign-up password check: empty, then shorter than six, then lacking a kind of character. */
  function RegisterPasswordError(password: string): (e: Option<string>)
    ensures e == Some(PasswordRequired) <==> password == ""
    ensures e == Some(PasswordTooShort) <==> 0 < |password| < 6
    ensures e == Some(PasswordTooWeak) <==> |password| >= 6 && !MeetsComplexity(password)
    ensures e.None? <==> |password| >= 6 && MeetsComplexity(password)
  {
    if password == "" then Some(PasswordRequired)
    else if |password| < 6 then Some(PasswordTooShort)
    else if !MeetsComplexity(password) then Some(PasswordTooWeak)
    else None
  }

  /** The sign-in password check: empty, then shorter than six; no complexity rule. */
  function LoginPasswordError(password: string): (e: Option<string>)
    ensures e == Some(PasswordRequired) <==> password == ""
    ensures e == Some(PasswordTooShort) <==> 0 < |password| < 6
    ensures e.None? <==> |password| >= 6
  {
    if password == "" then Some(PasswordRequired)
    else if |password| < 6 then Some(PasswordTooShort)
    else None
  }

  /** The confirmation check: empty, then different from the password. */
  function ConfirmError(password: string, confirm: string): (e: Option<string>)
    ensures e == Some(ConfirmRequired) <==> confirm == ""
    ensures e == Some(ConfirmMismatch) <==> confirm != "" && confirm != password
    ensures e.None? <==> confirm != "" && confirm == password
  {
    if confirm == "" then Some(ConfirmRequired)
    else if password != confirm then Some(ConfirmMismatch)
    else None
  }

  function TermsError(accepted: bool): (e: Option<string>)
    ensures e.None? <==> accepted
    ensures e.Some? ==> e.value == TermsRequired
  {
    if accepted then None else Some(TermsRequired)
  }

  /** The property names of the forms' error objects. */
  datatype Field = Name | Email | Password | ConfirmPassword | TermsAccepted | Form

  /** `newErrors.k = message` when the check produced one. */
  function Record(errors: map<Field, string>, k: Field, e: Option<string>): (r: map<Field, string>)
    ensures e.Some? ==> r == errors[k := e.value]
    ensures e.None? ==> r == errors
  {
    if e.Some? then errors[k := e.value] else errors
  }
}
