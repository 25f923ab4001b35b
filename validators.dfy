/** The validation rules of the account layer (`src/auth/validators.py`).
    Every rule answers a pair `(is_valid, error_message)`; the message is
    empty exactly when the input is accepted. */
module Validators {
  import opened Wrappers
  import opened Values

  /** `(is_valid, error_message)` */
  type Verdict = (bool, string)

  const Accepted: Verdict := (true, "")

  const UsernameEmpty := "Username cannot be empty"
  const UsernameTooShort := "Username must be at least 3 characters long"
  const UsernameTooLong := "Username cannot exceed 30 characters"
  const UsernameShape := "Username must start with a letter and contain only letters, numbers, and underscores"
  const PasswordEmpty := "Password cannot be empty"
  const PasswordTooShort := "Password must be longer than 4 characters"
  const PasswordPadded := "Password cannot start or end with spaces"
  const PasswordMismatch := "Passwords do not match"
  const AdminRequired := "Admin permission required for this operation"

  predicate IsAsciiLetter(c: char) {
    'a' <= c <= 'z' || 'A' <= c <= 'Z'
  }

  /** A member of the class `[a-zA-Z0-9_]`. */
  predicate IsWordChar(c: char) {
    IsAsciiLetter(c) || IsDigit(c) || c == '_'
  }

  /** The whole text is `[a-zA-Z][a-zA-Z0-9_]*`. */
  predicate Identifier(s: string) {
    s != [] && IsAsciiLetter(s[0]) && forall i :: 1 <= i < |s| ==> IsWordChar(s[i])
  }

  /** `re.match(r'^[a-zA-Z][a-zA-Z0-9_]*$', s)` as Python's `re` evaluates
      it: without `re.MULTILINE`, `$` matches at the end of the text and
      also just before a newline that ends it. */
  predicate PatternAsWritten(s: string) {
    Identifier(s) || (s != [] && s[|s| - 1] == '\n' && Identifier(s[..|s| - 1]))
  }

  /** The checks of `validate_username`, in their order, with the pattern
      test as a parameter. */
  function UsernameChecks(username: string, pattern: string -> bool): Verdict {
    if username == [] then (false, UsernameEmpty)
    else if |username| < 3 then (false, UsernameTooShort)
    else if |username| > 30 then (false, UsernameTooLong)
    else if !pattern(username) then (false, UsernameShape)
    else Accepted
  }

  /** `validate_username` exactly as written. */
  function ValidateUsernameAsWritten(username: string): (r: Verdict)
    ensures r.0 <==> 3 <= |username| <= 30 && PatternAsWritten(username)
    ensures r.0 <==> r.1 == ""
  {
    UsernameChecks(username, PatternAsWritten)
  }

  /** `validate_username` with the pattern anchored at the very end of the
      text (`re.fullmatch`), the rule its documentation states. */
  function ValidateUsername(username: string): (r: Verdict)
    ensures r.0 <==> r.1 == ""
  {
    UsernameChecks(username, Identifier)
  }

  /** An accepted username is 3 to 30 characters long, starts with a letter
      and holds only letters, digits and underscores; every such name is
      accepted. */
  lemma UsernameRule(username: string)
    ensures ValidateUsername(username).0 <==>
              && 3 <= |username| <= 30
              && IsAsciiLetter(username[0])
              && (forall i :: 0 <= i < |username| ==> IsWordChar(username[i]))
  {
    if 3 <= |username| {
      assert IsWordChar(username[0]) <== IsAsciiLetter(username[0]);
    }
  }

  /** The pattern as written lets a name with a trailing newline through;
      the corrected rule refuses it. */
  lemma TrailingNewlineAccepted()
    ensures ValidateUsernameAsWritten("abc\n") == Accepted
    ensures ValidateUsername("abc\n") == (false, UsernameShape)
  {
    var s := "abc\n";
    assert s[..|s| - 1] == "abc";
    assert Identifier("abc");
    assert !IsWordChar(s[3]);
  }

  /** The two rules differ only on such names. */
  lemma AsWrittenDiffersOnlyOnNewline(username: string)
    requires ValidateUsernameAsWritten(username) != ValidateUsername(username)
    ensures username[|username| - 1] == '\n' && Identifier(username[..|username| - 1])
    ensures ValidateUsernameAsWritten(username) == Accepted
  {
  }

  /** `validate_password` */
  function ValidatePassword(password: string): (r: Verdict)
    ensures r.0 <==> r.1 == ""
  {
    if password == [] then (false, PasswordEmpty)
    else if |password| <= 4 then (false, PasswordTooShort)
    else if password != Strip(password) then (false, PasswordPadded)
    else Accepted
  }

  /** A password is accepted iff it is longer than four characters and
      neither begins nor ends with whitespace. */
  lemma PasswordRule(password: string)
    ensures ValidatePassword(password).0 <==>
              |password| > 4 && !IsSpace(password[0]) && !IsSpace(password[|password| - 1])
  {
    if |password| > 4 {
      if !IsSpace(password[0]) && !IsSpace(password[|password| - 1]) {
        StripUnpadded(password);
      } else if password == Strip(password) {
        StripNoEdgeSpace(password);
        assert false;
      }
    }
  }

  /** `validate_password_match` */
  function ValidatePasswordMatch(password: string, confirm: string): (r: Verdict)
    ensures r.0 <==> password == confirm
    ensures r.0 <==> r.1 == ""
  {
    if password != confirm then (false, PasswordMismatch) else Accepted
  }

  /** `validate_admin_permission` */
  function ValidateAdminPermission(isAdmin: bool): (r: Verdict)
    ensures r.0 <==> isAdmin
    ensures r.0 <==> r.1 == ""
  {
    if !isAdmin then (false, AdminRequired) else Accepted
  }

  /** `validate_registration_data`: the username rule, then the password
      rule, then (when a confirmation is given) the match rule; the first
      failure is the answer. */
  function ValidateRegistrationData(username: string, password: string, confirm: Option<string>): (r: Verdict)
    ensures r.0 <==> ValidateUsername(username).0 && ValidatePassword(password).0
                     && (confirm.Some? ==> password == confirm.value)
    ensures r.0 <==> r.1 == ""
    ensures !ValidateUsername(username).0 ==> r == ValidateUsername(username)
    ensures ValidateUsername(username).0 && !ValidatePassword(password).0 ==> r == ValidatePassword(password)
    ensures ValidateUsername(username).0 && ValidatePassword(password).0 && !r.0 ==> r.1 == PasswordMismatch
  {
    var u := ValidateUsername(username);
    if !u.0 then u
    else
      var p := ValidatePassword(password);
      if !p.0 then p
      else if confirm.Some? then ValidatePasswordMatch(password, confirm.value)
      else Accepted
  }
}
