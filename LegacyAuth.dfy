/**
 * src/services/auth.ts: the older login flow. It relies on `validateAndSanitiseInput`,
 * which src/utils/sanitiseInput.ts does not define; what that function returned for the
 * username and for the password is therefore an input of `Login` (a `Check`).
 */
module LegacyAuth {
  import opened Wrappers
  import opened Text
  import opened Results
  import opened Storage
  import Config

  /** The result of the missing `validateAndSanitiseInput`: `isValid`, the issue texts and
      the sanitised text. */
  datatype Check = Check(isValid: bool, issues: seq<string>, sanitisedInput: string)

  /** The `{ success, errors }` of the legacy validators. */
  datatype Outcome = Outcome(success: bool, errors: seq<string>)

  /** The messages the legacy password check pushes, in order. */
  function PasswordMessages(password: string): (r: seq<string>)
    ensures r == [] <==> |password| >= Config.PasswordMinLength && ContainsDigit(password)
    ensures |password| < Config.PasswordMinLength ==> r[0] == Config.ErrorPasswordTooShort
    ensures !ContainsDigit(password) ==> r[|r| - 1] == Config.ErrorPasswordRequiresNumber
    ensures |r| == (if |password| < Config.PasswordMinLength then 1 else 0) + (if !ContainsDigit(password) then 1 else 0)
  {
    (if |password| < Config.PasswordMinLength then [Config.ErrorPasswordTooShort] else [])
    + (if Config.PasswordMustContainNumber && !ContainsDigit(password) then [Config.ErrorPasswordRequiresNumber] else [])
  }

  /** validateUsername of auth.ts: only the minimum length is checked. */
  method ValidateUsername(username: string) returns (r: Outcome)
    ensures r.success <==> |username| >= Config.UsernameMinLength
    ensures r.errors == if r.success then [] else [Config.ErrorUsernameTooShort]
  {
    var errors: seq<string> := [];
    if |username| < Config.UsernameMinLength {
      errors := errors + [Config.ErrorUsernameTooShort];
    }
    if |errors| > 0 {
      return Outcome(false, errors);
    }
    r := Outcome(true, errors);
  }

  /** validatePassword of auth.ts: the too-short and no-digit messages, in that order. */
  method ValidatePassword(password: string) returns (r: Outcome)
    ensures r.errors == PasswordMessages(password)
    ensures r.success <==> |password| >= Config.PasswordMinLength && ContainsDigit(password)
  {
    var errors: seq<string> := [];
    if |password| < Config.PasswordMinLength {
      errors := errors + [Config.ErrorPasswordTooShort];
    }
    if Config.PasswordMustContainNumber && !ContainsDigit(password) {
      errors := errors + [Config.ErrorPasswordRequiresNumber];
    }
    if |errors| > 0 {
      return Outcome(false, errors);
    }
    r := Outcome(true, errors);
  }

  /** `entry ||= text`: the entry is kept when it is set and non-empty, and replaced otherwise. */
  function OrAssign(entry: Option<string>, text: string): (r: string)
    ensures entry.Some? && entry.value != [] ==> r == entry.value
    ensures entry.None? || entry.value == [] ==> r == text
  {
    if entry.Some? && entry.value != [] then entry.value else text
  }

  /** The `errors` record login ends with. Sanitisation failures go under `username` and
      `password`; a username rule failure under `usernames`; a password rule failure under
      `password` unless a sanitisation message already sits there. */
  function LoginErrors(user: Check, pass: Check): Record {
    var e1 := if user.isValid then map[] else map[UsernameField := JoinLines(user.issues)];
    var e2 := if pass.isValid then e1 else e1[PasswordField := JoinLines(pass.issues)];
    var userRules := |user.sanitisedInput| >= Config.UsernameMinLength;
    var passRules := PasswordMessages(pass.sanitisedInput);
    var e3 := if userRules then e2
              else e2[UsernamesField := OrAssign(Lookup(e2, UsernamesField), JoinLines([Config.ErrorUsernameTooShort]))];
    if passRules == [] then e3
    else e3[PasswordField := OrAssign(Lookup(e3, PasswordField), JoinLines(passRules))]
  }

  /** The login result. */
  datatype LoginResult = LoginResult(success: bool, errors: Record, suggestion: Option<string>)

  /** login, given what validateAndSanitiseInput returned for the username and the password.
      With any error it fails with the errors and the suggestion and stores nothing; else it
      stores the sanitised username. */
  method Login(store: Store, user: Check, pass: Check) returns (r: LoginResult)
    modifies store
    ensures var errors := LoginErrors(user, pass);
      && (r.success <==> errors == map[])
      && r.errors == errors
      && r.suggestion == (if errors == map[] then None else Some(if user.isValid then "" else user.sanitisedInput))
      && store.username == (if errors == map[] then Some(user.sanitisedInput) else old(store.username))
    ensures store.dreams == old(store.dreams) && store.themes == old(store.themes)
  {
    var suggestion := "";
    var errors: Record := map[];
    if !user.isValid {
      errors := errors[UsernameField := JoinLines(user.issues)];
      suggestion := user.sanitisedInput;
    }
    if !pass.isValid {
      errors := errors[PasswordField := JoinLines(pass.issues)];
    }
    var usernameValidation := ValidateUsername(user.sanitisedInput);
    var passwordValidation := ValidatePassword(pass.sanitisedInput);
    if !usernameValidation.success {
      errors := errors[UsernamesField := OrAssign(Lookup(errors, UsernamesField), JoinLines(usernameValidation.errors))];
    }
    if !passwordValidation.success {
      errors := errors[PasswordField := OrAssign(Lookup(errors, PasswordField), JoinLines(passwordValidation.errors))];
    }
    if |errors| > 0 {
      return LoginResult(false, errors, Some(suggestion));
    }
    store.SetUsername(user.sanitisedInput);
    r := LoginResult(true, errors, None);
  }

  /** Login succeeds exactly when both inputs pass validateAndSanitiseInput, the sanitised
      username is non-empty, and the sanitised password has six characters and a digit. */
  lemma {:induction false} LoginSucceeds(user: Check, pass: Check)
    ensures LoginErrors(user, pass) == map[] <==>
      && user.isValid && pass.isValid && |user.sanitisedInput| >= Config.UsernameMinLength
      && |pass.sanitisedInput| >= Config.PasswordMinLength && ContainsDigit(pass.sanitisedInput)
  {
    var e := LoginErrors(user, pass);
    if !user.isValid {
      assert UsernameField in e;
    } else if !pass.isValid || PasswordMessages(pass.sanitisedInput) != [] {
      assert PasswordField in e;
    } else if |user.sanitisedInput| < Config.UsernameMinLength {
      assert UsernamesField in e;
    }
  }

  /** Where login files its messages: `username` holds only sanitisation issues, and a
      username rule failure is filed under `usernames`; a non-empty sanitisation message
      under `password` wins over the password rules. */
  lemma {:induction false} LoginErrorKeys(user: Check, pass: Check)
    ensures UsernameField in LoginErrors(user, pass) <==> !user.isValid
    ensures UsernamesField in LoginErrors(user, pass) <==> |user.sanitisedInput| < Config.UsernameMinLength
    ensures UsernamesField in LoginErrors(user, pass) ==>
      LoginErrors(user, pass)[UsernamesField] == Config.ErrorUsernameTooShort
    ensures !pass.isValid && JoinLines(pass.issues) != [] ==>
      LoginErrors(user, pass)[PasswordField] == JoinLines(pass.issues)
    ensures pass.isValid && PasswordMessages(pass.sanitisedInput) != [] ==>
      LoginErrors(user, pass)[PasswordField] == JoinLines(PasswordMessages(pass.sanitisedInput))
    ensures LoginErrors(user, pass).Keys <= {UsernameField, UsernamesField, PasswordField}
  {
  }
}
