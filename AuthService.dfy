/**
 * src/services/authService.ts: the sign-up service. Its validators apply the rules of
 * src/validation/userValidation.ts with the ERROR_MESSAGES texts and a single suggestion
 * string; updateUsername stores a valid username, and createNewUser combines it with the
 * password check, clearing the stored username again when either fails.
 */
module AuthService {
  import opened Wrappers
  import opened Text
  import opened Sanitiser
  import opened Results
  import opened Storage
  import UserValidation
  import Config

  const SaveUsernameFailedMessage: string := "Failed to save username."

  /** The `username` entry of the service's validateUsername: the guarded appends of the
      sanitiser issues, the too-short message and the (missing, so dropped) contains-spaces
      message. */
  function UsernameEntry(s: SanitisationResult): Option<string> {
    Step(Step(Step(None, !s.isSafe, Some(IssueText(s.issues))),
              |s.sanitisedInput| < Config.UsernameMinLength, Some(Config.ErrorUsernameTooShort)),
         ContainsWhitespace(s.sanitisedInput), Config.ErrorContainsSpaces)
  }

  function UsernameErrors(s: SanitisationResult): Record {
    Put(map[], UsernameField, UsernameEntry(s))
  }

  /** The suggestion string: the whitespace-to-`_` form when the sanitised text holds
      whitespace (overriding the sanitiser's), else the sanitised text of an unsafe input. */
  function UsernameSuggestion(s: SanitisationResult): Option<string> {
    if ContainsWhitespace(s.sanitisedInput) then Some(ReplaceWhitespace(s.sanitisedInput))
    else if !s.isSafe then Some(s.sanitisedInput)
    else None
  }

  /** What the service's validateUsername returns for `username`: it passes exactly when the
      sanitiser leaves the username alone and it holds no whitespace. */
  function UsernameResult(username: string): (r: ValidationResult<string>)
    ensures r.isValid <==> r.errors == map[]
    ensures r.isValid <==> Sanitise(username).isSafe && !ContainsWhitespace(username)
    ensures r.errors.Keys <= {UsernameField}
  {
    UsernameRulesAgree(Sanitise(username));
    UserValidation.UsernameAccepted(username);
    var s := Sanitise(username);
    ValidationResult(UsernameErrors(s) == map[], UsernameErrors(s), UsernameSuggestion(s))
  }

  /** The service's validateUsername rules, applied to the sanitiser's verdict. */
  method UsernameRules(s: SanitisationResult) returns (r: ValidationResult<string>)
    ensures r == ValidationResult(UsernameErrors(s) == map[], UsernameErrors(s), UsernameSuggestion(s))
  {
    var errors: Record := map[];
    var suggestion: Option<string> := None;
    ghost var e := None;

    if !s.isSafe {
      errors := errors[UsernameField := IssueText(s.issues)];
      suggestion := Some(s.sanitisedInput);
    }
    PutStep(map[], UsernameField, e, !s.isSafe, Some(IssueText(s.issues)));
    e := Step(e, !s.isSafe, Some(IssueText(s.issues)));

    var cleanUsername := s.sanitisedInput;
    ghost var before := errors;
    if |cleanUsername| < Config.UsernameMinLength {
      errors := errors[UsernameField := JoinPair(Lookup(errors, UsernameField), Some(Config.ErrorUsernameTooShort))];
    }
    PutStep(before, UsernameField, e, |cleanUsername| < Config.UsernameMinLength, Some(Config.ErrorUsernameTooShort));
    e := Step(e, |cleanUsername| < Config.UsernameMinLength, Some(Config.ErrorUsernameTooShort));

    before := errors;
    if ContainsWhitespace(cleanUsername) {
      errors := errors[UsernameField := JoinPair(Lookup(errors, UsernameField), Config.ErrorContainsSpaces)];
      suggestion := Some(ReplaceWhitespace(cleanUsername));
    }
    PutStep(before, UsernameField, e, ContainsWhitespace(cleanUsername), Config.ErrorContainsSpaces);

    r := ValidationResult(|errors| == 0, errors, suggestion);
  }

  /** validateUsername of the service. */
  method ValidateUsername(username: string) returns (r: ValidationResult<string>)
    ensures r == UsernameResult(username)
  {
    var sanitisation := SanitiseInput(username);
    r := UsernameRules(sanitisation);
  }

  /** The `password` entry of a safe password. */
  function PasswordEntry(password: string): Option<string> {
    Step(Step(None, |password| < Config.PasswordMinLength, Some(Config.ErrorPasswordTooShort)),
         Config.PasswordMustContainNumber && !ContainsDigit(password), Some(Config.ErrorPasswordRequiresNumber))
  }

  /** The `errors` record of the service's validatePassword: the sanitiser issues alone for
      an unsafe password, else the password entry, and whitespace reported under `username`
      (with an empty message, as the contains-spaces text is missing). */
  function PasswordErrors(s: SanitisationResult, password: string): Record {
    if !s.isSafe then map[PasswordField := IssueText(s.issues)]
    else
      Put(Put(map[], PasswordField, PasswordEntry(password)),
          UsernameField, Step(None, ContainsWhitespace(password), Config.ErrorContainsSpaces))
  }

  /** What the service's validatePassword returns for `password`: it passes exactly when the
      sanitiser leaves it alone, it has at least six characters and a digit, and it holds no
      whitespace. */
  function PasswordResult(password: string): (r: ValidationResult<string>)
    ensures r.isValid <==> r.errors == map[]
    ensures r.isValid <==>
      && Sanitise(password).isSafe && |password| >= Config.PasswordMinLength
      && ContainsDigit(password) && !ContainsWhitespace(password)
    ensures r.errors.Keys <= {PasswordField, UsernameField}
  {
    PasswordRulesAgree(Sanitise(password), password);
    UserValidation.PasswordAccepted(password);
    var errors := PasswordErrors(Sanitise(password), password);
    ValidationResult(errors == map[], errors, None)
  }

  /** The service's validatePassword rules, applied to the sanitiser's verdict. */
  method PasswordRules(s: SanitisationResult, password: string) returns (r: ValidationResult<string>)
    ensures r == ValidationResult(PasswordErrors(s, password) == map[], PasswordErrors(s, password), None)
  {
    var errors: Record := map[];
    if !s.isSafe {
      errors := errors[PasswordField := IssueText(s.issues)];
      assert PasswordField in errors;
      return ValidationResult(false, errors, None);
    }
    ghost var e := None;

    var short := |password| < Config.PasswordMinLength;
    if short {
      errors := errors[PasswordField := JoinPair(Lookup(errors, PasswordField), Some(Config.ErrorPasswordTooShort))];
    }
    PutStep(map[], PasswordField, e, short, Some(Config.ErrorPasswordTooShort));
    e := Step(e, short, Some(Config.ErrorPasswordTooShort));

    ghost var before := errors;
    var noDigit := Config.PasswordMustContainNumber && !ContainsDigit(password);
    if noDigit {
      errors := errors[PasswordField := JoinPair(Lookup(errors, PasswordField), Some(Config.ErrorPasswordRequiresNumber))];
    }
    PutStep(before, PasswordField, e, noDigit, Some(Config.ErrorPasswordRequiresNumber));

    before := errors;
    if ContainsWhitespace(password) {
      errors := errors[UsernameField := JoinPair(Lookup(errors, UsernameField), Config.ErrorContainsSpaces)];
    }
    PutAbsent(before, UsernameField, ContainsWhitespace(password), Config.ErrorContainsSpaces);
    r := ValidationResult(|errors| == 0, errors, None);
  }

  /** validatePassword of the service. */
  method ValidatePassword(password: string) returns (r: ValidationResult<string>)
    ensures r == PasswordResult(password)
  {
    var sanitisation := SanitiseInput(password);
    r := PasswordRules(sanitisation, password);
  }

  /** The service's username rules set the same keys as the validation module's, so they
      accept the same verdicts; its suggestion is the module's `username` suggestion. */
  lemma {:induction false} UsernameRulesAgree(s: SanitisationResult)
    ensures UsernameErrors(s).Keys == UserValidation.UsernameErrors(s).Keys
    ensures UsernameErrors(s) == map[] <==> UserValidation.UsernameErrors(s) == map[]
    ensures var m := UserValidation.UsernameSuggestion(s);
      UsernameSuggestion(s) == if m.Some? then Some(m.value[UsernameField]) else None
  {
    if UsernameErrors(s) == map[] {
      assert UsernameField !in UsernameErrors(s);
    }
    if UserValidation.UsernameErrors(s) == map[] {
      assert UsernameField !in UserValidation.UsernameErrors(s);
    }
  }

  /** The same for the password rules. */
  lemma {:induction false} PasswordRulesAgree(s: SanitisationResult, password: string)
    ensures PasswordErrors(s, password).Keys == UserValidation.PasswordErrors(s, password).Keys
    ensures PasswordErrors(s, password) == map[] <==> UserValidation.PasswordErrors(s, password) == map[]
  {
    if PasswordErrors(s, password) == map[] {
      assert PasswordErrors(s, password).Keys == {};
    }
    if UserValidation.PasswordErrors(s, password) == map[] {
      assert UserValidation.PasswordErrors(s, password).Keys == {};
    }
  }

  /** What updateUsername returns when the save (if one is made) has outcome `saveOk`. */
  function UpdateOutcome(username: string, saveOk: bool): (r: CreateResult<string, string>)
    ensures r.isValid <==> UsernameResult(username).isValid && saveOk
    ensures r.data.Some? <==> r.isValid
    ensures r.isValid ==> r.data == Some(username) && r.errors == map[]
    ensures !UsernameResult(username).isValid ==>
      r.errors == UsernameResult(username).errors && r.suggestion == UsernameResult(username).suggestion
    ensures UsernameResult(username).isValid && !saveOk ==> r.errors == map[GeneralField := SaveUsernameFailedMessage]
  {
    var v := UsernameResult(username);
    if !v.isValid then CreateResult(false, v.errors, v.suggestion, None)
    else if !saveOk then CreateResult(false, map[GeneralField := SaveUsernameFailedMessage], None, None)
    else CreateResult(true, map[], None, Some(username))
  }

  /** updateUsername. A refused username or a failed save leaves the stored username as it
      was; a valid one is stored and returned. */
  method UpdateUsername(store: Store, username: string, saveOk: bool) returns (r: CreateResult<string, string>)
    modifies store
    ensures r == UpdateOutcome(username, saveOk)
    ensures store.username == (if r.isValid then Some(username) else old(store.username))
    ensures store.dreams == old(store.dreams) && store.themes == old(store.themes)
  {
    var validation := ValidateUsername(username);
    if !validation.isValid {
      return CreateResult(validation.isValid, validation.errors, validation.suggestion, None);
    }
    var saveSuccess := store.SaveUsername(username, saveOk);
    if !saveSuccess {
      return CreateResult(false, map[GeneralField := SaveUsernameFailedMessage], None, None);
    }
    r := CreateResult(true, map[], None, Some(username));
  }

  /** clearUsername. */
  method ClearUsername(store: Store, clearOk: bool) returns (ok: bool)
    modifies store
    ensures ok == clearOk
    ensures store.username == (if clearOk then None else old(store.username))
    ensures store.dreams == old(store.dreams) && store.themes == old(store.themes)
  {
    ok := store.ClearUsername(clearOk);
  }

  /** loadUsername: the stored username, or the empty string when there is none. */
  function LoadUsername(store: Store): (r: string)
    reads store
    ensures store.username.None? ==> r == []
    ensures store.username.Some? ==> r == store.username.value
  {
    if store.username.Some? && store.username.value != [] then store.username.value else ""
  }

  /** The `errors` record of a failed createNewUser: the `username` entry of the update and
      the `password` entry of the password check, each absent when undefined. */
  function NewUserErrors(update: CreateResult<string, string>, password: ValidationResult<string>): Record {
    Put(Put(map[], UsernameField, Lookup(update.errors, UsernameField)),
        PasswordField, Lookup(password.errors, PasswordField))
  }

  /** createNewUser, with the outcomes of the username save and of the clear made on
      failure. It succeeds exactly when the update and the password check both do; on
      failure the stored username is cleared (when the clear succeeds), even one this call
      has just saved. */
  method CreateNewUser(store: Store, username: string, password: string, saveOk: bool, clearOk: bool)
    returns (r: ValidationResult<string>)
    modifies store
    ensures var u, p := UpdateOutcome(username, saveOk), PasswordResult(password);
      && (r.isValid <==> u.isValid && p.isValid)
      && (r.isValid ==> r == ValidationResult(true, map[], None) && store.username == Some(username))
      && (!r.isValid ==>
            && r == ValidationResult(false, NewUserErrors(u, p), u.suggestion)
            && store.username == (if clearOk then None else if u.isValid then Some(username) else old(store.username)))
    ensures store.dreams == old(store.dreams) && store.themes == old(store.themes)
  {
    var saveUsername := UpdateUsername(store, username, saveOk);
    var passwordValidation := ValidatePassword(password);
    if saveUsername.isValid && passwordValidation.isValid {
      return ValidationResult(true, map[], None);
    }
    var _ := ClearUsername(store, clearOk);
    var errors := Put(Put(map[], UsernameField, Lookup(saveUsername.errors, UsernameField)),
                      PasswordField, Lookup(passwordValidation.errors, PasswordField));
    r := ValidationResult(false, errors, saveUsername.suggestion);
  }

  /** A new user is created exactly when the username passes (the sanitiser leaves it alone
      and it holds no whitespace), its save succeeds, and the password passes (safe, at
      least six characters, a digit, no whitespace). */
  lemma {:induction false} NewUserAccepted(username: string, password: string, saveOk: bool)
    ensures UpdateOutcome(username, saveOk).isValid && PasswordResult(password).isValid <==>
      && Sanitise(username).isSafe && !ContainsWhitespace(username) && saveOk
      && Sanitise(password).isSafe && |password| >= Config.PasswordMinLength
      && ContainsDigit(password) && !ContainsWhitespace(password)
  {
    UsernameRulesAgree(Sanitise(username));
    UserValidation.UsernameAccepted(username);
    PasswordRulesAgree(Sanitise(password), password);
    UserValidation.PasswordAccepted(password);
  }
}
