/**
 * src/validation/userValidation.ts: the username and password rules of the sign-up form,
 * layered on the sanitiser, with the AUTH_MESSAGES texts.
 *
 * Each validator sanitises its input and then applies the business rules to the
 * sanitiser's verdict, filling a local `errors` record one rule at a time. The rules are
 * the methods `UsernameRules` and `PasswordRules`; the functions `UsernameErrors`,
 * `UsernameSuggestion` and `PasswordErrors` give the record they end with.
 */
module UserValidation {
  import opened Wrappers
  import opened Text
  import opened Sanitiser
  import opened Results
  import Config

  /** The `errors` record validateUsername ends with for a username whose sanitiser
      verdict is `s`: the `username` entry after its three guarded appends (sanitiser
      issues, too short, contains whitespace). `UsernameErrorsJoined` gives its closed form. */
  function UsernameErrors(s: SanitisationResult): Record {
    var clean := s.sanitisedInput;
    Put(map[], UsernameField,
      Step(Step(Step(None, !s.isSafe, Some(IssueText(s.issues))),
                |clean| < Config.UsernameMinLength, Some(Config.AuthUsernameTooShort)),
           ContainsWhitespace(clean), Some(Config.AuthContainsSpaces)))
  }

  /** The suggested username: the sanitised text with whitespace turned into `_` when it
      holds any, else the sanitised text when the input was unsafe, else none. */
  function UsernameSuggestion(s: SanitisationResult): Option<Record> {
    if ContainsWhitespace(s.sanitisedInput) then Some(map[UsernameField := ReplaceWhitespace(s.sanitisedInput)])
    else if !s.isSafe then Some(map[UsernameField := s.sanitisedInput])
    else None
  }

  /** The `errors` record validatePassword ends with for `password` with sanitiser verdict
      `s`. An unsafe password reports only the sanitiser's issues. A safe one gets the
      guarded too-short and no-digit appends under `password`, and whitespace inside it is
      reported under `username`. `PasswordEntryJoined` gives its closed form. */
  function PasswordErrors(s: SanitisationResult, password: string): Record {
    if !s.isSafe then map[PasswordField := IssueText(s.issues)]
    else
      Put(Put(map[], PasswordField, PasswordEntry(password)),
          UsernameField, Step(None, ContainsWhitespace(password), Some(Config.AuthContainsSpaces)))
  }

  /** The `password` entry of a safe password: the guarded too-short and no-digit appends. */
  function PasswordEntry(password: string): Option<string> {
    Step(Step(None, |password| < Config.PasswordMinLength, Some(Config.AuthPasswordTooShort)),
         Config.PasswordMustContainNumber && !ContainsDigit(password), Some(Config.AuthPasswordRequiresNumber))
  }

  /** validateUsername's business rules, applied to the sanitiser's verdict. */
  method UsernameRules(s: SanitisationResult) returns (r: ValidationResult<Record>)
    ensures r.errors == UsernameErrors(s)
    ensures r.suggestion == UsernameSuggestion(s)
    ensures r.isValid <==> r.errors == map[]
  {
    var errors: Record := map[];
    var suggestions: Option<Record> := None;
    var cleanUsername := s.sanitisedInput;
    ghost var e := None;

    if !s.isSafe {
      errors := errors[UsernameField := IssueText(s.issues)];
      suggestions := Some(map[UsernameField := cleanUsername]);
    }
    PutStep(map[], UsernameField, e, !s.isSafe, Some(IssueText(s.issues)));
    e := Step(e, !s.isSafe, Some(IssueText(s.issues)));

    ghost var before := errors;
    if |cleanUsername| < Config.UsernameMinLength {
      errors := errors[UsernameField := JoinPair(Lookup(errors, UsernameField), Some(Config.AuthUsernameTooShort))];
    }
    PutStep(before, UsernameField, e, |cleanUsername| < Config.UsernameMinLength, Some(Config.AuthUsernameTooShort));
    e := Step(e, |cleanUsername| < Config.UsernameMinLength, Some(Config.AuthUsernameTooShort));

    before := errors;
    if ContainsWhitespace(cleanUsername) {
      errors := errors[UsernameField := JoinPair(Lookup(errors, UsernameField), Some(Config.AuthContainsSpaces))];
      suggestions := Some(map[UsernameField := ReplaceWhitespace(cleanUsername)]);
    }
    PutStep(before, UsernameField, e, ContainsWhitespace(cleanUsername), Some(Config.AuthContainsSpaces));

    r := ValidationResult(|errors| == 0, errors, suggestions);
  }

  /** validateUsername. */
  method ValidateUsername(username: string) returns (r: ValidationResult<Record>)
    ensures r.errors == UsernameErrors(Sanitise(username))
    ensures r.suggestion == UsernameSuggestion(Sanitise(username))
    ensures r.isValid <==> r.errors == map[]
  {
    var sanitisation := SanitiseInput(username);
    r := UsernameRules(sanitisation);
  }

  /** validatePassword's rules, applied to the sanitiser's verdict `s` on `password`. */
  method PasswordRules(s: SanitisationResult, password: string) returns (r: ValidationResult<Record>)
    ensures r.errors == PasswordErrors(s, password)
    ensures r.suggestion == None
    ensures r.isValid <==> r.errors == map[]
  {
    var errors: Record := map[];
    if !s.isSafe {
      errors := errors[PasswordField := IssueText(s.issues)];
      assert PasswordField in errors;
      return ValidationResult(false, errors, None);
    }
    ghost var e := None;

    var short := |password| < Config.PasswordMinLength;
    if short {
      errors := errors[PasswordField := JoinPair(Lookup(errors, PasswordField), Some(Config.AuthPasswordTooShort))];
    }
    PutStep(map[], PasswordField, e, short, Some(Config.AuthPasswordTooShort));
    e := Step(e, short, Some(Config.AuthPasswordTooShort));

    ghost var before := errors;
    var noDigit := Config.PasswordMustContainNumber && !ContainsDigit(password);
    if noDigit {
      errors := errors[PasswordField := JoinPair(Lookup(errors, PasswordField), Some(Config.AuthPasswordRequiresNumber))];
    }
    PutStep(before, PasswordField, e, noDigit, Some(Config.AuthPasswordRequiresNumber));

    before := errors;
    if ContainsWhitespace(password) {
      errors := errors[UsernameField := JoinPair(Lookup(errors, UsernameField), Some(Config.AuthContainsSpaces))];
    }
    PutAbsent(before, UsernameField, ContainsWhitespace(password), Some(Config.AuthContainsSpaces));
    r := ValidationResult(|errors| == 0, errors, None);
  }

  /** validatePassword. */
  method ValidatePassword(password: string) returns (r: ValidationResult<Record>)
    ensures r.errors == PasswordErrors(Sanitise(password), password)
    ensures r.suggestion == None
    ensures r.isValid <==> r.errors == map[]
  {
    var sanitisation := SanitiseInput(password);
    r := PasswordRules(sanitisation, password);
  }

  /** The username entry is present exactly when a rule fired, and holds the messages of the
      rules that fired, in order, joined by newlines. */
  lemma {:induction false} UsernameErrorsJoined(s: SanitisationResult)
    ensures var clean := s.sanitisedInput;
      var unsafe, short, spaces := !s.isSafe, |clean| < Config.UsernameMinLength, ContainsWhitespace(clean);
      UsernameErrors(s) ==
        if unsafe || short || spaces then
          map[UsernameField := JoinTruthy([When(unsafe, Some(IssueText(s.issues))),
                                        When(short, Some(Config.AuthUsernameTooShort)),
                                        When(spaces, Some(Config.AuthContainsSpaces))])]
        else map[]
  {
    var clean := s.sanitisedInput;
    ThreeSteps(!s.isSafe, Some(IssueText(s.issues)), |clean| < Config.UsernameMinLength, Some(Config.AuthUsernameTooShort),
               ContainsWhitespace(clean), Some(Config.AuthContainsSpaces));
  }

  /** The `password` entry of a safe password is set exactly when it is too short or holds
      no digit, and then holds the messages of those rules that fired, in that order, joined
      by a newline. */
  lemma {:induction false} PasswordEntryJoined(password: string)
    ensures var short, noDigit := |password| < Config.PasswordMinLength, !ContainsDigit(password);
      PasswordEntry(password) ==
        if short || noDigit then
          Some(JoinTruthy([When(short, Some(Config.AuthPasswordTooShort)),
                           When(noDigit, Some(Config.AuthPasswordRequiresNumber))]))
        else None
  {
    TwoSteps(|password| < Config.PasswordMinLength, Some(Config.AuthPasswordTooShort),
             !ContainsDigit(password), Some(Config.AuthPasswordRequiresNumber));
  }

  /** The username rules pass a verdict exactly when it is safe and its text is long
      enough and holds no whitespace. */
  lemma {:induction false} UsernameRulesPass(s: SanitisationResult)
    ensures UsernameErrors(s) == map[] <==>
      s.isSafe && |s.sanitisedInput| >= Config.UsernameMinLength && !ContainsWhitespace(s.sanitisedInput)
  {
    if UsernameErrors(s) == map[] {
      assert UsernameField !in UsernameErrors(s);
    }
  }

  /** A username passes exactly when the sanitiser leaves it alone and it holds no
      whitespace; a passing username is 1 to 50 characters long, has no whitespace at its
      ends and contains no tag. */
  lemma {:induction false} UsernameAccepted(username: string)
    ensures var s := Sanitise(username);
      UsernameErrors(s) == map[] <==> s.isSafe && !ContainsWhitespace(username)
    ensures UsernameErrors(Sanitise(username)) == map[] ==>
      1 <= |username| <= Config.InputMaxLength && Trim(username) == username && TagFree(username)
  {
    var s := Sanitise(username);
    UsernameRulesPass(s);
    if s.isSafe {
      SanitisedIsTagFree(username);
      SanitiseOnTagFree(username);
    }
  }

  /** Replacing whitespace by `_` creates no tag. */
  lemma {:induction false} ReplaceWhitespaceTagFree(t: string)
    requires TagFree(t)
    ensures TagFree(ReplaceWhitespace(t))
  {
    ReplaceWhitespaceAt(t);
  }

  /** A tag-free text of at most 50 characters without whitespace is safe when non-empty. */
  lemma {:induction false} SanitiseWithoutWhitespace(t: string)
    requires TagFree(t) && |t| <= Config.InputMaxLength && !ContainsWhitespace(t)
    ensures Sanitise(t).isSafe <==> t != []
  {
    SanitiseOnTagFree(t);
    ContainsWhitespaceAt(t);
    if t != [] {
      TrimOfTrimmed(t);
    }
  }

  /** Every non-empty username the validator suggests passes the validator. */
  lemma {:induction false} UsernameSuggestionAccepted(username: string)
    ensures var suggestion := UsernameSuggestion(Sanitise(username));
      suggestion.Some? && suggestion.value[UsernameField] != [] ==>
        UsernameErrors(Sanitise(suggestion.value[UsernameField])) == map[]
  {
    var s := Sanitise(username);
    var suggestion := UsernameSuggestion(s);
    if suggestion.Some? && suggestion.value[UsernameField] != [] {
      var t := suggestion.value[UsernameField];
      SanitisedIsTagFree(username);
      if ContainsWhitespace(s.sanitisedInput) {
        ReplaceWhitespaceTagFree(s.sanitisedInput);
      }
      SanitiseWithoutWhitespace(t);
      UsernameAccepted(t);
    }
  }

  /** The password rules pass a password exactly when its verdict is safe, it has at
      least six characters and a digit, and it holds no whitespace. */
  lemma {:induction false} PasswordRulesPass(s: SanitisationResult, password: string)
    ensures PasswordErrors(s, password) == map[] <==>
      s.isSafe && |password| >= Config.PasswordMinLength
      && ContainsDigit(password) && !ContainsWhitespace(password)
  {
    if !s.isSafe {
      assert PasswordField in PasswordErrors(s, password);
    } else if PasswordErrors(s, password) == map[] {
      assert PasswordField !in PasswordErrors(s, password);
      assert UsernameField !in PasswordErrors(s, password);
    }
  }

  /** A password passes exactly when the sanitiser leaves it alone, it has at least six
      characters and a digit, and it holds no whitespace. */
  lemma {:induction false} PasswordAccepted(password: string)
    ensures PasswordErrors(Sanitise(password), password) == map[] <==>
      Sanitise(password).isSafe && |password| >= Config.PasswordMinLength
      && ContainsDigit(password) && !ContainsWhitespace(password)
  {
    PasswordRulesPass(Sanitise(password), password);
  }
}
