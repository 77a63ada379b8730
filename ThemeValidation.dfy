/**
 * src/validation/themeValidation.ts: the theme field of the dream form. The theme is
 * sanitised, and the form's "prompt" placeholder option is refused with its own message,
 * which replaces any sanitiser message and withdraws the suggestion.
 */
module ThemeValidation {
  import opened Wrappers
  import opened Text
  import opened Sanitiser
  import opened Results

  /** The value of the form's placeholder option. */
  const PromptOption: string := "prompt"
  const SelectThemeMessage: string := "Please select a theme."

  /** The `errors` record validateThemeInput ends with for a theme whose sanitiser verdict
      is `s`: only `theme` can be set, by the placeholder check or else by the sanitiser. */
  function ThemeErrors(s: SanitisationResult): (r: Record)
    ensures r == map[] || r.Keys == {ThemeField}
  {
    if s.sanitisedInput == PromptOption then map[ThemeField := SelectThemeMessage]
    else if !s.isSafe then map[ThemeField := IssueText(s.issues)]
    else map[]
  }

  /** The suggested theme: the sanitised text when the input was unsafe, unless it is the
      placeholder option. */
  function ThemeSuggestion(s: SanitisationResult): Option<Record> {
    if s.sanitisedInput == PromptOption then None
    else if !s.isSafe then Some(map[ThemeField := s.sanitisedInput])
    else None
  }

  /** validateThemeInput's rules, applied to the sanitiser's verdict. */
  method ThemeRules(s: SanitisationResult) returns (r: ValidationResult<Record>)
    ensures r.errors == ThemeErrors(s)
    ensures r.suggestion == ThemeSuggestion(s)
    ensures r.isValid <==> r.errors == map[]
  {
    var errors: Record := map[];
    var suggestions: Option<Record> := None;
    var cleanTheme := s.sanitisedInput;

    if !s.isSafe {
      errors := errors[ThemeField := IssueText(s.issues)];
      suggestions := Some(map[ThemeField := cleanTheme]);
    }
    if cleanTheme == PromptOption {
      errors := errors[ThemeField := SelectThemeMessage];
      suggestions := None;
    }
    r := ValidationResult(|errors| == 0, errors, suggestions);
  }

  /** validateThemeInput. */
  method ValidateThemeInput(theme: string) returns (r: ValidationResult<Record>)
    ensures r.errors == ThemeErrors(Sanitise(theme))
    ensures r.suggestion == ThemeSuggestion(Sanitise(theme))
    ensures r.isValid <==> r.errors == map[]
  {
    var sanitisation := SanitiseInput(theme);
    r := ThemeRules(sanitisation);
  }

  /** The rules pass a verdict exactly when it is safe and not the placeholder option. */
  lemma {:induction false} ThemeRulesPass(s: SanitisationResult)
    ensures ThemeErrors(s) == map[] <==> s.isSafe && s.sanitisedInput != PromptOption
  {
    if !s.isSafe || s.sanitisedInput == PromptOption {
      assert ThemeField in ThemeErrors(s);
    }
  }

  /** A theme passes exactly when the sanitiser leaves it alone and it is not the
      placeholder option; a passing theme is what the validator would store unchanged. */
  lemma {:induction false} ThemeAccepted(theme: string)
    ensures ThemeErrors(Sanitise(theme)) == map[] <==> Sanitise(theme).isSafe && theme != PromptOption
    ensures ThemeErrors(Sanitise(theme)) == map[] ==> Sanitise(theme).sanitisedInput == theme
  {
    ThemeRulesPass(Sanitise(theme));
  }

  /** A suggested theme passes exactly when it is non-empty and has no whitespace at its
      ends (the 50-character cut may leave some there). */
  lemma {:induction false} ThemeSuggestionAccepted(theme: string)
    ensures var suggestion := ThemeSuggestion(Sanitise(theme));
      suggestion.Some? ==>
        var t := suggestion.value[ThemeField];
        ThemeErrors(Sanitise(t)) == map[] <==> t != [] && Trim(t) == t
  {
    var s := Sanitise(theme);
    if ThemeSuggestion(s).Some? {
      var t := s.sanitisedInput;
      SanitisedIsTagFree(theme);
      SanitiseOnTagFree(t);
      ThemeAccepted(t);
    }
  }
}
