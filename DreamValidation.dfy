/**
 * src/validation/dreamValidation.ts: the add-dream form. The dream name is sanitised
 * (its issues go under `dream`) and the theme is checked by the theme validator (its
 * message goes under `theme`).
 */
module DreamValidation {
  import opened Wrappers
  import opened Sanitiser
  import opened Results
  import opened ThemeValidation

  /** The `errors` record validateDreamForm ends with, given the sanitiser's verdict on the
      name and the theme validator's result. */
  function DreamFormErrors(name: SanitisationResult, theme: ValidationResult<Record>): Record {
    Put(Put(map[], DreamField, if name.isSafe then None else Some(IssueText(name.issues))),
        ThemeField, if theme.isValid then None else Lookup(theme.errors, ThemeField))
  }

  /** The suggested name: the sanitised name when it was unsafe. */
  function DreamFormSuggestion(name: SanitisationResult): (r: Option<Record>)
    ensures r.Some? ==> r.value.Keys == {DreamField}
  {
    if name.isSafe then None else Some(map[DreamField := name.sanitisedInput])
  }

  /** validateDreamForm's rules, applied to the name's verdict and the theme's result. */
  method DreamFormRules(name: SanitisationResult, theme: ValidationResult<Record>)
    returns (r: ValidationResult<Record>)
    ensures r.errors == DreamFormErrors(name, theme)
    ensures r.suggestion == DreamFormSuggestion(name)
    ensures r.isValid <==> r.errors == map[]
  {
    var errors: Record := map[];
    var suggestions: Option<Record> := None;
    var cleanDreamName := name.sanitisedInput;

    if !name.isSafe {
      errors := errors[DreamField := IssueText(name.issues)];
      suggestions := Some(map[DreamField := cleanDreamName]);
    }
    if !theme.isValid {
      errors := Put(errors, ThemeField, Lookup(theme.errors, ThemeField));
    }
    r := ValidationResult(|errors| == 0, errors, suggestions);
  }

  /** What validateDreamForm returns for `name` and `theme`: it passes exactly when the
      sanitiser leaves both alone and the theme is not the placeholder option. */
  function DreamFormResult(name: string, theme: string): (r: ValidationResult<Record>)
    ensures r.isValid <==> r.errors == map[]
    ensures r.isValid <==> Sanitise(name).isSafe && Sanitise(theme).isSafe && theme != PromptOption
    ensures r.errors.Keys <= {DreamField, ThemeField}
  {
    DreamFormAccepted(name, theme);
    DreamFormRulesPass(Sanitise(name), Sanitise(theme));
    var errors := DreamFormErrors(Sanitise(name), ThemeResult(theme));
    ValidationResult(errors == map[], errors, DreamFormSuggestion(Sanitise(name)))
  }

  /** validateDreamForm. */
  method ValidateDreamForm(name: string, theme: string) returns (r: ValidationResult<Record>)
    ensures r == DreamFormResult(name, theme)
  {
    var sanitisation := SanitiseInput(name);
    var validation := ValidateThemeInput(theme);
    r := DreamFormRules(sanitisation, validation);
  }

  /** What validateThemeInput returns for `theme`: it passes exactly when the sanitiser
      leaves the theme alone and it is not the placeholder option. */
  function ThemeResult(theme: string): (r: ValidationResult<Record>)
    ensures r.isValid <==> r.errors == map[]
    ensures r.isValid <==> Sanitise(theme).isSafe && theme != PromptOption
    ensures r.errors.Keys <= {ThemeField}
  {
    ThemeAccepted(theme);
    var s := Sanitise(theme);
    ValidationResult(ThemeErrors(s) == map[], ThemeErrors(s), ThemeSuggestion(s))
  }

  /** The form passes exactly when the name is safe and the theme passes its validator;
      the theme's message is passed on unchanged, and no other key is ever set. */
  lemma {:induction false} DreamFormRulesPass(name: SanitisationResult, theme: SanitisationResult)
    ensures var t := ValidationResult(ThemeErrors(theme) == map[], ThemeErrors(theme), ThemeSuggestion(theme));
      DreamFormErrors(name, t) == map[] <==> name.isSafe && ThemeErrors(theme) == map[]
    ensures var t := ValidationResult(ThemeErrors(theme) == map[], ThemeErrors(theme), ThemeSuggestion(theme));
      Lookup(DreamFormErrors(name, t), ThemeField) == Lookup(ThemeErrors(theme), ThemeField)
    ensures var t := ValidationResult(ThemeErrors(theme) == map[], ThemeErrors(theme), ThemeSuggestion(theme));
      DreamFormErrors(name, t).Keys <= {DreamField, ThemeField}
  {
    var t := ValidationResult(ThemeErrors(theme) == map[], ThemeErrors(theme), ThemeSuggestion(theme));
    var e := DreamFormErrors(name, t);
    if !name.isSafe {
      assert DreamField in e;
    }
    if ThemeErrors(theme) != map[] {
      assert ThemeField in e;
    }
  }

  /** A dream form passes exactly when the sanitiser leaves the name alone and the theme
      passes: the sanitiser leaves it alone and it is not the placeholder option. */
  lemma {:induction false} DreamFormAccepted(name: string, theme: string)
    ensures DreamFormErrors(Sanitise(name), ThemeResult(theme)) == map[] <==>
      Sanitise(name).isSafe && Sanitise(theme).isSafe && theme != PromptOption
  {
    DreamFormRulesPass(Sanitise(name), Sanitise(theme));
    ThemeAccepted(theme);
  }
}
