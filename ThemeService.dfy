/**
 * src/services/themeService.ts: the stored theme list. A new theme must pass the sanitiser
 * and must not be stored already (ignoring case); deleting removes the first exact match;
 * the defaults can be restored, with a one-theme fallback when they cannot be saved.
 */
module ThemeService {
  import opened Wrappers
  import opened Text
  import opened Sanitiser
  import opened Results
  import opened Storage
  import Config

  const DuplicateThemeMessage: string := "Theme already exists."
  /** The save-failure message, with the source's own spelling. */
  const SaveThemeFailedMessage: string := "Failed to save them."

  /** `themes.map((t) => t.toLowerCase())`. */
  function LowerAll(themes: seq<string>): (r: seq<string>)
    ensures |r| == |themes|
    ensures forall i :: 0 <= i < |themes| ==> r[i] == Lower(themes[i])
  {
    if themes == [] then [] else [Lower(themes[0])] + LowerAll(themes[1..])
  }

  /** themeExists against a theme list: `includes` on the lower-cased list. */
  predicate ThemeExistsIn(themes: seq<string>, theme: string) {
    Lower(theme) in LowerAll(themes)
  }

  /** Some stored theme equals `theme` ignoring case. */
  lemma {:induction false} ThemeExistsAt(themes: seq<string>, theme: string)
    ensures ThemeExistsIn(themes, theme) <==> exists i :: 0 <= i < |themes| && Lower(themes[i]) == Lower(theme)
  {
    if ThemeExistsIn(themes, theme) {
      var i :| 0 <= i < |themes| && LowerAll(themes)[i] == Lower(theme);
    }
  }

  /** No two stored themes are equal ignoring case. */
  predicate UniqueIgnoringCase(themes: seq<string>) {
    forall i, j :: 0 <= i < j < |themes| ==> Lower(themes[i]) != Lower(themes[j])
  }

  /** Appending a theme that is not stored (ignoring case) keeps the list unique. */
  lemma {:induction false} AppendNewKeepsUnique(themes: seq<string>, theme: string)
    requires UniqueIgnoringCase(themes) && !ThemeExistsIn(themes, theme)
    ensures UniqueIgnoringCase(themes + [theme])
  {
    ThemeExistsAt(themes, theme);
    var t := themes + [theme];
    forall i, j | 0 <= i < j < |t| ensures Lower(t[i]) != Lower(t[j]) {
      assert t[i] == themes[i];
      if j < |themes| {
        assert t[j] == themes[j];
      }
    }
  }

  /** Removing one theme keeps the list unique ignoring case. */
  lemma {:induction false} RemoveKeepsUnique(themes: seq<string>, i: nat)
    requires UniqueIgnoringCase(themes) && i < |themes|
    ensures UniqueIgnoringCase(themes[..i] + themes[i + 1..])
  {
    var t := themes[..i] + themes[i + 1..];
    forall a, b | 0 <= a < b < |t| ensures Lower(t[a]) != Lower(t[b]) {
      var a', b' := if a < i then a else a + 1, if b < i then b else b + 1;
      assert t[a] == themes[a'] && t[b] == themes[b'];
    }
  }

  /** Themes that start with distinct letters that lower-casing leaves alone are unique
      ignoring case. */
  lemma {:induction false} DistinctLowerInitialsUnique(themes: seq<string>)
    requires forall i :: 0 <= i < |themes| ==> themes[i] != [] && LowerChar(themes[i][0]) == themes[i][0]
    requires forall i, j :: 0 <= i < j < |themes| ==> themes[i][0] != themes[j][0]
    ensures UniqueIgnoringCase(themes)
  {
    forall i, j | 0 <= i < j < |themes| ensures Lower(themes[i]) != Lower(themes[j]) {
      assert Lower(themes[i])[0] == themes[i][0];
      assert Lower(themes[j])[0] == themes[j][0];
    }
  }

  /** The five default themes start with `t`, `v`, `h`, `s` and `r`, so they are unique
      ignoring case. */
  lemma {:induction false} DefaultThemesUnique()
    ensures UniqueIgnoringCase(Config.DefaultThemes)
  {
    var d := Config.DefaultThemes;
    assert d[0][0] == 't' && d[1][0] == 'v' && d[2][0] == 'h' && d[3][0] == 's' && d[4][0] == 'r';
    DistinctLowerInitialsUnique(d);
  }

  /** The `errors` record of the service's validateThemeInput, for a theme with sanitiser
      verdict `s` whose sanitised text is stored already exactly when `stored`. */
  function ThemeInputErrors(s: SanitisationResult, stored: bool): Record {
    Put(map[], ThemeField, Step(if s.isSafe then None else Some(IssueText(s.issues)), stored, Some(DuplicateThemeMessage)))
  }

  /** Its suggestion: the empty string for a stored theme, else the sanitised text of an
      unsafe one. */
  function ThemeInputSuggestion(s: SanitisationResult, stored: bool): Option<string> {
    if stored then Some("") else if !s.isSafe then Some(s.sanitisedInput) else None
  }

  /** What the service's validateThemeInput returns for a theme with sanitiser verdict `s`,
      against `themes`. */
  function ThemeInputVerdict(themes: seq<string>, s: SanitisationResult): (r: ValidationResult<string>)
    ensures r.isValid <==> r.errors == map[]
    ensures r.isValid <==> s.isSafe && !ThemeExistsIn(themes, s.sanitisedInput)
    ensures r.errors.Keys <= {ThemeField}
  {
    var stored := ThemeExistsIn(themes, s.sanitisedInput);
    var errors := ThemeInputErrors(s, stored);
    assert !s.isSafe || stored ==> ThemeField in errors;
    ValidationResult(errors == map[], errors, ThemeInputSuggestion(s, stored))
  }

  /** What the service's validateThemeInput returns for `theme` against `themes`. */
  function ThemeInputResult(themes: seq<string>, theme: string): ValidationResult<string> {
    ThemeInputVerdict(themes, Sanitise(theme))
  }

  /** The service's validateThemeInput rules, applied to the sanitiser's verdict. */
  method ThemeInputRules(store: Store, s: SanitisationResult) returns (r: ValidationResult<string>)
    ensures r == ThemeInputVerdict(store.themes, s)
  {
    var errors: Record := map[];
    var suggestion: Option<string> := None;
    if !s.isSafe {
      errors := errors[ThemeField := IssueText(s.issues)];
      suggestion := Some(s.sanitisedInput);
    }
    ghost var entry := if s.isSafe then None else Some(IssueText(s.issues));
    assert errors == Put(map[], ThemeField, entry);
    var stored := ThemeExistsIn(store.themes, s.sanitisedInput);
    if stored {
      errors := errors[ThemeField := JoinPair(Lookup(errors, ThemeField), Some(DuplicateThemeMessage))];
      suggestion := Some("");
    }
    PutStep(Put(map[], ThemeField, entry), ThemeField, entry, stored, Some(DuplicateThemeMessage));
    r := ValidationResult(|errors| == 0, errors, suggestion);
  }

  /** validateThemeInput of the service, against the stored list. */
  method ValidateThemeInput(store: Store, theme: string) returns (r: ValidationResult<string>)
    ensures r == ThemeInputResult(store.themes, theme)
  {
    var sanitisation := SanitiseInput(theme);
    r := ThemeInputRules(store, sanitisation);
  }

  /** A theme is accepted exactly when the sanitiser leaves it alone and it is not stored
      yet, ignoring case. */
  lemma {:induction false} ThemeInputAccepted(themes: seq<string>, theme: string)
    ensures ThemeInputResult(themes, theme).isValid <==> Sanitise(theme).isSafe && !ThemeExistsIn(themes, theme)
  {
    var s := Sanitise(theme);
    var stored := ThemeExistsIn(themes, s.sanitisedInput);
    if !s.isSafe || stored {
      assert ThemeField in ThemeInputErrors(s, stored);
    }
  }

  /** A theme whose sanitised text is stored already is refused with the duplicate message
      at the end of its `theme` entry, and the suggestion becomes the empty string. */
  lemma {:induction false} ThemeInputDuplicate(themes: seq<string>, s: SanitisationResult)
    requires ThemeExistsIn(themes, s.sanitisedInput)
    ensures var r := ThemeInputVerdict(themes, s);
      && !r.isValid && r.suggestion == Some("")
      && ThemeField in r.errors
      && |r.errors[ThemeField]| >= |DuplicateThemeMessage|
      && r.errors[ThemeField][|r.errors[ThemeField]| - |DuplicateThemeMessage|..] == DuplicateThemeMessage
  {
    var entry := if s.isSafe then None else Some(IssueText(s.issues));
    JoinPairEndsWith(entry, DuplicateThemeMessage);
    assert ThemeInputVerdict(themes, s).errors == map[ThemeField := JoinPair(entry, Some(DuplicateThemeMessage))];
  }

  /** createTheme. A refused theme or a failed save leaves the list as it was; otherwise
      the raw theme is appended and the list stays unique ignoring case. */
  method CreateTheme(store: Store, theme: string, saveOk: bool) returns (r: CreateResult<string, string>)
    modifies store
    ensures var v := ThemeInputResult(old(store.themes), theme);
      && (!v.isValid ==> r == CreateResult(false, v.errors, v.suggestion, None) && store.themes == old(store.themes))
      && (v.isValid && saveOk ==> r == CreateResult(true, map[], None, Some(theme)) && store.themes == old(store.themes) + [theme])
      && (v.isValid && !saveOk ==>
            r == CreateResult(false, map[GeneralField := SaveThemeFailedMessage], None, None)
            && store.themes == old(store.themes))
    ensures store.dreams == old(store.dreams) && store.username == old(store.username)
    ensures UniqueIgnoringCase(old(store.themes)) ==> UniqueIgnoringCase(store.themes)
  {
    var validation := ValidateThemeInput(store, theme);
    if !validation.isValid {
      return CreateResult(validation.isValid, validation.errors, validation.suggestion, None);
    }
    ThemeInputAccepted(store.themes, theme);
    var themeList := store.themes;
    themeList := themeList + [theme];
    if UniqueIgnoringCase(store.themes) {
      AppendNewKeepsUnique(store.themes, theme);
    }
    var saveSuccess := store.SaveThemes(themeList, saveOk);
    if !saveSuccess {
      return CreateResult(false, map[GeneralField := SaveThemeFailedMessage], None, None);
    }
    r := CreateResult(true, map[], None, Some(theme));
  }

  /** `themeList.findIndex((t) => t === theme)`: the first exact match. */
  function IndexOf(themes: seq<string>, theme: string): (r: Option<nat>)
    ensures r.Some? ==> r.value < |themes| && themes[r.value] == theme
    ensures r.Some? ==> forall j :: 0 <= j < r.value ==> themes[j] != theme
    ensures r.None? ==> theme !in themes
  {
    if themes == [] then None
    else if themes[0] == theme then Some(0)
    else
      var rest := IndexOf(themes[1..], theme);
      assert forall j :: 1 <= j < |themes| ==> themes[j] == themes[1..][j - 1];
      if rest.Some? then Some(rest.value + 1) else None
  }

  /** deleteTheme. A theme not stored exactly (case matters here), or a failed save, leaves
      the list as it was; otherwise its first occurrence is removed and the rest keep their
      order. */
  method DeleteTheme(store: Store, theme: string, saveOk: bool) returns (ok: bool)
    modifies store
    ensures var i := IndexOf(old(store.themes), theme);
      && ok == (i.Some? && saveOk)
      && store.themes == (if ok then old(store.themes)[..i.value] + old(store.themes)[i.value + 1..] else old(store.themes))
    ensures store.dreams == old(store.dreams) && store.username == old(store.username)
    ensures UniqueIgnoringCase(old(store.themes)) ==> UniqueIgnoringCase(store.themes)
  {
    var themeList := store.themes;
    var index := IndexOf(themeList, theme);
    if index.None? {
      return false;
    }
    var i := index.value;
    if UniqueIgnoringCase(themeList) {
      RemoveKeepsUnique(themeList, i);
    }
    ok := store.SaveThemes(themeList[..i] + themeList[i + 1..], saveOk);
  }

  /** clearThemes. */
  method ClearThemes(store: Store, clearOk: bool) returns (ok: bool)
    modifies store
    ensures ok == clearOk
    ensures store.themes == (if clearOk then [] else old(store.themes))
    ensures store.dreams == old(store.dreams) && store.username == old(store.username)
  {
    ok := store.ClearThemes(clearOk);
  }

  /** saveDefaultThemes, with the outcomes of the clear and of the two saves. A failed clear
      changes nothing; then the list holds the defaults, or the fallback theme when they
      cannot be saved, or nothing when neither can. */
  method SaveDefaultThemes(store: Store, clearOk: bool, defaultsOk: bool, fallbackOk: bool) returns (ok: bool)
    modifies store
    ensures ok == (clearOk && (defaultsOk || fallbackOk))
    ensures store.themes ==
      if !clearOk then old(store.themes)
      else if defaultsOk then Config.DefaultThemes
      else if fallbackOk then [Config.FallbackTheme]
      else []
    ensures store.dreams == old(store.dreams) && store.username == old(store.username)
    ensures clearOk ==> UniqueIgnoringCase(store.themes)
  {
    var cleared := ClearThemes(store, clearOk);
    if !cleared {
      return false;
    }
    DefaultThemesUnique();
    var saved := store.SaveThemes(Config.DefaultThemes, defaultsOk);
    if !saved {
      saved := store.SaveThemes([Config.FallbackTheme], fallbackOk);
      if !saved {
        return false;
      }
    }
    ok := true;
  }
}
