# Bucket list: a Dafny model of its input handling, validation and services

The bucket-list web app keeps a user's dreams (a name, a theme and a checked flag), the list
of themes those dreams can take, and the logged-in username in the browser's storage. Every
piece of text the user types goes through one sanitiser, `sanitiseInput`:

- it refuses blank input;
- it strips `<script>` blocks and then any other HTML tag;
- it trims whitespace;
- it cuts the text to 50 characters;
- it records one issue per stage that acted.

Validators built on that sanitiser check a username, a password, a theme and the new-dream
form, and the services check for duplicates before they save. The services are
`dreamService`, `themeService`, `authService` and the older `auth.ts` login. A small logger
filters messages by level.

This project models that core in Dafny and proves what it promises:

- Sanitiser: the output is never longer than 50 characters and never contains a tag. The
  issues come in stage order and are empty exactly when the result is safe. A safe result
  is a fixed point.
- Validators: each one accepts exactly the inputs described in its row below. The usernames
  they suggest pass the same validator.
- Services: dream ids stay distinct, and stored themes stay unique ignoring case through
  every create, delete and reset. A refused input or a failed save leaves the storage as it
  was, with two exceptions. `createNewUser` clears the stored username after any refusal, so
  a refused password removes a username stored earlier. `saveDefaultThemes` clears the
  themes first, so after a successful clear a failed save of the defaults leaves only the
  fallback theme, and a failed save of both leaves no themes. Deleting or updating a dream
  touches only that dream.
- Logger: a message is emitted exactly when its level is at or above the current level.

Modules follow the source files:

- `Sanitiser` models `utils/sanitiseInput.ts`.
- `IdGenerator` models `utils/generateId.ts`.
- `UserValidation`, `ThemeValidation` and `DreamValidation` model the three validation files.
- `DreamService`, `ThemeService`, `AuthService` and `LegacyAuth` (for `services/auth.ts`)
  model the services.
- `Logger` models `utils/logger.ts`.
- `Storage.Store` is the browser storage the services read and write. It is a class whose
  `dreams`, `themes` and `username` fields the service methods update.
- `Text`, `Results`, `Config` and `Wrappers` hold the string functions, the error records,
  the constants and `Option`/`Result`.

Each validator is written as a rules method over the sanitiser's verdict plus a wrapper that
runs the sanitiser first. The spec functions (`UsernameErrors`, `ThemeErrors`, …) state what
the validator returns. The lemmas then say which inputs each validator accepts.

## Model

| member | source | states |
|---|---|---|
| Text.ContainsWhitespaceAt | src/validation/userValidation.ts:31 | `/\s/.test(s)` holds exactly when some character of `s` is JavaScript whitespace |
| Text.ContainsDigitAt | src/validation/userValidation.ts:70 | `/\d/.test(s)` holds exactly when some character of `s` is an ASCII digit |
| Text.Lower | src/services/dreamService.ts:38-40 | `toLowerCase` keeps the length and lower-cases each character on its own |
| Text.Trim | src/utils/sanitiseInput.ts:62 | `trim()` never lengthens the text |
| Text.TrimSlice | src/utils/sanitiseInput.ts:62 | the trimmed text is a slice of the input; everything cut off is whitespace and neither end of the result is whitespace |
| Text.TrimIdempotent | src/utils/sanitiseInput.ts:61-66 | trimming twice is trimming once |
| Text.TrimEmptyIffBlank | src/utils/sanitiseInput.ts:34 | `!raw.trim()` holds exactly when every character of `raw` is whitespace |
| Text.ReplaceWhitespace | src/validation/userValidation.ts:35 | `replace(/\s/g, "_")` keeps the length and leaves no whitespace |
| Text.ReplaceWhitespaceAt | src/validation/userValidation.ts:35 | each whitespace character becomes `_` and every other character is kept in place |
| Text.ReplaceWhitespaceNone | src/validation/userValidation.ts:35 | on text without whitespace the replacement changes nothing |
| Text.JoinLinesEmpty | src/validation/userValidation.ts:20 | `issues.join("\n")` of non-empty issues is empty exactly when there are none |
| Text.AppendPair | src/validation/userValidation.ts:26-28 | `[acc, msg].filter(Boolean).join("\n")` on an accumulated join is the join of all truthy messages so far |
| Text.FilteredAppend | src/validation/userValidation.ts:25-36 | one guarded append step: the entry exists exactly when an earlier rule or this one fired, and it is the join of the truthy messages of the rules that fired |
| Text.TwoSteps | src/validation/userValidation.ts:65-77 | two guarded appends give the join of the messages of the rules that fired, absent when none fired |
| Text.ThreeSteps | src/validation/userValidation.ts:19-36 | three guarded appends give the join of the messages of the rules that fired, absent when none fired |
| Text.JoinPairEndsWith | src/services/themeService.ts:54-56 | appending a non-empty message makes the entry end with it, after a newline when the entry was non-empty |
| Text.NatToString | src/utils/sanitiseInput.ts:71 | the length quoted in the too-long issue is a string of decimal digits whose value is the length, with no leading zero unless the length is 0 |
| Sanitiser.Messages | src/utils/sanitiseInput.ts:30-74 | the issue texts correspond one-to-one, in order, to the recorded issues |
| Sanitiser.ScriptBlockLen | src/utils/sanitiseInput.ts:47 | `<script[^>]*>[\s\S]*?<\/script>` matches at the start (case-insensitive) exactly when the text starts with `<script`, has a `>` after it and a `</script>` after that `>`; the match runs to the end of the first such `</script>` |
| Sanitiser.StripScripts | src/utils/sanitiseInput.ts:47-51 | removing script blocks never lengthens the text and changes it exactly when a block is present |
| Sanitiser.TagLen | src/utils/sanitiseInput.ts:54-56 | `<\/?[^>]+(>\|$)` matches at a position exactly when a `<` is followed by a character other than `>`; the match runs to the first `>` after the `<`, or to the end of the text when there is none |
| Sanitiser.HasTagIffNotTagFree | src/utils/sanitiseInput.ts:54 | the tag test fires exactly when some `<` is followed by a character other than `>` |
| Sanitiser.StripTags | src/utils/sanitiseInput.ts:54-58 | removing tags never lengthens the text, leaves it tag-free, and changes it exactly when a tag is present |
| Sanitiser.ScriptImpliesTag | src/utils/sanitiseInput.ts:47-58 | any script block also matches the tag pattern |
| Sanitiser.TagFreeHasNoScript | src/utils/sanitiseInput.ts:47 | tag-free text contains no script block |
| Sanitiser.TagFreeSlice | src/utils/sanitiseInput.ts:62-73 | trimming and cutting keep a text tag-free |
| Sanitiser.CleanedIsTrimmed | src/utils/sanitiseInput.ts:60-66 | after the trim stage no whitespace is left at either end |
| Sanitiser.StageIssues | src/utils/sanitiseInput.ts:46-74 | at most one issue per stage, in stage order, and none exactly when no stage acted |
| Sanitiser.StageIssuesRecordStages | src/utils/sanitiseInput.ts:46-74 | each stage's issue is present exactly when that stage acted, the too-long issue included: it is present, quoting the length before the cut, when the text is cut and absent otherwise |
| Sanitiser.IssuesBeforeLength | src/utils/sanitiseInput.ts:46-66 | the script, tag and trim issues are present exactly when their stages acted, in that order |
| Sanitiser.Sanitise | src/utils/sanitiseInput.ts:29-85 | blank input gives the empty-input issue and an empty output; the output never exceeds 50 characters; safe exactly when there are no issues; a safe result returns the input unchanged |
| Sanitiser.SanitiseReportsStages | src/utils/sanitiseInput.ts:46-58 | issues come in stage order; the script and tag issues appear exactly when their patterns match; the original input is masked exactly then |
| Sanitiser.SanitiseIssueCount | src/utils/sanitiseInput.ts:30-77 | an unsafe result has between one and four issues, and a safe one has none |
| Sanitiser.SanitiseTruncates | src/utils/sanitiseInput.ts:69-74 | text over 50 characters is cut to its first 50 and the issue quotes the earlier length; shorter text is kept whole |
| Sanitiser.SanitisedIsTagFree | src/utils/sanitiseInput.ts:47-58 | no tag and no script block survives sanitisation |
| Sanitiser.SanitiseOnTagFree | src/utils/sanitiseInput.ts:60-77 | on tag-free text of at most 50 characters only the trim acts; the result is safe exactly when the text is non-empty and already trimmed |
| Sanitiser.SanitiseProjection | src/utils/sanitiseInput.ts:60-74 | sanitising a sanitised text only trims it again; without a cut it is a fixed point, safe unless empty |
| Sanitiser.SafeIsFixedPoint | src/utils/sanitiseInput.ts:77-83 | re-sanitising a safe result's output gives the same result |
| Sanitiser.SanitiseInput | src/utils/sanitiseInput.ts:29-85 | the step-by-step sanitiser computes exactly `Sanitise` |
| IdGenerator.MaxFrom | src/utils/generateId.ts:7-11 | the running maximum bounds every id and is either the start value or one of the ids |
| IdGenerator.GenerateId | src/utils/generateId.ts:1-15 | a counter gives counter + 1; a list gives one more than its largest id (at least 1, above every id); with neither the call fails with the missing-argument message |
| Results.PutStep | src/validation/userValidation.ts:26-28 | one guarded append to a single-entry record gives the record of the next step |
| Results.PutAbsent | src/validation/userValidation.ts:80-82 | a guarded append to a key not yet present adds that key alone |
| UserValidation.UsernameRules | src/validation/userValidation.ts:19-42 | returns the record of unsafe, too-short and contains-spaces messages under `username`, the suggestion, and valid exactly when there are no errors |
| UserValidation.ValidateUsername | src/validation/userValidation.ts:11-43 | validateUsername is the rules applied to the sanitiser's verdict on the username |
| UserValidation.PasswordRules | src/validation/userValidation.ts:55-88 | an unsafe password gives only the sanitiser's issues; otherwise too-short and no-digit messages go under `password` and a spaces entry under `username`; valid exactly when there are no errors |
| UserValidation.ValidatePassword | src/validation/userValidation.ts:51-89 | validatePassword is the rules applied to the sanitiser's verdict on the password |
| UserValidation.UsernameErrorsJoined | src/validation/userValidation.ts:19-36 | the `username` entry is present exactly when a rule fired and is the newline-join of the fired rules' messages |
| UserValidation.PasswordEntryJoined | src/validation/userValidation.ts:65-77 | the `password` entry of a safe password is present exactly when it is too short or has no digit, and joins those two messages |
| UserValidation.UsernameRulesPass | src/validation/userValidation.ts:19-39 | the rules pass exactly when the verdict is safe, its text is non-empty and has no whitespace |
| UserValidation.UsernameAccepted | src/validation/userValidation.ts:11-43 | a username passes exactly when the sanitiser leaves it alone and it has no whitespace; an accepted username has 1 to 50 characters, is trimmed and tag-free |
| UserValidation.ReplaceWhitespaceTagFree | src/validation/userValidation.ts:35 | replacing whitespace by `_` creates no tag |
| UserValidation.SanitiseWithoutWhitespace | src/utils/sanitiseInput.ts:34-77 | tag-free text of at most 50 characters without whitespace is safe exactly when non-empty |
| UserValidation.UsernameSuggestionAccepted | src/validation/userValidation.ts:19-36 | every non-empty suggested username passes validateUsername |
| UserValidation.PasswordRulesPass | src/validation/userValidation.ts:55-86 | the rules pass exactly when the verdict is safe and the password has six characters, a digit and no whitespace |
| UserValidation.PasswordAccepted | src/validation/userValidation.ts:51-89 | a password passes exactly when the sanitiser leaves it alone and it has six characters, a digit and no whitespace |
| ThemeValidation.ThemeErrors | src/validation/themeValidation.ts:12-21 | the only possible error key is `theme` |
| ThemeValidation.ThemeRules | src/validation/themeValidation.ts:12-27 | the unsafe and placeholder messages under `theme`, the sanitised suggestion, valid exactly when there are no errors |
| ThemeValidation.ValidateThemeInput | src/validation/themeValidation.ts:4-28 | validateThemeInput is the rules applied to the sanitiser's verdict |
| ThemeValidation.ThemeRulesPass | src/validation/themeValidation.ts:12-24 | the rules pass exactly when the verdict is safe and is not the `prompt` option |
| ThemeValidation.ThemeAccepted | src/validation/themeValidation.ts:4-28 | a theme passes exactly when the sanitiser leaves it alone and it is not `prompt`; its sanitised text is then the theme itself |
| ThemeValidation.ThemeSuggestionAccepted | src/validation/themeValidation.ts:14 | a suggested theme passes exactly when it is non-empty and trimmed |
| DreamValidation.DreamFormSuggestion | src/validation/dreamValidation.ts:13-19 | when present the suggestion holds only the `dream` key |
| DreamValidation.DreamFormRules | src/validation/dreamValidation.ts:13-31 | the name's issues under `dream`, the theme validator's `theme` entry, and valid exactly when there are no errors |
| DreamValidation.ThemeResult | src/validation/themeValidation.ts:4-28 | the theme is accepted exactly when the sanitiser finds it safe and it is not the prompt option; valid exactly when there are no errors, and errors are only ever under `theme` |
| DreamValidation.DreamFormResult | src/validation/dreamValidation.ts:5-32 | the form is accepted exactly when the sanitiser finds both the name and the theme safe and the theme is not the prompt option; valid exactly when there are no errors, which are only under `dream` and `theme` |
| DreamValidation.ValidateDreamForm | src/validation/dreamValidation.ts:5-32 | validateDreamForm returns the form result of the name's verdict and the theme's result |
| DreamValidation.DreamFormRulesPass | src/validation/dreamValidation.ts:13-31 | the form passes exactly when the name is safe and the theme passes; the theme entry is passed through; only `dream` and `theme` keys occur |
| DreamValidation.DreamFormAccepted | src/validation/dreamValidation.ts:5-32 | a form passes exactly when the sanitiser leaves the name and the theme alone and the theme is not `prompt` |
| DreamService.AnyMatchesAt | src/services/dreamService.ts:34-45 | dreamExists holds exactly when some stored dream matches the name (and the theme, when one is given) |
| DreamService.DreamExistsCaseInsensitive | src/services/dreamService.ts:34-45 | names equal ignoring case match the same dreams; a match with a theme is a match without one; an empty theme means no theme |
| DreamService.Ids | src/models/types.ts:4-9 | the ids of the stored dreams, one per dream, in order |
| DreamService.NextId | src/services/dreamService.ts:98 | a new id is at least 1 and above every stored id |
| DreamService.AppendFreshKeepsDistinct | src/services/dreamService.ts:97-106 | appending a dream whose id is above all others keeps the ids distinct |
| DreamService.NewDreamResult | src/services/dreamService.ts:50-68 | for a form result that is valid exactly when it has no errors, the dream is accepted exactly when the form is valid and no stored dream has the same name; a duplicate adds the duplicate message under `dream` and drops the suggestion, otherwise the form's errors are kept unchanged and a suggestion is returned |
| DreamService.ValidateNewDream | src/services/dreamService.ts:50-68 | the form result, refused with the duplicate message when a stored dream has the name ignoring case |
| DreamService.NewDreamAccepted | src/services/dreamService.ts:50-68 | a new dream passes exactly when the form passes and no stored dream has the name; a valid form refused as a duplicate carries only the duplicate message |
| DreamService.CreateDream | src/services/dreamService.ts:79-118 | a refusal or a failed save leaves the dreams as they were; success appends the new dream with the next id; other storage unchanged; ids stay distinct |
| DreamService.IndexOfId | src/services/dreamService.ts:127-132 | `findIndex` gives the first dream with the id, or none when no dream has it |
| DreamService.DeleteDream | src/services/dreamService.ts:125-141 | removes the first dream with the id when there is one and the save succeeds, else changes nothing |
| DreamService.DeleteRemovesId | src/services/dreamService.ts:125-141 | with distinct ids, deleting a present id leaves no dream with it and keeps the ids distinct |
| DreamService.UpdateDreamChecked | src/services/dreamService.ts:149-165 | sets `isChecked` on the first dream with the id when there is one and the save succeeds, else changes nothing |
| DreamService.UpdateKeepsIds | src/services/dreamService.ts:149-165 | updating the checked flag keeps every id and their distinctness |
| DreamService.ClearDreams | src/services/dreamService.ts:14-20 | the dream list is emptied exactly when the clear succeeds |
| ThemeService.LowerAll | src/services/themeService.ts:34 | the stored themes lower-cased one by one |
| ThemeService.ThemeExistsAt | src/services/themeService.ts:32-36 | themeExists holds exactly when some stored theme equals the theme ignoring case |
| ThemeService.AppendNewKeepsUnique | src/services/themeService.ts:74-101 | appending a theme not already stored keeps the list unique ignoring case |
| ThemeService.ThemeInputVerdict | src/services/themeService.ts:41-65 | a theme is accepted exactly when the sanitiser finds it safe and no stored theme equals the cleaned text; valid exactly when there are no errors, which are only under `theme` |
| ThemeService.ThemeInputRules | src/services/themeService.ts:46-64 | the sanitiser's issues and the duplicate message under `theme`, with the suggestion the source sets |
| ThemeService.ValidateThemeInput | src/services/themeService.ts:41-65 | validateThemeInput checks the sanitised theme against the stored list |
| ThemeService.ThemeInputAccepted | src/services/themeService.ts:41-65 | a theme passes exactly when the sanitiser leaves it alone and it is not stored ignoring case |
| ThemeService.ThemeInputDuplicate | src/services/themeService.ts:53-58 | a stored theme is refused, its `theme` entry ends with the duplicate message and the suggestion is empty |
| ThemeService.CreateTheme | src/services/themeService.ts:74-101 | a refusal or a failed save leaves the themes as they were; success appends the raw theme; other storage unchanged; themes stay unique ignoring case |
| ThemeService.IndexOf | src/services/themeService.ts:110 | `findIndex` gives the first exact match, or none when the theme is absent |
| ThemeService.RemoveKeepsUnique | src/services/themeService.ts:117-119 | removing one theme keeps the list unique ignoring case |
| ThemeService.DefaultThemesUnique | src/constants/dreamThemes.ts:5-11 | the default themes are unique ignoring case |
| ThemeService.DeleteTheme | src/services/themeService.ts:108-124 | removes the first exact match when there is one and the save succeeds, else changes nothing; themes unique ignoring case stay unique |
| ThemeService.ClearThemes | src/services/themeService.ts:13-19 | the theme list is emptied exactly when the clear succeeds |
| ThemeService.SaveDefaultThemes | src/services/themeService.ts:131-144 | a failed clear changes nothing; then the defaults, else the fallback `dröm`, else nothing is stored; it succeeds exactly when the clear and one save do; after a successful clear the stored themes are unique ignoring case |
| AuthService.UsernameResult | src/services/authService.ts:91-123 | a username is accepted exactly when the sanitiser finds it safe and it contains no whitespace; valid exactly when there are no errors, which are only under `username` |
| AuthService.UsernameRules | src/services/authService.ts:96-122 | the unsafe, too-short and spaces messages under `username`, the string suggestion, valid exactly when there are no errors |
| AuthService.ValidateUsername | src/services/authService.ts:91-123 | validateUsername is the rules applied to the sanitiser's verdict |
| AuthService.PasswordResult | src/services/authService.ts:131-166 | a password is accepted exactly when the sanitiser finds it safe, it has at least six characters, a digit and no whitespace; valid exactly when there are no errors, which are only under `password` and `username` |
| AuthService.PasswordRules | src/services/authService.ts:135-165 | the unsafe, too-short and no-digit messages under `password`, the spaces entry under `username`, valid exactly when there are no errors |
| AuthService.ValidatePassword | src/services/authService.ts:131-166 | validatePassword is the rules applied to the sanitiser's verdict |
| AuthService.UsernameRulesAgree | src/services/authService.ts:91-123 | the service's username check uses the same keys and accepts the same inputs as the validation module's, and suggests the same text |
| AuthService.PasswordRulesAgree | src/services/authService.ts:131-166 | the service's password check uses the same keys and accepts the same inputs as the validation module's |
| AuthService.UpdateOutcome | src/services/authService.ts:66-84 | the update succeeds exactly when the username passes and the save succeeds, and then carries that username and no errors; a refused username returns the validator's errors and suggestion; a failed save returns only the `general` save-failure message |
| AuthService.UpdateUsername | src/services/authService.ts:66-84 | the username is stored exactly when the update succeeds; nothing else changes |
| AuthService.ClearUsername | src/services/authService.ts:42-49 | the stored username is removed exactly when the clear succeeds |
| AuthService.LoadUsername | src/services/authService.ts:55-57 | the stored username, or the empty string when none is stored |
| AuthService.CreateNewUser | src/services/authService.ts:174-200 | succeeds exactly when the update and the password check do; on failure it returns their `username` and `password` entries and the suggestion and clears the stored username when the clear succeeds |
| AuthService.NewUserAccepted | src/services/authService.ts:174-200 | a user is created exactly when the username passes, its save succeeds, and the password is safe with six characters, a digit and no whitespace |
| LegacyAuth.PasswordMessages | src/services/auth.ts:74-95 | exactly one message per failed rule: too-short when under six characters, first, and needs-a-number when there is no digit, last |
| LegacyAuth.ValidateUsername | src/services/auth.ts:55-72 | succeeds exactly when the username has at least one character, else gives the too-short message |
| LegacyAuth.ValidatePassword | src/services/auth.ts:74-95 | succeeds exactly when the password has six characters and a digit, with the messages above |
| LegacyAuth.Login | src/services/auth.ts:6-53 | fails exactly when any error was filed, returning the errors and the suggestion and storing nothing; otherwise stores the sanitised username |
| LegacyAuth.LoginSucceeds | src/services/auth.ts:6-53 | login succeeds exactly when both inputs pass the sanitiser check, the username is non-empty and the password has six characters and a digit |
| LegacyAuth.LoginErrorKeys | src/services/auth.ts:18-43 | sanitiser issues go under `username`, the username rule under `usernames`, and a non-empty sanitiser message under `password` wins over the password rules |
| Logger.Rank | src/utils/logger.ts:13-20 | the levels are numbered 0 to 5 |
| Logger.RankOrdered | src/utils/logger.ts:13-20 | the levels rank strictly upwards from `trace` through `debug`, `info`, `warn` and `error` to `silent` |
| Logger.RankInjective | src/utils/logger.ts:13-20 | distinct levels have distinct numbers |
| Logger.SimpleLogger.Default | src/utils/logger.ts:24-26 | a logger made without a level starts at `info` |
| Logger.SimpleLogger.constructor | src/utils/logger.ts:24-26 | a logger starts at the level it is given |
| Logger.SimpleLogger.SetLevel | src/utils/logger.ts:28-30 | setLevel makes the given level current |
| Logger.SimpleLogger.Log | src/utils/logger.ts:32-62 | a message is emitted exactly when its level ranks at or above the current level (`Emits`), through `error`, `warn`, `info` or else `log` |
| Logger.SimpleLogger.TraceMessage | src/utils/logger.ts:65-67 | trace messages go to `console.log` when the current level is at most `trace` |
| Logger.SimpleLogger.DebugMessage | src/utils/logger.ts:69-71 | debug messages go to `console.log` when the current level is at most `debug` |
| Logger.SimpleLogger.InfoMessage | src/utils/logger.ts:73-75 | info messages go to `console.info` when the current level is at most `info` |
| Logger.SimpleLogger.WarnMessage | src/utils/logger.ts:77-79 | warnings go to `console.warn` when the current level is at most `warn` |
| Logger.SimpleLogger.ErrorMessage | src/utils/logger.ts:81-83 | errors go to `console.error` when the current level is at most `error` |
| Logger.SilentEmitsNothing | src/utils/logger.ts:13-36 | at level `silent` `Log` emits no message at any of the five levels the public methods use, and at level `trace` it emits every one of them |
| Logger.SharedLogger | src/utils/logger.ts:86-94 | the logger `getLogger` returns is a new logger at `debug` |
| Storage.Store.constructor | src/services/dreamService.ts:26-28 | storage starts with no dreams, no themes and no username |
| Storage.Store.SaveDreams | src/services/dreamService.ts:106-110 | a save that succeeds replaces the dream list; a failed one changes nothing |
| Storage.Store.ClearDreams | src/services/dreamService.ts:15 | a clear that succeeds empties the dream list; a failed one changes nothing |
| Storage.Store.SaveThemes | src/services/themeService.ts:89-93 | a save that succeeds replaces the theme list; a failed one changes nothing |
| Storage.Store.ClearThemes | src/services/themeService.ts:14 | a clear that succeeds empties the theme list; a failed one changes nothing |
| Storage.Store.SaveUsername | src/services/authService.ts:77-80 | a save that succeeds stores the username; a failed one changes nothing |
| Storage.Store.ClearUsername | src/services/authService.ts:43 | a clear that succeeds removes the username; a failed one changes nothing |
| Storage.Store.SetUsername | src/utils/storage.ts:1-3 | setUsername always stores the username |

## Left out

- Logger.SharedLogger: each call makes a new logger. The source builds one instance at module load and every importer shares it, so a `setLevel` made through one importer is seen by all; that sharing is not modelled.
- Lengths count Unicode code points, not UTF-16 code units. `length` and `slice(0, 50)` therefore differ from the source on text with characters outside the Basic Multilingual Plane.
- Text.Lower: lower-cases ASCII and Latin-1 capitals only. Other scripts are left unchanged, unlike `toLowerCase`.
- The `i` flag of the script pattern folds ASCII letters only. This matches JavaScript for a regular expression without the `u` flag and these ASCII letters.
- `validateAndSanitiseInput`, which `services/auth.ts` imports, is not part of this model. `LegacyAuth.Login` takes its two results as parameters (`Check`).
- The storage wrappers (`dreamStorage`, `themeStorage`, `userStorage`, `clearAllStorage`) are not part of this model. They become the fields of `Storage.Store`, and each save or clear takes its success as a parameter. JSON encoding, the `|| []` fallback for missing or corrupt data, and `localStorage` exceptions are not modelled.
- `loadDreams` and `loadThemes` are reads of `Store.dreams` and `Store.themes`.
- Logger: timestamps, the `[LEVEL]` prefix, extra arguments and the console output itself are left out. `Log` returns the console method, level and message it would print.
- The redirects in `authService.ts` (lines 13-36) and `logOut` (lines 206-213) are left out. They drive page navigation and `clearAllStorage`.
- The UI, pages and components are not part of this model.
- Entries whose value is `undefined` are modelled as absent keys. This covers `createNewUser`'s `username`/`password` entries and the absent `CONTAINS_SPACES` message.
- AuthService.UsernameRules: `constants/errorMessages.ts` defines no `CONTAINS_SPACES`, so that message is `undefined` and `filter(Boolean)` drops it. The model keeps this behaviour: a safe username containing whitespace is refused with an empty `username` entry, and the same holds for the `username` entry of `AuthService.PasswordRules`.
- The validation modules return their suggestion record under the property `suggestions`, while `ValidationResult` declares `suggestion`. The model keeps the record in its single `suggestion` field.
- AuthService.CreateNewUser: the `general` save-failure message and the password check's `username` spaces entry are dropped, as in the source.
- The source also spells the theme save error "Failed to save them.", and the model keeps that text.
- DreamService.CreateDream: ids are one more than the largest stored id, as the code computes them. After the dream with the largest id is deleted, its id can be given out again, so ids are distinct at any time but not increasing over time.
- DreamService.CreateDream: the dream's theme is not checked against the stored themes, because the code does not check it.
- UserValidation.UsernameSuggestionAccepted: covers only non-empty suggestions. Blank input yields the empty suggestion, which the validator refuses.
- `isChecked` is optional in `createDream`. The model passes it as an `Option<bool>` defaulting to false.
