/**
 * The constants the core reads: src/constants/globalConfig.ts, authConfig.ts,
 * messages.ts (AUTH_MESSAGES.ERROR), errorMessages.ts (ERROR_MESSAGES) and dreamThemes.ts.
 */
module Config {
  import opened Wrappers

  /** INPUT_MAX_LENGTH. */
  const InputMaxLength: nat := 50

  /** AUTH_CONFIG. */
  const UsernameMinLength: nat := 1
  const PasswordMinLength: nat := 6
  const PasswordMustContainNumber: bool := true

  /** AUTH_MESSAGES.ERROR, used by src/validation/userValidation.ts. */
  const AuthContainsSpaces: string := "Fältet får inte innehålla mellanslag."
  const AuthUsernameTooShort: string := "Användarnamnet måste vara minst 1 tecken långt."
  const AuthPasswordTooShort: string := "Lösenordet måste vara minst 6 tecken långt."
  const AuthPasswordRequiresNumber: string := "Lösenordet måste innehålla en siffra."

  /** ERROR_MESSAGES, used by src/services/authService.ts and src/services/auth.ts. */
  const ErrorUsernameTooShort: string := "Username must be at least 1 characters."
  const ErrorPasswordTooShort: string := "Password must be at least 6 characters."
  const ErrorPasswordRequiresNumber: string := "Password must contain a number."
  /** ERROR_MESSAGES has no CONTAINS_SPACES entry, so authService's lookup of it is
      `undefined`; `filter(Boolean)` then drops it from the joined message. */
  const ErrorContainsSpaces: Option<string> := None

  /** defaultThemes, and the single fallback theme saveDefaultThemes stores when they cannot be saved. */
  const DefaultThemes: seq<string> := ["teknikdrömmar", "vardagsdrömmar", "husdrömmar", "sportdrömmar", "resdrömmar"]
  const FallbackTheme: string := "dröm"
}
