/**
  * The API-key configuration: reading the environment key, the
  * plausibility test on a key, and the validated key the rest of the
  * dashboard falls back on. The environment value is a parameter (None
  * when the variable is not set).
  */
module Config {
  import opened Js
  import opened Text

  /** Keys shorter than this, once trimmed, are refused. */
  const MinKeyLength := 10

  /** `getApiKey`: '' when the variable is unset or empty, else its trimmed value. */
  function GetApiKey(env: Option<string>): (key: string)
    ensures env.None? || env.value == "" ==> key == ""
    ensures env.Some? && env.value != "" ==> key == Trim(env.value)
  {
    if env.None? || env.value == "" then "" else Trim(env.value)
  }

  /** The key read from the environment is already trimmed. */
  lemma GetApiKeyTrimmed(env: Option<string>)
    ensures Trim(GetApiKey(env)) == GetApiKey(env)
  {
    if env.Some? && env.value != "" {
      TrimIdempotent(env.value);
    }
  }

  /** `validateApiKey`: false for a blank key, else whether the trimmed key has at least ten characters. */
  predicate ValidateApiKey(key: string) {
    if IsBlank(key) then false else |Trim(key)| >= MinKeyLength
  }

  /** The blank test is subsumed: a key is valid exactly when its trimmed length is at least ten. */
  lemma ValidateMeaning(key: string)
    ensures ValidateApiKey(key) <==> |Trim(key)| >= MinKeyLength
    ensures IsBlank(key) ==> !ValidateApiKey(key)
  {
  }

  /** `getValidatedApiKey`: the environment key when it is valid, else ''. */
  function GetValidatedApiKey(env: Option<string>): (key: string)
    ensures key == "" || (key == GetApiKey(env) && ValidateApiKey(key))
    ensures key == "" <==> !ValidateApiKey(GetApiKey(env))
  {
    var key := GetApiKey(env);
    if !ValidateApiKey(key) then "" else key
  }

  /** `isApiKeyConfigured`. */
  predicate IsApiKeyConfigured(env: Option<string>) {
    ValidateApiKey(GetApiKey(env))
  }

  /** The key counts as configured exactly when the validated key is not ''. */
  lemma ConfiguredIffValidated(env: Option<string>)
    ensures IsApiKeyConfigured(env) <==> GetValidatedApiKey(env) != ""
  {
  }

  /** An unset, empty or whitespace-only variable is never configured. */
  lemma BlankEnvNotConfigured(env: Option<string>)
    requires env.None? || IsBlank(env.value)
    ensures !IsApiKeyConfigured(env) && GetValidatedApiKey(env) == ""
  {
  }
}
