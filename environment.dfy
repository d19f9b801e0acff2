/**
 * The environment the assembler reads: a map from variable name to an
 * optional string, standing for `process.env`.
 */
module Environment {
  import opened Wrappers
  import opened JsValue

  type Env = map<string, Option<string>>

  const AppSlugVar := "EXPO_PUBLIC_APP_SLUG"
  const ProjectIdVar := "EXPO_PUBLIC_PROJECT_ID"
  const IosGoogleServicesFileVar := "EXPO_PUBLIC_IOS_GOOGLE_SERVICES_FILE"
  const AndroidGoogleServicesFileVar := "EXPO_PUBLIC_ANDROID_GOOGLE_SERVICES_FILE"
  const SentryProjectNameVar := "EXPO_PUBLIC_SENTRY_PROJECT_NAME"
  const SentryOrgNameVar := "EXPO_PUBLIC_SENTRY_ORG_NAME"
  const StorybookEnabledVar := "EXPO_STORYBOOK_ENABLED"

  /** The names the assembler reads. */
  const RecognizedVars: set<string> :=
    {AppSlugVar, ProjectIdVar, IosGoogleServicesFileVar, AndroidGoogleServicesFileVar,
     SentryProjectNameVar, SentryOrgNameVar, StorybookEnabledVar}

  /** The raw value of a variable; a name missing from the map is unset. */
  function Lookup(env: Env, name: string): Option<string> {
    if name in env then env[name] else None
  }

  /** A variable is set when it holds a non-empty string. */
  predicate IsSet(env: Env, name: string) {
    Lookup(env, name).Some? && |Lookup(env, name).value| > 0
  }

  /** The value of `process.env.NAME`: the string, or `undefined`. */
  function Read(env: Env, name: string): (v: Value)
    ensures v.Undefined? <==> Lookup(env, name).None?
    ensures v.Str? ==> Lookup(env, name) == Some(v.s)
    ensures Lookup(env, name).Some? ==> v == Str(Lookup(env, name).value)
    ensures Truthy(v) <==> IsSet(env, name)
    ensures ObjectSpreadable(v) <==> !IsSet(env, name)
  {
    match Lookup(env, name)
    case None => Undefined
    case Some(s) => Str(s)
  }

  /** The value of a variable when it is set, otherwise the fallback. */
  function ValueOr(env: Env, name: string, fallback: string): string {
    if IsSet(env, name) then Lookup(env, name).value else fallback
  }
}
