# EChat mobile app manifest assembler, in Dafny

`app.config.ts` exports one function: given Expo's config context it returns
the app's Expo configuration object (name, slug, version, splash, the `ios`
and `android` blocks, `extra.eas`, the plugin list, ...). Nearly all of it is
literal data. The logic is in a few JavaScript expressions over `process.env`:

- `||` fallbacks for the slug and the EAS project id;
- `...(VAR && { googleServicesFile: VAR })` spreads that add the Firebase
  credentials key to the iOS and Android blocks;
- a spread of `PROJECT && ORG ? [[sentry, {...}]] : []` inside the plugin
  list, which splices the Sentry plugin in only when both inputs are set;
- the raw pass-through of `EXPO_STORYBOOK_ENABLED`.

The model keeps that shape. `JsValue` is a datatype of JavaScript values
(`undefined`, booleans, numbers, strings, arrays, objects as maps), with
JavaScript truthiness and the operators `||`, `&&`, `?:`, object spread and
array spread written as functions. `Environment` models `process.env` as an
immutable map from variable name to `Option<string>`: a name that is missing
or maps to `None` reads as `undefined`. A variable is *set* when it holds a
non-empty string, which is exactly when its value is truthy, so the empty
string behaves like an absent variable for `||`, `&&` and the spreads.
`AppConfig` writes the function body with those operators, term for term.
The top-level object is built by `ManifestObject` as the map of its ten fixed
properties joined with its five input-dependent ones (`slug`, `ios`,
`android`, `extra`, `plugins`). Maps carry no key order, so this is the same
object as the literal.
`Plugins` reads plugin lists by name, and `AppConfigProperties` states and
proves what the configuration object promises.

Two details follow the code rather than a loose reading of it:

- The Sentry entry sits right after `react-native-permissions` and before
  `@react-native-firebase/app` (app.config.ts:82-96). It does not sit after
  the Firebase messaging entry, and the model says so in `PluginOrder`.
- `storybookEnabled` is always a key of `extra.eas`. When the variable is
  absent its value is `undefined`, and the empty string stays the empty
  string. In contrast `googleServicesFile` is genuinely missing from its block
  when its variable is unset or empty, because spreading `undefined` or `''`
  adds no property.

The code does not check the credentials paths at all, so the model rejects
nothing: every environment yields a configuration object.

## Model

| member | source | states |
|---|---|---|
| Environment.Read | app.config.ts:3-115 | `process.env.NAME` (read at lines 6, 34-35, 45-46, 75-76, 84 and 90-91) is `undefined` exactly when the variable is absent, otherwise exactly `Str` of the raw string; it is truthy exactly when the variable is set and non-empty |
| JsValue.OrTruthy | app.config.ts:6 | the JavaScript or, `Or(a, b)`, is truthy iff either operand is, yields `a` when `a` is truthy and `b` otherwise (also used at line 75) |
| JsValue.AndTruthy | app.config.ts:84 | the JavaScript and, `And(a, b)`, is truthy iff both operands are, yields `b` when `a` is truthy and `a` otherwise (also used at lines 34 and 45) |
| AppConfig.CredentialsSpread | app.config.ts:34-36 | the spread contributes the `googleServicesFile` key iff the variable is set and non-empty, holding the raw value, and no other key |
| AppConfig.SpliceCredentials | app.config.ts:33-38 | splicing the credentials fragment between two static parts keeps every static property and adds only the credentials key |
| AppConfig.IosBlock | app.config.ts:19-39 | `ios.googleServicesFile` is present iff `EXPO_PUBLIC_IOS_GOOGLE_SERVICES_FILE` is set, equals it exactly, and removing it leaves exactly the static iOS properties |
| AppConfig.AndroidBlock | app.config.ts:40-72 | the same for `android.googleServicesFile`; `package`, `permissions` and `intentFilters` stay as declared |
| AppConfig.IntentFilters | app.config.ts:48-71 | two records, all with action VIEW and category BROWSABLE, DEFAULT, every data entry with a scheme; first the auto-verified https link for echat.eyingbao.com, then the `echatapp` scheme record |
| AppConfig.Extra | app.config.ts:73-78 | `eas.projectId` is the variable when set, otherwise the fallback UUID; `eas.storybookEnabled` is the raw value, `undefined` when absent; no other keys |
| AppConfig.PluginList | app.config.ts:80-112 | 7 entries when both Sentry inputs are set, otherwise 6; the fixed head and tail; the third entry is the Sentry reference with the fixed URL and both inputs verbatim |
| AppConfig.ManifestObject | app.config.ts:4-114 | the object has exactly the fifteen top-level keys, with the five input-dependent values at their keys |
| AppConfig.TopLevelKeyCount | app.config.ts:4-114 | the literal has fifteen distinct top-level keys: ten fixed and five input-dependent ones |
| AppConfig.FixedProperties | app.config.ts:4-114 | outside `slug`, `ios`, `android`, `extra` and `plugins` the object is the fixed literal |
| AppConfig.Assemble | app.config.ts:3-115 | the result has exactly the fifteen top-level keys, its fixed properties are the literals, and the slug is the variable when set, otherwise `echat-mobile` |
| AppConfigProperties.SlugFallback | app.config.ts:6 | `slug` equals `EXPO_PUBLIC_APP_SLUG` when set and non-empty, otherwise `echat-mobile` |
| AppConfigProperties.ProjectIdFallback | app.config.ts:75 | `extra.eas.projectId` equals `EXPO_PUBLIC_PROJECT_ID` when set and non-empty, otherwise the fallback UUID |
| AppConfigProperties.StorybookPassthrough | app.config.ts:76 | `extra.eas.storybookEnabled` is `undefined` when the variable is absent and the raw string, the empty one included, otherwise |
| AppConfigProperties.IosCredentialsKey | app.config.ts:34-36 | at path `ios.googleServicesFile`: the input when set, no property at all otherwise; every static iOS property is at its path |
| AppConfigProperties.AndroidCredentialsKey | app.config.ts:45-47 | the same for `android.googleServicesFile` and the static Android properties |
| AppConfigProperties.IntentFiltersFixed | app.config.ts:48-71 | `android.intentFilters` is the fixed two-record table for every input |
| AppConfigProperties.PermissionsFixed | app.config.ts:43 | `android.permissions` is the fixed list for every input |
| AppConfigProperties.PermissionsDistinct | app.config.ts:43 | `android.permissions` holds no duplicate |
| AppConfigProperties.PluginListParts | app.config.ts:80-112 | the plugin list is the fixed head, the optional Sentry entry and the fixed tail |
| AppConfigProperties.PluginOrder | app.config.ts:80-112 | plugin names in order: expo-font, react-native-permissions, Sentry when configured, firebase app, firebase messaging, expo-build-properties, ./with-ffmpeg-pod.js |
| AppConfigProperties.SentryEntry | app.config.ts:84-95 | the Sentry plugin occurs exactly once when both inputs are set and never otherwise |
| AppConfigProperties.WithoutSentryIsBase | app.config.ts:80-112 | removing the Sentry entry from the plugin list gives the base list, which holds no Sentry entry |
| AppConfigProperties.UnconfiguredSentryIsBase | app.config.ts:84-95 | unless both Sentry inputs are set, the plugin list is the base list |
| AppConfigProperties.HalfConfiguredSentryIgnored | app.config.ts:84-95 | with only one Sentry input set, the plugin list is the one obtained with neither set |
| AppConfigProperties.PluginsAtPath | app.config.ts:80 | `plugins` holds the plugin list |
| AppConfigProperties.ConfigIgnored | app.config.ts:3 | the `config` argument has no influence on the result |
| AppConfigProperties.OnlyRecognizedInputs | app.config.ts:3-115 | two environments that agree on the seven variables read give the same object |
| AppConfigProperties.FixedTopLevelIndependent | app.config.ts:4-114 | the ten fixed top-level properties are the same for all inputs |
| AppConfigProperties.FixedBlockPartsIndependent | app.config.ts:19-112 | without the optional entries, `ios`, `android` and the plugin list are the same for all inputs |
| AppConfigProperties.EmptyEnvironment | app.config.ts:3-115 | with nothing set: both fallbacks, no credentials keys, `storybookEnabled` undefined, the base plugin list and the two intent records |
| Plugins.WithoutRemoves | app.config.ts:80-112 | after removing a name from any plugin list, the name no longer occurs |
| AppConfigProperties.SentryScenario | app.config.ts:84-95 | with the Sentry inputs "p" and "o": exactly one Sentry entry, carrying them, between react-native-permissions and the Firebase entries |
| Plugins.NamesAppend | app.config.ts:80-112 | the names of a concatenation are the concatenated names |
| Plugins.OccurrencesAppend | app.config.ts:80-112 | occurrences of a name add up over a concatenation |
| Plugins.WithoutAppend | app.config.ts:80-112 | removing a name distributes over concatenation |
| Plugins.WithoutAbsent | app.config.ts:80-112 | removing a name that does not occur changes nothing |

Running the function twice on the same environment gives equal objects and
equal plugin order because the model is a function: determinism needs no
lemma.

The conditional `JsValue.Cond`, the object spread `JsValue.SpreadObj` and
the array spread `JsValue.SpreadArr` have no row of their own: they occur
only at lines 34-36, 45-47 and 84-95, and the contracts of
`AppConfig.CredentialsSpread` and `AppConfig.PluginList` fix their effect
there completely.

## Left out

- Reading `process.env`: the environment is a parameter of `Assemble`.
- The `ExpoConfig` and `ConfigContext` types of `expo/config`: the model
  builds the object the function returns, and the `config` argument is an
  arbitrary value, because the function ignores it.
- The plugins themselves (`expo-build-properties`, Firebase, Sentry, the
  local `./with-ffmpeg-pod.js`, which is not part of this model) and the Expo
  build that consumes the object.
- The key order of JavaScript objects: objects are Dafny maps, so the
  insertion order of properties is not modelled. The order of arrays (the
  plugin list and the intent filters) is.
- JsValue.SpreadObj: spreading a non-empty string or an array into an object
  literal, which adds index-named properties, is not modelled. Its
  precondition admits objects and primitives that add no property, which are
  the only values the assembler spreads.
- JsValue.SpreadArr: spreading anything but an array into an array literal is
  not modelled. The assembler spreads only the two arrays of a conditional.
- Numbers are integers, so NaN and fractions are absent from truthiness.
  The SDK numbers in the configuration are integers.
- Asset paths, colours, usage descriptions and SDK versions are plain
  constants. No property is stated about them beyond their being fixed.
