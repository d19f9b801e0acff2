/**
 * The manifest assembler of app.config.ts: the default-exported function that
 * returns the Expo configuration object, built from fixed literals, `||`
 * fallbacks and conditional spreads over the environment.
 */
module AppConfig {
  import opened Wrappers
  import opened JsValue
  import opened Environment

  const DefaultSlug := "echat-mobile"
  const DefaultProjectId := "0b1cd169-953e-4396-8eb2-5e46f61c56e1"
  const AppScheme := "echatapp"
  const LinkHost := "echat.eyingbao.com"
  const GoogleServicesFileKey := "googleServicesFile"
  const SentryPluginName := "@sentry/react-native/expo"
  const SentryUrl := "https://sentry.io/"

  // ---------------------------------------------------------------------
  // Fixed data: asset paths, colours, usage descriptions, SDK versions.
  // ---------------------------------------------------------------------

  const Splash: Value := Obj(map[
    "image" := Str("./assets/splash.png"),
    "resizeMode" := Str("contain"),
    "backgroundColor" := Str("#ffffff"),
    "enableFullScreenImage_legacy" := Bool(true)])

  const IosInfoPlist: Value := Obj(map[
    "NSCameraUsageDescription" :=
      Str("This app requires access to the camera to upload images and videos."),
    "NSPhotoLibraryUsageDescription" :=
      Str("This app requires access to the photo library to upload images."),
    "NSMicrophoneUsageDescription" :=
      Str("This app requires access to the microphone to record audio."),
    "NSAppleMusicUsageDescription" :=
      Str("This app does not use Apple Music, but a system API may require this permission."),
    "UIBackgroundModes" := Arr([Str("fetch"), Str("remote-notification")]),
    "ITSAppUsesNonExemptEncryption" := Bool(false)])

  const BuildPropertiesOptions: Value := Obj(map[
    "android" := Obj(map[
      "minSdkVersion" := Num(24),
      "compileSdkVersion" := Num(35),
      "targetSdkVersion" := Num(35),
      "enableProguardInReleaseBuilds" := Bool(true)]),
    "ios" := Obj(map["useFrameworks" := Str("static")])])

  /** The iOS properties written before the credentials spread. */
  const IosBeforeCredentials: map<string, Value> := map[
    "supportsTablet" := Bool(true),
    "bundleIdentifier" := Str("com.echat.app"),
    "infoPlist" := IosInfoPlist]

  /** The iOS properties written after the credentials spread. */
  const IosAfterCredentials: map<string, Value> := map[
    "entitlements" := Obj(map["aps-environment" := Str("production")]),
    "associatedDomains" := Arr([Str("applinks:echat.eyingbao.com")])]

  /** The iOS block without the optional credentials key. */
  const IosStaticFields: map<string, Value> := IosBeforeCredentials + IosAfterCredentials

  const AndroidPermissions: seq<Value> := [Str("android.permission.CAMERA"), Str("android.permission.RECORD_AUDIO")]

  /** The Android properties written before the credentials spread. */
  const AndroidBeforeCredentials: map<string, Value> := map[
    "adaptiveIcon" := Obj(map[
      "foregroundImage" := Str("./assets/adaptive-icon.png"),
      "backgroundColor" := Str("#ffffff")]),
    "package" := Str("com.echat.app"),
    "permissions" := Arr(AndroidPermissions)]

  /** The Android properties written after the credentials spread. */
  const AndroidAfterCredentials: map<string, Value> := map["intentFilters" := Arr(IntentFilters())]

  /** The Android block without the optional credentials key. */
  const AndroidStaticFields: map<string, Value> := AndroidBeforeCredentials + AndroidAfterCredentials

  /** The plugin list when crash reporting is not configured. */
  const BasePlugins: seq<Value> := PluginsBefore + PluginsAfter

  /** The plugin entries declared before the Sentry spread. */
  const PluginsBefore: seq<Value> := [
    Str("expo-font"),
    Arr([Str("react-native-permissions"),
         Obj(map["iosPermissions" := Arr([Str("Camera"), Str("PhotoLibrary"), Str("MediaLibrary")])])])]

  /** The plugin entries declared after the Sentry spread. */
  const PluginsAfter: seq<Value> := [
    Str("@react-native-firebase/app"),
    Str("@react-native-firebase/messaging"),
    Arr([Str("expo-build-properties"), BuildPropertiesOptions]),
    Str("./with-ffmpeg-pod.js")]

  // ---------------------------------------------------------------------
  // Deep-link intent filters.
  // ---------------------------------------------------------------------

  /** An intent record: an action, a non-empty list of data entries each of
      which names a scheme, and a category list. */
  predicate IsIntentRecord(v: Value) {
    && v.Obj?
    && "action" in v.fields && v.fields["action"].Str?
    && "category" in v.fields && v.fields["category"].Arr?
    && "data" in v.fields && v.fields["data"].Arr?
    && |v.fields["data"].items| > 0
    && forall d | d in v.fields["data"].items :: d.Obj? && "scheme" in d.fields && d.fields["scheme"].Str?
  }

  /** The schemes of an intent record's data entries, in order. */
  function Schemes(v: Value): seq<string>
    requires IsIntentRecord(v)
  {
    var data := v.fields["data"].items;
    seq(|data|, i requires 0 <= i < |data| => data[i].fields["scheme"].s)
  }

  /** `android.intentFilters`: the HTTPS app link, then the custom scheme. */
  function IntentFilters(): (t: seq<Value>)
    ensures |t| == 2
    ensures forall r | r in t ::
      && IsIntentRecord(r)
      && r.fields["action"] == Str("VIEW")
      && r.fields["category"] == Arr([Str("BROWSABLE"), Str("DEFAULT")])
    ensures Schemes(t[0]) == ["https"] && Field(t[0], "autoVerify") == Some(Bool(true))
    ensures At(t[0], ["data"]) == Some(Arr([Obj(map[
              "scheme" := Str("https"),
              "host" := Str(LinkHost),
              "pathPrefix" := Str("/app/accounts/"),
              "pathPattern" := Str("/*/conversations/*")])]))
    ensures Schemes(t[1]) == [AppScheme] && Field(t[1], "autoVerify") == None
    ensures t[1].fields["data"] == Arr([Obj(map["scheme" := Str(AppScheme)])])
  {
    [ Obj(map[
        "action" := Str("VIEW"),
        "autoVerify" := Bool(true),
        "data" := Arr([Obj(map[
          "scheme" := Str("https"),
          "host" := Str(LinkHost),
          "pathPrefix" := Str("/app/accounts/"),
          "pathPattern" := Str("/*/conversations/*")])]),
        "category" := Arr([Str("BROWSABLE"), Str("DEFAULT")])]),
      Obj(map[
        "action" := Str("VIEW"),
        "data" := Arr([Obj(map["scheme" := Str(AppScheme)])]),
        "category" := Arr([Str("BROWSABLE"), Str("DEFAULT")])]) ]
  }

  // ---------------------------------------------------------------------
  // The assembler.
  // ---------------------------------------------------------------------

  /** `...(process.env.VAR && { googleServicesFile: process.env.VAR })` */
  function CredentialsSpread(env: Env, name: string): (f: map<string, Value>)
    ensures GoogleServicesFileKey in f <==> IsSet(env, name)
    ensures f.Keys <= {GoogleServicesFileKey}
    ensures IsSet(env, name) ==> f[GoogleServicesFileKey] == Str(Lookup(env, name).value)
  {
    var file := Read(env, name);
    AndTruthy(file, Obj(map[GoogleServicesFileKey := file]));
    SpreadObj(And(file, Obj(map[GoogleServicesFileKey := file])))
  }

  /** `{ ...before, ...credentials, ...after }` with the credentials spread
      contributing at most the credentials key, which the static parts lack:
      the static properties are all kept and nothing else is added. */
  lemma SpliceCredentials(before: map<string, Value>, credentials: map<string, Value>, after: map<string, Value>)
    requires GoogleServicesFileKey !in before && GoogleServicesFileKey !in after
    requires credentials.Keys <= {GoogleServicesFileKey}
    ensures (before + credentials + after) - {GoogleServicesFileKey} == before + after
    ensures (before + credentials + after).Keys == before.Keys + after.Keys + credentials.Keys
    ensures GoogleServicesFileKey in credentials ==>
              (before + credentials + after)[GoogleServicesFileKey] == credentials[GoogleServicesFileKey]
  {
  }

  /** The `ios` block. */
  function IosBlock(env: Env): (ios: Value)
    ensures ios.Obj?
    ensures GoogleServicesFileKey in ios.fields <==> IsSet(env, IosGoogleServicesFileVar)
    ensures IsSet(env, IosGoogleServicesFileVar) ==>
              ios.fields[GoogleServicesFileKey] == Str(Lookup(env, IosGoogleServicesFileVar).value)
    ensures ios.fields - {GoogleServicesFileKey} == IosStaticFields
  {
    var credentials := CredentialsSpread(env, IosGoogleServicesFileVar);
    SpliceCredentials(IosBeforeCredentials, credentials, IosAfterCredentials);
    Obj(IosBeforeCredentials + credentials + IosAfterCredentials)
  }

  /** The `android` block. */
  function AndroidBlock(env: Env): (android: Value)
    ensures android.Obj?
    ensures GoogleServicesFileKey in android.fields <==> IsSet(env, AndroidGoogleServicesFileVar)
    ensures IsSet(env, AndroidGoogleServicesFileVar) ==>
              android.fields[GoogleServicesFileKey] == Str(Lookup(env, AndroidGoogleServicesFileVar).value)
    ensures android.fields - {GoogleServicesFileKey} == AndroidStaticFields
  {
    var credentials := CredentialsSpread(env, AndroidGoogleServicesFileVar);
    SpliceCredentials(AndroidBeforeCredentials, credentials, AndroidAfterCredentials);
    Obj(AndroidBeforeCredentials + credentials + AndroidAfterCredentials)
  }

  /** The `extra` block. */
  function Extra(env: Env): (extra: Value)
    ensures At(extra, ["eas", "projectId"]) == Some(Str(ValueOr(env, ProjectIdVar, DefaultProjectId)))
    ensures At(extra, ["eas", "storybookEnabled"]) ==
              Some(match Lookup(env, StorybookEnabledVar)
                   case None => Undefined
                   case Some(s) => Str(s))
    ensures extra.Obj? && extra.fields.Keys == {"eas"}
    ensures extra.fields["eas"].Obj? && extra.fields["eas"].fields.Keys == {"projectId", "storybookEnabled"}
  {
    OrTruthy(Read(env, ProjectIdVar), Str(DefaultProjectId));
    Obj(map["eas" := Obj(map[
      "projectId" := Or(Read(env, ProjectIdVar), Str(DefaultProjectId)),
      "storybookEnabled" := Read(env, StorybookEnabledVar)])])
  }

  /** Crash reporting is configured when both Sentry inputs are set. */
  predicate SentryConfigured(env: Env) {
    IsSet(env, SentryProjectNameVar) && IsSet(env, SentryOrgNameVar)
  }

  /** The Sentry plugin reference for the given project and organisation. */
  function SentryPlugin(project: string, organization: string): Value {
    Arr([Str(SentryPluginName), Obj(map[
      "url" := Str(SentryUrl),
      "project" := Str(project),
      "organization" := Str(organization)])])
  }

  /** The `plugins` list. */
  function PluginList(env: Env): (ps: seq<Value>)
    ensures |ps| == if SentryConfigured(env) then 7 else 6
    ensures ps[..2] == PluginsBefore && ps[|ps| - 4..] == PluginsAfter
    ensures SentryConfigured(env) ==>
              ps[2] == SentryPlugin(Lookup(env, SentryProjectNameVar).value, Lookup(env, SentryOrgNameVar).value)
  {
    var project := Read(env, SentryProjectNameVar);
    var organization := Read(env, SentryOrgNameVar);
    AndTruthy(project, organization);
    PluginsBefore
    + SpreadArr(Cond(And(project, organization),
                     Arr([Arr([Str(SentryPluginName), Obj(map[
                       "url" := Str(SentryUrl),
                       "project" := project,
                       "organization" := organization])])]),
                     Arr([])))
    + PluginsAfter
  }

  /** The ten top-level properties of the configuration object that are
      fixed literals. */
  const FixedTopLevel: map<string, Value> := map[
    "name" := Str("EChat"),
    "version" := Str("4.3.0"),
    "orientation" := Str("portrait"),
    "icon" := Str("./assets/icon.png"),
    "userInterfaceStyle" := Str("light"),
    "newArchEnabled" := Bool(false),
    "scheme" := Str("echatapp"),
    "splash" := Splash,
    "owner" := Str("bafeiyu"),
    "androidNavigationBar" := Obj(map["backgroundColor" := Str("#ffffff")])]

  /** The five top-level properties whose values depend on the environment. */
  const SubstitutedKeys: set<string> := {"slug", "ios", "android", "extra", "plugins"}

  /** The top-level keys of the configuration object. */
  const TopLevelKeys: set<string> := FixedTopLevel.Keys + SubstitutedKeys

  /** The names of the ten fixed top-level properties. */
  const FixedKeyNames: set<string> :=
    {"name", "version", "orientation", "icon", "userInterfaceStyle",
     "newArchEnabled", "scheme", "splash", "owner", "androidNavigationBar"}

  /** The fixed literal defines exactly the ten fixed names. */
  lemma FixedKeys()
    ensures FixedTopLevel.Keys == FixedKeyNames
  {
  }

  /** None of the five substituted keys is among the fixed ones. */
  lemma SubstitutedKeysFresh()
    ensures FixedTopLevel.Keys !! SubstitutedKeys
  {
    assert "slug" !in FixedTopLevel && "ios" !in FixedTopLevel && "android" !in FixedTopLevel;
    assert "extra" !in FixedTopLevel && "plugins" !in FixedTopLevel;
  }

  /** The configuration object has fifteen top-level properties: ten fixed
      and five that depend on the environment. */
  lemma TopLevelKeyCount()
    ensures |FixedTopLevel.Keys| == 10 && |SubstitutedKeys| == 5
    ensures |TopLevelKeys| == 15
  {
    FixedKeys();
    FixedKeyNamesCount();
    SubstitutedKeysFresh();
    DisjointUnionCount(FixedTopLevel.Keys, SubstitutedKeys);
  }

  /** The two key sets have ten and five distinct names. */
  lemma FixedKeyNamesCount()
    ensures |FixedKeyNames| == 10 && |SubstitutedKeys| == 5
  {
  }

  /** The size of a union of disjoint sets is the sum of their sizes. */
  lemma DisjointUnionCount(a: set<string>, b: set<string>)
    requires a !! b
    ensures |a + b| == |a| + |b|
  {
    assert a * b == {};
  }

  /** The configuration object, with the values of its five
      environment-dependent properties as parameters: exactly the fifteen
      top-level keys, the fixed ones holding their literals. */
  function ManifestObject(slug: Value, ios: Value, android: Value, extra: Value, plugins: Value): (m: map<string, Value>)
    ensures m.Keys == TopLevelKeys
    ensures m["slug"] == slug && m["ios"] == ios && m["android"] == android
    ensures m["extra"] == extra && m["plugins"] == plugins
  {
    FixedTopLevel + map[
      "slug" := slug,
      "ios" := ios,
      "android" := android,
      "extra" := extra,
      "plugins" := plugins]
  }

  /** Outside the five substituted keys the configuration object is the
      fixed literal, whatever is substituted. */
  lemma FixedProperties(slug: Value, ios: Value, android: Value, extra: Value, plugins: Value)
    ensures ManifestObject(slug, ios, android, extra, plugins) - SubstitutedKeys == FixedTopLevel
  {
    assert "slug" !in FixedTopLevel && "ios" !in FixedTopLevel && "android" !in FixedTopLevel;
    assert "extra" !in FixedTopLevel && "plugins" !in FixedTopLevel;
  }

  /** The default export, `({ config }) => ({ ... })`. The `config` argument is
      received and not used. */
  function Assemble(config: Value, env: Env): (m: Value)
    ensures m.Obj? && m.fields.Keys == TopLevelKeys
    ensures m.fields - SubstitutedKeys == FixedTopLevel
    ensures m.fields["slug"] == Str(ValueOr(env, AppSlugVar, DefaultSlug))
    ensures |m.fields| == 15
  {
    TopLevelKeyCount();
    var slug := Or(Read(env, AppSlugVar), Str(DefaultSlug));
    OrTruthy(Read(env, AppSlugVar), Str(DefaultSlug));
    assert slug == Str(ValueOr(env, AppSlugVar, DefaultSlug));
    FixedProperties(slug, IosBlock(env), AndroidBlock(env), Extra(env), Arr(PluginList(env)));
    Obj(ManifestObject(
      slug,
      IosBlock(env),
      AndroidBlock(env),
      Extra(env),
      Arr(PluginList(env))))
  }
}
