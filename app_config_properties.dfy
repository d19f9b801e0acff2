/**
 * Properties of the configuration object the assembler returns, stated on
 * the whole object through property paths.
 */
module AppConfigProperties {
  import opened Wrappers
  import opened JsValue
  import opened Environment
  import opened Plugins
  import opened AppConfig

  /** The names of the plugin list, in order, with the Sentry entry present
      or not. */
  function ExpectedPluginNames(withSentry: bool): seq<Option<string>> {
    [Some("expo-font"), Some("react-native-permissions")]
    + (if withSentry then [Some(SentryPluginName)] else [])
    + [Some("@react-native-firebase/app"), Some("@react-native-firebase/messaging"),
       Some("expo-build-properties"), Some("./with-ffmpeg-pod.js")]
  }

  /** The plugin entries the Sentry spread contributes. */
  function SentryPart(env: Env): seq<Value> {
    if SentryConfigured(env)
    then [SentryPlugin(Lookup(env, SentryProjectNameVar).value, Lookup(env, SentryOrgNameVar).value)]
    else []
  }

  /** No two elements of the sequence are equal. */
  predicate Distinct(s: seq<Value>) {
    forall i, j | 0 <= i < j < |s| :: s[i] != s[j]
  }

  /** Property access one level down. */
  lemma AtOne(v: Value, a: string)
    ensures At(v, [a]) == Field(v, a)
  {
    assert [a][1..] == [];
  }

  /** Property access two levels down. */
  lemma AtTwo(v: Value, a: string, b: string)
    ensures At(v, [a, b]) == (if Field(v, a).Some? then Field(Field(v, a).value, b) else None)
  {
    assert [a, b][1..] == [b];
    assert [b][1..] == [];
    if Field(v, a).Some? {
      var child := Field(v, a).value;
      if Field(child, b).Some? {
        assert At(Field(child, b).value, []) == Some(Field(child, b).value);
      }
    }
  }

  /** Property access three levels down. */
  lemma AtThree(v: Value, a: string, b: string, c: string)
    ensures At(v, [a, b, c]) == (if Field(v, a).Some? then At(Field(v, a).value, [b, c]) else None)
  {
    assert [a, b, c][1..] == [b, c];
  }

  lemma {:induction false} SlugFallback(config: Value, env: Env)
    ensures IsSet(env, AppSlugVar) ==> At(Assemble(config, env), ["slug"]) == Some(Str(Lookup(env, AppSlugVar).value))
    ensures !IsSet(env, AppSlugVar) ==> At(Assemble(config, env), ["slug"]) == Some(Str(DefaultSlug))
  {
    var m := Assemble(config, env);
    AtOne(m, "slug");
  }

  lemma ProjectIdFallback(config: Value, env: Env)
    ensures IsSet(env, ProjectIdVar) ==>
              At(Assemble(config, env), ["extra", "eas", "projectId"]) == Some(Str(Lookup(env, ProjectIdVar).value))
    ensures !IsSet(env, ProjectIdVar) ==>
              At(Assemble(config, env), ["extra", "eas", "projectId"]) == Some(Str(DefaultProjectId))
  {
    var m := Assemble(config, env);
    AtThree(m, "extra", "eas", "projectId");
  }

  lemma StorybookPassthrough(config: Value, env: Env)
    ensures Lookup(env, StorybookEnabledVar).None? ==>
              At(Assemble(config, env), ["extra", "eas", "storybookEnabled"]) == Some(Undefined)
    ensures Lookup(env, StorybookEnabledVar).Some? ==>
              At(Assemble(config, env), ["extra", "eas", "storybookEnabled"]) ==
              Some(Str(Lookup(env, StorybookEnabledVar).value))
  {
    var m := Assemble(config, env);
    AtThree(m, "extra", "eas", "storybookEnabled");
  }

  /** `ios.googleServicesFile` exists exactly when its input is set, holds
      that input verbatim, and leaves every static iOS property in place. */
  lemma IosCredentialsKey(config: Value, env: Env)
    ensures IsSet(env, IosGoogleServicesFileVar) ==>
              At(Assemble(config, env), ["ios", GoogleServicesFileKey]) ==
              Some(Str(Lookup(env, IosGoogleServicesFileVar).value))
    ensures !IsSet(env, IosGoogleServicesFileVar) ==>
              At(Assemble(config, env), ["ios", GoogleServicesFileKey]) == None
    ensures forall key | key in IosStaticFields :: At(Assemble(config, env), ["ios", key]) == Some(IosStaticFields[key])
  {
    var m := Assemble(config, env);
    AtTwo(m, "ios", GoogleServicesFileKey);
    forall key | key in IosStaticFields
      ensures At(m, ["ios", key]) == Some(IosStaticFields[key])
    {
      AtTwo(m, "ios", key);
      assert key != GoogleServicesFileKey;
      assert key in IosBlock(env).fields - {GoogleServicesFileKey};
    }
  }

  /** The same rule for `android.googleServicesFile`; the static Android
      properties, `intentFilters` among them, stay in place. */
  lemma AndroidCredentialsKey(config: Value, env: Env)
    ensures IsSet(env, AndroidGoogleServicesFileVar) ==>
              At(Assemble(config, env), ["android", GoogleServicesFileKey]) ==
              Some(Str(Lookup(env, AndroidGoogleServicesFileVar).value))
    ensures !IsSet(env, AndroidGoogleServicesFileVar) ==>
              At(Assemble(config, env), ["android", GoogleServicesFileKey]) == None
    ensures forall key | key in AndroidStaticFields ::
              At(Assemble(config, env), ["android", key]) == Some(AndroidStaticFields[key])
  {
    var m := Assemble(config, env);
    AtTwo(m, "android", GoogleServicesFileKey);
    forall key | key in AndroidStaticFields
      ensures At(m, ["android", key]) == Some(AndroidStaticFields[key])
    {
      AtTwo(m, "android", key);
      assert key != GoogleServicesFileKey;
      assert key in AndroidBlock(env).fields - {GoogleServicesFileKey};
    }
  }

  /** Two of the static Android properties. */
  lemma AndroidStaticLookups()
    ensures "intentFilters" in AndroidStaticFields && AndroidStaticFields["intentFilters"] == Arr(IntentFilters())
    ensures "permissions" in AndroidStaticFields && AndroidStaticFields["permissions"] == Arr(AndroidPermissions)
  {
  }

  /** `android.intentFilters` is the fixed two-record table, whatever the inputs. */
  lemma IntentFiltersFixed(config: Value, env: Env)
    ensures At(Assemble(config, env), ["android", "intentFilters"]) == Some(Arr(IntentFilters()))
  {
    AndroidStaticLookups();
    AndroidCredentialsKey(config, env);
  }

  /** `android.permissions` is the fixed list, whatever the inputs. */
  lemma PermissionsFixed(config: Value, env: Env)
    ensures At(Assemble(config, env), ["android", "permissions"]) == Some(Arr(AndroidPermissions))
  {
    AndroidStaticLookups();
    AndroidCredentialsKey(config, env);
  }

  /** `android.permissions` lists no permission twice. */
  lemma PermissionsDistinct()
    ensures Distinct(AndroidPermissions)
  {
  }

  lemma NamesBefore()
    ensures Names(PluginsBefore) == [Some("expo-font"), Some("react-native-permissions")]
  {
    NamesAppend([PluginsBefore[0]], [PluginsBefore[1]]);
    assert PluginsBefore == [PluginsBefore[0]] + [PluginsBefore[1]];
  }

  lemma NamesAfter()
    ensures Names(PluginsAfter) == [Some("@react-native-firebase/app"), Some("@react-native-firebase/messaging"),
                                   Some("expo-build-properties"), Some("./with-ffmpeg-pod.js")]
  {
    NamesAppend([PluginsAfter[0], PluginsAfter[1]], [PluginsAfter[2], PluginsAfter[3]]);
    NamesAppend([PluginsAfter[0]], [PluginsAfter[1]]);
    NamesAppend([PluginsAfter[2]], [PluginsAfter[3]]);
    assert PluginsAfter == [PluginsAfter[0]] + [PluginsAfter[1]] + ([PluginsAfter[2]] + [PluginsAfter[3]]);
  }

  /** The plugin list is the fixed head, the optional Sentry entry and the
      fixed tail. */
  lemma PluginListParts(env: Env)
    ensures PluginList(env) == PluginsBefore + SentryPart(env) + PluginsAfter
  {
    var ps := PluginList(env);
    assert ps == ps[..2] + ps[2..|ps| - 4] + ps[|ps| - 4..];
    if SentryConfigured(env) {
      assert ps[2..|ps| - 4] == [ps[2]];
    } else {
      assert ps[2..|ps| - 4] == [];
    }
  }

  /** The names of the plugin list follow the declared order, with the
      Sentry entry right after `react-native-permissions` when configured. */
  lemma PluginOrder(env: Env)
    ensures Names(PluginList(env)) == ExpectedPluginNames(SentryConfigured(env))
  {
    PluginListParts(env);
    var middle := SentryPart(env);
    NamesAppend(PluginsBefore + middle, PluginsAfter);
    NamesAppend(PluginsBefore, middle);
    NamesBefore();
    NamesAfter();
    if SentryConfigured(env) {
      NamesAppend([], middle);
      assert middle == [middle[0]];
    }
  }

  /** The fixed parts of the plugin list hold no Sentry entry. */
  lemma NoSentryInFixedParts()
    ensures Occurrences(PluginsBefore, SentryPluginName) == 0
    ensures Occurrences(PluginsAfter, SentryPluginName) == 0
  {
    NamesBefore();
    NamesAfter();
    OccurrencesNames(PluginsBefore, SentryPluginName);
    OccurrencesNames(PluginsAfter, SentryPluginName);
  }

  /** The Sentry entry occurs exactly once when both Sentry inputs are set,
      and not at all otherwise. */
  lemma SentryEntry(env: Env)
    ensures Occurrences(PluginList(env), SentryPluginName) == if SentryConfigured(env) then 1 else 0
  {
    PluginListParts(env);
    NoSentryInFixedParts();
    OccurrencesAppend(PluginsBefore + SentryPart(env), PluginsAfter, SentryPluginName);
    OccurrencesAppend(PluginsBefore, SentryPart(env), SentryPluginName);
  }

  /** Removing the Sentry entry from the plugin list gives the base list. */
  lemma WithoutSentryIsBase(env: Env)
    ensures Without(PluginList(env), SentryPluginName) == BasePlugins
    ensures Occurrences(Without(PluginList(env), SentryPluginName), SentryPluginName) == 0
  {
    WithoutRemoves(PluginList(env), SentryPluginName);
    PluginListParts(env);
    NoSentryInFixedParts();
    WithoutAppend(PluginsBefore + SentryPart(env), PluginsAfter, SentryPluginName);
    WithoutAppend(PluginsBefore, SentryPart(env), SentryPluginName);
    WithoutAbsent(PluginsBefore, SentryPluginName);
    WithoutAbsent(PluginsAfter, SentryPluginName);
    assert Without(SentryPart(env), SentryPluginName) == [];
  }

  /** Without both Sentry inputs set, the plugin list is the base list. */
  lemma UnconfiguredSentryIsBase(env: Env)
    requires !SentryConfigured(env)
    ensures PluginList(env) == BasePlugins
  {
    PluginListParts(env);
  }

  /** Setting only one of the two Sentry inputs gives the plugin list of
      setting neither. */
  lemma HalfConfiguredSentryIgnored(env: Env)
    requires IsSet(env, SentryProjectNameVar) != IsSet(env, SentryOrgNameVar)
    ensures PluginList(env) == PluginList(env[SentryProjectNameVar := None][SentryOrgNameVar := None])
  {
    var neither := env[SentryProjectNameVar := None][SentryOrgNameVar := None];
    assert !IsSet(neither, SentryOrgNameVar);
    UnconfiguredSentryIsBase(env);
    UnconfiguredSentryIsBase(neither);
  }

  /** The plugin list, at its path in the configuration object. */
  lemma PluginsAtPath(config: Value, env: Env)
    ensures At(Assemble(config, env), ["plugins"]) == Some(Arr(PluginList(env)))
  {
    AtOne(Assemble(config, env), "plugins");
  }

  /** The `config` argument has no influence on the result. */
  lemma ConfigIgnored(config1: Value, config2: Value, env: Env)
    ensures Assemble(config1, env) == Assemble(config2, env)
  {
  }

  /** Two environments that agree on the seven recognised inputs. */
  predicate AgreeOnRecognized(env1: Env, env2: Env) {
    forall name | name in RecognizedVars :: Lookup(env1, name) == Lookup(env2, name)
  }

  lemma BlocksOnlyReadRecognized(env1: Env, env2: Env)
    requires AgreeOnRecognized(env1, env2)
    ensures IosBlock(env1) == IosBlock(env2)
    ensures AndroidBlock(env1) == AndroidBlock(env2)
  {
    assert Read(env1, IosGoogleServicesFileVar) == Read(env2, IosGoogleServicesFileVar);
    assert Read(env1, AndroidGoogleServicesFileVar) == Read(env2, AndroidGoogleServicesFileVar);
  }

  lemma ExtraAndPluginsOnlyReadRecognized(env1: Env, env2: Env)
    requires AgreeOnRecognized(env1, env2)
    ensures Extra(env1) == Extra(env2)
    ensures PluginList(env1) == PluginList(env2)
  {
    assert Read(env1, ProjectIdVar) == Read(env2, ProjectIdVar);
    assert Read(env1, StorybookEnabledVar) == Read(env2, StorybookEnabledVar);
    assert Read(env1, SentryProjectNameVar) == Read(env2, SentryProjectNameVar);
    assert Read(env1, SentryOrgNameVar) == Read(env2, SentryOrgNameVar);
  }

  /** Only the seven recognised inputs influence the result. */
  lemma OnlyRecognizedInputs(config: Value, env1: Env, env2: Env)
    requires AgreeOnRecognized(env1, env2)
    ensures Assemble(config, env1) == Assemble(config, env2)
  {
    assert Read(env1, AppSlugVar) == Read(env2, AppSlugVar);
    BlocksOnlyReadRecognized(env1, env2);
    ExtraAndPluginsOnlyReadRecognized(env1, env2);
  }

  /** Every top-level property other than `slug`, `ios`, `android`, `extra`
      and `plugins` is independent of the inputs. */
  lemma FixedTopLevelIndependent(config1: Value, env1: Env, config2: Value, env2: Env)
    ensures Assemble(config1, env1).fields - SubstitutedKeys == Assemble(config2, env2).fields - SubstitutedKeys
  {
  }

  /** Within `ios`, `android` and `plugins`, everything but the optional
      entries is independent of the inputs. */
  lemma FixedBlockPartsIndependent(env1: Env, env2: Env)
    ensures IosBlock(env1).fields - {GoogleServicesFileKey} == IosBlock(env2).fields - {GoogleServicesFileKey}
    ensures AndroidBlock(env1).fields - {GoogleServicesFileKey} == AndroidBlock(env2).fields - {GoogleServicesFileKey}
    ensures Without(PluginList(env1), SentryPluginName) == Without(PluginList(env2), SentryPluginName)
  {
    WithoutSentryIsBase(env1);
    WithoutSentryIsBase(env2);
  }

  /** With no input set: both credentials keys are absent, both fallbacks
      are used, `storybookEnabled` is `undefined` and the plugin list is the
      base list. */
  lemma EmptyEnvironment(config: Value)
    ensures At(Assemble(config, map[]), ["slug"]) == Some(Str(DefaultSlug))
    ensures At(Assemble(config, map[]), ["extra", "eas", "projectId"]) == Some(Str(DefaultProjectId))
    ensures At(Assemble(config, map[]), ["extra", "eas", "storybookEnabled"]) == Some(Undefined)
    ensures At(Assemble(config, map[]), ["ios", GoogleServicesFileKey]) == None
    ensures At(Assemble(config, map[]), ["android", GoogleServicesFileKey]) == None
    ensures At(Assemble(config, map[]), ["plugins"]) == Some(Arr(BasePlugins))
    ensures At(Assemble(config, map[]), ["android", "intentFilters"]) == Some(Arr(IntentFilters()))
  {
    var env: Env := map[];
    SlugFallback(config, env);
    ProjectIdFallback(config, env);
    StorybookPassthrough(config, env);
    IosCredentialsKey(config, env);
    AndroidCredentialsKey(config, env);
    PluginsAtPath(config, env);
    UnconfiguredSentryIsBase(env);
    IntentFiltersFixed(config, env);
  }

  /** With both Sentry inputs set to "p" and "o": exactly one Sentry entry,
      between `react-native-permissions` and `@react-native-firebase/app`. */
  lemma SentryScenario(config: Value)
    ensures PluginList(map[SentryProjectNameVar := Some("p"), SentryOrgNameVar := Some("o")]) ==
            PluginsBefore + [SentryPlugin("p", "o")] + PluginsAfter
    ensures Occurrences(PluginList(map[SentryProjectNameVar := Some("p"), SentryOrgNameVar := Some("o")]),
                        SentryPluginName) == 1
  {
    var env: Env := map[SentryProjectNameVar := Some("p"), SentryOrgNameVar := Some("o")];
    assert Lookup(env, SentryProjectNameVar) == Some("p");
    assert Lookup(env, SentryOrgNameVar) == Some("o");
    PluginListParts(env);
    SentryEntry(env);
  }
}
