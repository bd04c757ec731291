/**
 How the web module resolves its settings: every key is looked up under the
 module's namespace in the host's application settings, a missing or blank
 value falls back to a default, flags and the mirror timeout are parsed with
 the framework's parsers, paths beginning with `~/` are mapped to the file
 system, and the role-mapping section switches its middleware on when it holds
 a non-blank value.
 */
module AppSettings {
  import opened Platform
  import opened Text

  /** The host's application settings: full key to stored value. */
  type Settings = map<string, string>

  /**
   The `roleMappings` configuration section; `None` when the section is
   missing or is not a name/value collection.
   */
  type RoleMappingSection = Option<map<string, string>>

  /** Prefix that keeps this module's settings apart from the host's own. */
  const Namespace: string := "NuGet.Lucene.Web:"

  /** Marker of an application-relative path. */
  const AppRelativePrefix: string := "~/"

  /** Text parsed for the mirror timeout when none is configured. */
  const DefaultMirrorTimeoutText: string := "0:00:15"

  /** Seconds of mirror timeout used when the configured text does not parse. */
  const FallbackMirrorTimeoutSeconds: int := 15

  // Names of the settings the module reads, each stored under `Namespace`.
  const SynchronizeOnStartKey: string := "synchronizeOnStart"
  const EnablePackageFileWatcherKey: string := "enablePackageFileWatcher"
  const GroupPackageFilesByIdKey: string := "groupPackageFilesById"
  const LucenePathKey: string := "lucenePath"
  const PackagesPathKey: string := "packagesPath"
  const SymbolsPathKey: string := "symbolsPath"
  const DebuggingToolsPathKey: string := "debuggingToolsPath"
  const LocalAdministratorApiKeyKey: string := "localAdministratorApiKey"
  const ShowExceptionDetailsKey: string := "showExceptionDetails"
  const EnableCrossDomainRequestsKey: string := "enableCrossDomainRequests"
  const HandleLocalRequestsAsAdminKey: string := "handleLocalRequestsAsAdmin"
  const AllowAnonymousPackageChangesKey: string := "allowAnonymousPackageChanges"
  const RoutePathPrefixKey: string := "routePathPrefix"
  const PackageMirrorTargetUrlKey: string := "packageMirrorTargetUrl"
  const AlwaysCheckMirrorKey: string := "alwaysCheckMirror"
  const PackageMirrorTimeoutKey: string := "packageMirrorTimeout"

  /** Every setting name the module reads. */
  const SettingNames: seq<string> := [
    SynchronizeOnStartKey, EnablePackageFileWatcherKey, GroupPackageFilesByIdKey,
    LucenePathKey, PackagesPathKey, SymbolsPathKey,
    DebuggingToolsPathKey, LocalAdministratorApiKeyKey, ShowExceptionDetailsKey,
    EnableCrossDomainRequestsKey, HandleLocalRequestsAsAdminKey, AllowAnonymousPackageChangesKey,
    RoutePathPrefixKey, PackageMirrorTargetUrlKey, AlwaysCheckMirrorKey,
    PackageMirrorTimeoutKey
  ]

  // ---------------------------------------------------------------------------
  // Key namespacing

  /** The full application-settings key under which setting `key` is stored. */
  function AppSettingKey(key: string): (r: string)
    ensures StartsWith(r, Namespace)
    ensures r[|Namespace|..] == key
  {
    Namespace + key
  }

  /** Inverse of `AppSettingKey`: the setting name of a full key, if it is namespaced. */
  function StripNamespace(fullKey: string): (r: Option<string>)
    ensures r.Some? <==> StartsWith(fullKey, Namespace)
    ensures r.Some? ==> AppSettingKey(r.value) == fullKey
  {
    if StartsWith(fullKey, Namespace) then Some(fullKey[|Namespace|..]) else None
  }

  /** The namespace is added exactly once: stripping it recovers the name. */
  lemma NamespaceRoundTrip(key: string)
    ensures StripNamespace(AppSettingKey(key)) == Some(key)
  {
  }

  /** Distinct setting names never share a full key. */
  lemma AppSettingKeyInjective(a: string, b: string)
    requires AppSettingKey(a) == AppSettingKey(b)
    ensures a == b
  {
    assert a == AppSettingKey(a)[|Namespace|..];
  }

  /** A bare setting name: it starts with a lower-case ASCII letter. */
  predicate IsBareName(key: string) {
    |key| > 0 && 'a' <= key[0] <= 'z'
  }

  /**
   Every name the module reads is bare, so it is not itself namespaced, and
   its full key carries the namespace once, not twice.
   */
  lemma SettingKeysNamespacedOnce(i: int)
    requires 0 <= i < |SettingNames|
    ensures StripNamespace(SettingNames[i]) == None
    ensures StripNamespace(AppSettingKey(SettingNames[i])) == Some(SettingNames[i])
  {
    assert IsBareName(SettingNames[i]);
  }

  // ---------------------------------------------------------------------------
  // Plain string settings

  /** The stored value of setting `key`, `None` when it is absent. */
  function Lookup(s: Settings, key: string): Option<string> {
    var fullKey := AppSettingKey(key);
    if fullKey in s then Some(s[fullKey]) else None
  }

  /** `GetAppSetting`: the stored value, or `default` when it is absent or blank. */
  function GetAppSetting(s: Settings, key: string, default: string): (r: string)
    ensures AppSettingKey(key) !in s ==> r == default
    ensures AppSettingKey(key) in s && AllWhiteSpace(s[AppSettingKey(key)]) ==> r == default
    ensures AppSettingKey(key) in s && !AllWhiteSpace(s[AppSettingKey(key)]) ==> r == s[AppSettingKey(key)]
  {
    var value := Lookup(s, key);
    if IsNullOrWhiteSpace(value) then default else value.value
  }

  /** A non-blank default guarantees a non-blank setting. */
  lemma NonBlankDefaultGivesNonBlank(s: Settings, key: string, default: string)
    requires !AllWhiteSpace(default)
    ensures !AllWhiteSpace(GetAppSetting(s, key, default))
  {
  }

  /** The settings hold no entry in the module's namespace: only the host's own. */
  predicate NoModuleSettings(s: Settings) {
    forall fullKey :: fullKey in s ==> !StartsWith(fullKey, Namespace)
  }

  /** The default decides the result exactly when the stored value is missing or blank. */
  lemma DefaultMattersExactlyWhenBlank(s: Settings, key: string, d1: string, d2: string)
    requires d1 != d2
    ensures GetAppSetting(s, key, d1) != GetAppSetting(s, key, d2) <==> IsNullOrWhiteSpace(Lookup(s, key))
  {
  }

  /** Entries whose keys do not start with the namespace, compared exactly, never influence a setting. */
  lemma ForeignEntriesInvisible(s: Settings, fullKey: string, value: string, key: string, default: string)
    requires !StartsWith(fullKey, Namespace)
    ensures GetAppSetting(s[fullKey := value], key, default) == GetAppSetting(s, key, default)
  {
    assert AppSettingKey(key) != fullKey;
  }

  /** Writing a resolved setting back under its own key and resolving again changes nothing. */
  lemma StoreResolvedIsStable(s: Settings, key: string, default: string)
    ensures var r := GetAppSetting(s, key, default);
            GetAppSetting(s[AppSettingKey(key) := r], key, default) == r
  {
  }

  // ---------------------------------------------------------------------------
  // Flags

  /**
   `GetFlagFromAppSetting`: the setting read with the empty string as default,
   then parsed; a value that does not parse yields `default`.
   */
  function GetFlagFromAppSetting(h: Host, s: Settings, key: string, default: bool): (r: bool)
    ensures IsNullOrWhiteSpace(Lookup(s, key)) && h.tryParseBool("") == None ==> r == default
    ensures !IsNullOrWhiteSpace(Lookup(s, key)) && h.tryParseBool(Lookup(s, key).value).Some? ==>
              r == h.tryParseBool(Lookup(s, key).value).value
    ensures !IsNullOrWhiteSpace(Lookup(s, key)) && h.tryParseBool(Lookup(s, key).value).None? ==>
              r == default
  {
    h.tryParseBool(GetAppSetting(s, key, "")).GetOr(default)
  }

  /** Setting `key` holds a non-blank value that parses as `b`. */
  predicate StoredFlag(h: Host, s: Settings, key: string, b: bool) {
    var v := Lookup(s, key);
    !IsNullOrWhiteSpace(v) && h.tryParseBool(v.value) == Some(b)
  }

  /** The default of a flag decides the result exactly when the value read does not parse. */
  lemma FlagDefaultMattersExactlyWhenUnparsed(h: Host, s: Settings, key: string)
    ensures GetFlagFromAppSetting(h, s, key, true) != GetFlagFromAppSetting(h, s, key, false)
            <==> h.tryParseBool(GetAppSetting(s, key, "")).None?
  {
  }

  /** A flag that defaults to true is false exactly when `false` is stored. */
  lemma TrueByDefault(h: Host, s: Settings, key: string)
    requires h.tryParseBool("") == None
    ensures !GetFlagFromAppSetting(h, s, key, true) <==> StoredFlag(h, s, key, false)
  {
  }

  /** A flag that defaults to false is true exactly when `true` is stored. */
  lemma FalseByDefault(h: Host, s: Settings, key: string)
    requires h.tryParseBool("") == None
    ensures GetFlagFromAppSetting(h, s, key, false) <==> StoredFlag(h, s, key, true)
  {
  }

  // ---------------------------------------------------------------------------
  // Paths

  /**
   `MapPathFromAppSetting`: an application-relative setting (`~/...`) is
   mapped by the web host when hosted; otherwise every `~/` is removed and the
   rest is combined with the current directory. Other values are returned as
   they are.
   */
  function MapPathFromAppSetting(h: Host, s: Settings, key: string, default: string): (r: string)
    ensures var path := GetAppSetting(s, key, default);
            && (!StartsWith(path, AppRelativePrefix) ==> r == path)
            && (StartsWith(path, AppRelativePrefix) && h.isHosted ==> r == h.mapPath(path))
            && (StartsWith(path, AppRelativePrefix) && !h.isHosted ==>
                  r == h.combine(h.currentDirectory,
                                 Replace(path[|AppRelativePrefix|..], AppRelativePrefix, "")))
  {
    var path := GetAppSetting(s, key, default);
    if StartsWith(path, AppRelativePrefix) then
      if h.isHosted then h.mapPath(path)
      else
        assert Replace(path, AppRelativePrefix, "") == Replace(path[2..], AppRelativePrefix, "");
        h.combine(h.currentDirectory, Replace(path, AppRelativePrefix, ""))
    else
      path
  }

  /** Removing `~/` from a string that starts with it continues after the marker. */
  lemma StripAtMarker(s: string)
    requires StartsWith(s, AppRelativePrefix)
    ensures Replace(s, AppRelativePrefix, "") == Replace(s[2..], AppRelativePrefix, "")
  {
  }

  /** Removing `~/` from a string that does not start with it keeps the first character. */
  lemma StripAtOther(s: string)
    requires |s| > 0 && !StartsWith(s, AppRelativePrefix)
    ensures Replace(s, AppRelativePrefix, "") == [s[0]] + Replace(s[1..], AppRelativePrefix, "")
  {
  }

  /** Removing every `~/` from `p + q` works piecewise unless a `~/` straddles the seam. */
  lemma {:induction false} StripMarkersConcat(p: string, q: string)
    requires !(|p| > 0 && |q| > 0 && p[|p| - 1] == '~' && q[0] == '/')
    ensures Replace(p + q, AppRelativePrefix, "") ==
            Replace(p, AppRelativePrefix, "") + Replace(q, AppRelativePrefix, "")
    decreases |p|, 1
  {
    if |p| == 0 {
      assert p + q == q;
    } else if StartsWith(p, AppRelativePrefix) {
      StripMarkersConcatAtMarker(p, q);
    } else {
      StripMarkersConcatAtOther(p, q);
    }
  }

  /** `StripMarkersConcat` when `p` starts with `~/`. */
  lemma {:induction false} StripMarkersConcatAtMarker(p: string, q: string)
    requires StartsWith(p, AppRelativePrefix)
    requires !(|q| > 0 && p[|p| - 1] == '~' && q[0] == '/')
    ensures Replace(p + q, AppRelativePrefix, "") ==
            Replace(p, AppRelativePrefix, "") + Replace(q, AppRelativePrefix, "")
    decreases |p|, 0
  {
    var pq := p + q;
    assert pq[..2] == p[..2];
    assert pq[2..] == p[2..] + q;
    StripAtMarker(p);
    StripAtMarker(pq);
    StripMarkersConcat(p[2..], q);
  }

  /** A `~/` at the front of `p + q` would already be at the front of `p`, or straddle the seam. */
  lemma NoMarkerAcrossSeam(p: string, q: string)
    requires |p| > 0 && !StartsWith(p, AppRelativePrefix)
    requires !(|q| > 0 && p[|p| - 1] == '~' && q[0] == '/')
    ensures !StartsWith(p + q, AppRelativePrefix)
  {
    var pq := p + q;
    if |p| >= 2 {
      assert pq[..2] == p[..2];
    } else if |q| > 0 {
      assert pq[..2] == [p[0], q[0]];
    }
  }

  /** `StripMarkersConcat` when `p` is non-empty and does not start with `~/`. */
  lemma {:induction false} StripMarkersConcatAtOther(p: string, q: string)
    requires |p| > 0 && !StartsWith(p, AppRelativePrefix)
    requires !(|q| > 0 && p[|p| - 1] == '~' && q[0] == '/')
    ensures Replace(p + q, AppRelativePrefix, "") ==
            Replace(p, AppRelativePrefix, "") + Replace(q, AppRelativePrefix, "")
    decreases |p|, 0
  {
    var pq := p + q;
    NoMarkerAcrossSeam(p, q);
    assert pq[1..] == p[1..] + q;
    StripAtOther(p);
    StripAtOther(pq);
    var a, b := Replace(p[1..], AppRelativePrefix, ""), Replace(q, AppRelativePrefix, "");
    assert [pq[0]] + (a + b) == ([p[0]] + a) + b;
    StripMarkersConcat(p[1..], q);
  }

  /** Every `~/` is removed, not only a leading one. */
  lemma EveryMarkerRemoved(a: string, b: string)
    ensures Replace(a + AppRelativePrefix + b, AppRelativePrefix, "") ==
            Replace(a, AppRelativePrefix, "") + Replace(b, AppRelativePrefix, "")
  {
    var tail := AppRelativePrefix + b;
    assert a + AppRelativePrefix + b == a + tail;
    StripMarkersConcat(a, tail);
    assert tail[..2] == AppRelativePrefix;
    assert tail[2..] == b;
    StripAtMarker(tail);
  }

  /** A path made of `~/` and a rest without `~` maps to the current directory combined with the rest. */
  lemma MapPlainAppRelative(h: Host, s: Settings, key: string, default: string, rest: string)
    requires !h.isHosted
    requires GetAppSetting(s, key, default) == AppRelativePrefix + rest
    requires '~' !in rest
    ensures MapPathFromAppSetting(h, s, key, default) == h.combine(h.currentDirectory, rest)
  {
    var path := AppRelativePrefix + rest;
    assert path[..2] == AppRelativePrefix;
    assert path[2..] == rest;
    AbsentCharacterNoOccurrence(rest, AppRelativePrefix);
    ReplaceAbsentIsIdentity(rest, AppRelativePrefix, "");
  }

  /**
   A path with a second `~/` inside, such as `~/data/~/symbols`, loses both
   markers: it maps to the current directory combined with `data/symbols`.
   */
  lemma MapInnerMarker(h: Host, s: Settings, key: string, default: string, a: string, b: string)
    requires !h.isHosted
    requires GetAppSetting(s, key, default) == AppRelativePrefix + a + AppRelativePrefix + b
    requires '~' !in a && '~' !in b
    ensures MapPathFromAppSetting(h, s, key, default) == h.combine(h.currentDirectory, a + b)
  {
    var path := AppRelativePrefix + a + AppRelativePrefix + b;
    assert path[..2] == AppRelativePrefix;
    assert path[2..] == a + AppRelativePrefix + b;
    EveryMarkerRemoved(a, b);
    AbsentCharacterNoOccurrence(a, AppRelativePrefix);
    ReplaceAbsentIsIdentity(a, AppRelativePrefix, "");
    AbsentCharacterNoOccurrence(b, AppRelativePrefix);
    ReplaceAbsentIsIdentity(b, AppRelativePrefix, "");
  }

  // ---------------------------------------------------------------------------
  // Mirror timeout

  /**
   `PackageMirrorTimeout`: the setting (default text `0:00:15`) parsed as a
   time span, or 15 seconds when it does not parse.
   */
  function PackageMirrorTimeout(h: Host, s: Settings): (t: TimeSpan)
    ensures var v := Lookup(s, PackageMirrorTimeoutKey);
            && (IsNullOrWhiteSpace(v) ==>
                  t == h.tryParseTimeSpan(DefaultMirrorTimeoutText).GetOr(FromSeconds(FallbackMirrorTimeoutSeconds)))
            && (!IsNullOrWhiteSpace(v) && h.tryParseTimeSpan(v.value).None? ==>
                  t == FromSeconds(FallbackMirrorTimeoutSeconds))
            && (!IsNullOrWhiteSpace(v) && h.tryParseTimeSpan(v.value).Some? ==>
                  t == h.tryParseTimeSpan(v.value).value)
  {
    var text := GetAppSetting(s, PackageMirrorTimeoutKey, DefaultMirrorTimeoutText);
    h.tryParseTimeSpan(text).GetOr(FromSeconds(FallbackMirrorTimeoutSeconds))
  }

  /**
   With the framework parser, which reads `0:00:15` as 15 seconds, the timeout is
   15 seconds unless a non-blank value that parses is configured.
   */
  lemma MirrorTimeoutIsConfiguredOrFifteenSeconds(h: Host, s: Settings)
    requires h.tryParseTimeSpan(DefaultMirrorTimeoutText) == Some(FromSeconds(15))
    ensures var t := PackageMirrorTimeout(h, s);
            var v := Lookup(s, PackageMirrorTimeoutKey);
            t != FromSeconds(15) ==> !IsNullOrWhiteSpace(v) && h.tryParseTimeSpan(v.value) == Some(t)
  {
  }

  // ---------------------------------------------------------------------------
  // Role mappings

  /** `RoleMappings`: the configured section, or an empty collection when it is missing. */
  function RoleMappings(section: RoleMappingSection): map<string, string> {
    section.GetOr(map[])
  }

  /** Some role mapping carries a non-blank value. */
  ghost predicate HasNonBlankMapping(m: map<string, string>) {
    exists key :: key in m && !IsNullOrWhiteSpace(Some(m[key]))
  }

  /** `RoleMappingsEnabled`: any key of the section maps to a non-blank value. */
  method RoleMappingsEnabled(section: RoleMappingSection) returns (enabled: bool)
    ensures enabled <==> HasNonBlankMapping(RoleMappings(section))
    ensures section.None? ==> !enabled
  {
    var mappings := RoleMappings(section);
    var pending := mappings.Keys;
    enabled := false;
    while pending != {} && !enabled
      invariant pending <= mappings.Keys
      invariant enabled ==> HasNonBlankMapping(mappings)
      invariant !enabled ==> forall key :: key in mappings && key !in pending ==> AllWhiteSpace(mappings[key])
      decreases pending
    {
      var key :| key in pending;
      enabled := !IsNullOrWhiteSpace(Some(mappings[key]));
      pending := pending - {key};
    }
  }

  // ---------------------------------------------------------------------------
  // Named settings: each property of the module with its key and default

  function ShowExceptionDetails(h: Host, s: Settings): bool {
    GetFlagFromAppSetting(h, s, ShowExceptionDetailsKey, false)
  }

  function EnableCrossDomainRequests(h: Host, s: Settings): bool {
    GetFlagFromAppSetting(h, s, EnableCrossDomainRequestsKey, false)
  }

  function HandleLocalRequestsAsAdmin(h: Host, s: Settings): bool {
    GetFlagFromAppSetting(h, s, HandleLocalRequestsAsAdminKey, false)
  }

  function AllowAnonymousPackageChanges(h: Host, s: Settings): bool {
    GetFlagFromAppSetting(h, s, AllowAnonymousPackageChangesKey, false)
  }

  function RoutePathPrefix(s: Settings): string {
    GetAppSetting(s, RoutePathPrefixKey, "api/")
  }

  function PackageMirrorTargetUrl(s: Settings): string {
    GetAppSetting(s, PackageMirrorTargetUrlKey, "")
  }

  function AlwaysCheckMirror(h: Host, s: Settings): bool {
    GetFlagFromAppSetting(h, s, AlwaysCheckMirrorKey, false)
  }
}
