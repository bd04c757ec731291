# NuGet.Lucene.Web start-up settings, in Dafny

This project models how the NuGet.Lucene web module reads its configuration and
decides what to build when it is loaded. It covers:

- **Key namespacing.** Every application setting is looked up under the prefix
  `NuGet.Lucene.Web:`.
- **String settings.** A missing, empty or white-space-only value falls back to
  a default. Any other value is returned as stored, untrimmed.
- **Flags.** A flag is read with the empty string as its default and then parsed
  as a boolean. A value that does not parse gives the flag's default.
- **Paths.** A value beginning with `~/` is mapped by the web host when running
  hosted. Otherwise every `~/` in it is removed and the rest is combined with
  the current directory.
- **Mirror timeout.** The value (default text `0:00:15`) is parsed as a time span.
  A value that does not parse gives 15 seconds.
- **Role mappings.** The `roleMappings` section enables its middleware when some
  key holds a non-blank value. A missing section counts as empty.
- **Authentication middleware.** The API-key middleware is always registered.
  The local-request, anonymous-package-manager and role-mapping middlewares
  follow in that fixed order, each only when its switch is on.
- **Start-up decisions.** The options handed to the package repository, the
  user store, the mirroring repository and the symbol tools, and whether the
  package index is synchronized with the file system at start-up.

Modules:

- `Platform` (`platform.dfy`): `Option`, `TimeSpan` and `Host`. `Host` carries
  the framework services the module calls as uninterpreted values: the boolean
  and time-span parsers, `Path.Combine`, the current directory, and the web
  host's path mapper.
- `Text` (`text.dfy`): `char.IsWhiteSpace`, `string.IsNullOrWhiteSpace`, an
  ordinal prefix test and the ordinal `string.Replace`.
- `AppSettings` (`app_settings.dfy`): the static setting accessors of the module.
- `AuthMiddleware` (`auth_middleware.dfy`): `LoadAuthMiddleware` as an ordered list.
- `Startup` (`startup.dfy`): `Load`, `InitializeRepositoryConfigurator` and
  `InitializeUserStore` as a record of resolved options.

Properties that rely on the framework's parsers assume only two facts, both
true of .NET: `bool.TryParse("")` fails, and `TimeSpan.TryParse("0:00:15")`
gives 15 seconds. Every other property holds for any parser.

The role-mapping rule counts a value as enabling only when it holds a character
other than white space, which is what the code does (`IsNullOrWhiteSpace`).

## Model

| member | source | states |
|---|---|---|
| Text.AllWhiteSpace | source/NuGet.Lucene.Web/NuGetWebApiModule.cs:208 | the blank test used for settings is true exactly when every character is white space |
| Text.Replace | source/NuGet.Lucene.Web/NuGetWebApiModule.cs:199 | replacing a pattern by something no longer never lengthens the string |
| Text.ReplaceAbsentIsIdentity | source/NuGet.Lucene.Web/NuGetWebApiModule.cs:199 | replacing a pattern that does not occur leaves the string unchanged |
| Text.AbsentCharacterNoOccurrence | source/NuGet.Lucene.Web/NuGetWebApiModule.cs:199 | a string lacking the first character of a pattern does not contain the pattern |
| AppSettings.AppSettingKey | source/NuGet.Lucene.Web/NuGetWebApiModule.cs:211-214 | the full key starts with `NuGet.Lucene.Web:` and the setting name follows it |
| AppSettings.StripNamespace | source/NuGet.Lucene.Web/NuGetWebApiModule.cs:211-214 | a full key yields a name exactly when it carries the namespace, and re-namespacing that name gives the key back |
| AppSettings.NamespaceRoundTrip | source/NuGet.Lucene.Web/NuGetWebApiModule.cs:211-214 | stripping the namespace from a full key recovers the setting name, so the prefix is added exactly once |
| AppSettings.AppSettingKeyInjective | source/NuGet.Lucene.Web/NuGetWebApiModule.cs:211-214 | two different setting names never share a full key |
| AppSettings.SettingKeysNamespacedOnce | source/NuGet.Lucene.Web/NuGetWebApiModule.cs:205-214 | none of the setting names the module looks up (the same constants the accessors and `Load` use) is itself namespaced, so their keys carry the prefix once and never twice |
| AppSettings.GetAppSetting | source/NuGet.Lucene.Web/NuGetWebApiModule.cs:205-209 | an absent or white-space-only stored value gives the default, and any other stored value is returned unchanged |
| AppSettings.NonBlankDefaultGivesNonBlank | source/NuGet.Lucene.Web/NuGetWebApiModule.cs:205-209 | with a non-blank default the resolved setting is never blank |
| AppSettings.DefaultMattersExactlyWhenBlank | source/NuGet.Lucene.Web/NuGetWebApiModule.cs:205-209 | two different defaults give different results exactly when the stored value is absent or blank |
| AppSettings.ForeignEntriesInvisible | source/NuGet.Lucene.Web/NuGetWebApiModule.cs:205-214 | adding or changing a host setting whose key does not start with the namespace, compared exactly, never changes any resolved setting |
| AppSettings.StoreResolvedIsStable | source/NuGet.Lucene.Web/NuGetWebApiModule.cs:205-209 | storing a resolved value back under its key and resolving again gives the same value |
| AppSettings.GetFlagFromAppSetting | source/NuGet.Lucene.Web/NuGetWebApiModule.cs:183-189 | a stored value that parses gives the parsed boolean; an unparseable value gives the default; a blank or missing one gives the default when the empty string does not parse |
| AppSettings.FlagDefaultMattersExactlyWhenUnparsed | source/NuGet.Lucene.Web/NuGetWebApiModule.cs:183-189 | a flag's default affects the result exactly when the value read does not parse |
| AppSettings.TrueByDefault | source/NuGet.Lucene.Web/NuGetWebApiModule.cs:183-189 | a flag defaulting to true is false exactly when a non-blank value parsing as false is stored |
| AppSettings.FalseByDefault | source/NuGet.Lucene.Web/NuGetWebApiModule.cs:183-189 | a flag defaulting to false is true exactly when a non-blank value parsing as true is stored |
| AppSettings.MapPathFromAppSetting | source/NuGet.Lucene.Web/NuGetWebApiModule.cs:191-203 | a value not starting with `~/` is returned unchanged; a `~/` value goes to the host mapper when hosted, and otherwise to the current directory combined with the text after `~/` with every further `~/` removed |
| AppSettings.StripAtMarker | source/NuGet.Lucene.Web/NuGetWebApiModule.cs:199 | removing `~/` from a string that starts with it continues right after that marker |
| AppSettings.StripAtOther | source/NuGet.Lucene.Web/NuGetWebApiModule.cs:199 | removing `~/` from a string that does not start with it keeps the first character |
| AppSettings.StripMarkersConcat | source/NuGet.Lucene.Web/NuGetWebApiModule.cs:199 | removing `~/` from a concatenation works piecewise when no `~/` straddles the seam |
| AppSettings.StripMarkersConcatAtMarker | source/NuGet.Lucene.Web/NuGetWebApiModule.cs:199 | the piecewise rule when the first part starts with `~/` |
| AppSettings.NoMarkerAcrossSeam | source/NuGet.Lucene.Web/NuGetWebApiModule.cs:199 | a concatenation whose first part does not start with `~/` does not start with it either, unless a `~/` straddles the seam |
| AppSettings.StripMarkersConcatAtOther | source/NuGet.Lucene.Web/NuGetWebApiModule.cs:199 | the piecewise rule when the first part does not start with `~/` |
| AppSettings.EveryMarkerRemoved | source/NuGet.Lucene.Web/NuGetWebApiModule.cs:199 | a `~/` in the middle of a path is removed as well, not only a leading one |
| AppSettings.MapPlainAppRelative | source/NuGet.Lucene.Web/NuGetWebApiModule.cs:191-203 | outside the host, `~/` followed by a `~`-free rest maps to the current directory combined with that rest |
| AppSettings.MapInnerMarker | source/NuGet.Lucene.Web/NuGetWebApiModule.cs:191-203 | outside the host, a path such as `~/data/~/symbols` loses both markers and maps to the current directory combined with `data/symbols` |
| AppSettings.PackageMirrorTimeout | source/NuGet.Lucene.Web/NuGetWebApiModule.cs:155-163 | an unparseable stored value gives 15 seconds; a parseable one gives its parse; an absent or blank one gives the parse of `0:00:15`, or 15 seconds if that fails |
| AppSettings.MirrorTimeoutIsConfiguredOrFifteenSeconds | source/NuGet.Lucene.Web/NuGetWebApiModule.cs:155-163 | with the framework parser the timeout is 15 seconds unless a non-blank stored value parses to it |
| AppSettings.RoleMappingsEnabled | source/NuGet.Lucene.Web/NuGetWebApiModule.cs:165-181 | true exactly when some key of the section maps to a non-blank value; false when the section is missing |
| AuthMiddleware.LoadAuthMiddleware | source/NuGet.Lucene.Web/NuGetWebApiModule.cs:77-96 | the list starts with the API-key middleware, holds a kind exactly when its switch is on, and follows the fixed order with no kind twice |
| AuthMiddleware.OrderedChainsWithSameKindsAgree | source/NuGet.Lucene.Web/NuGetWebApiModule.cs:77-96 | two lists in registration order holding the same kinds are identical |
| AuthMiddleware.ChainDeterminedBySwitches | source/NuGet.Lucene.Web/NuGetWebApiModule.cs:77-96 | any list in registration order holding exactly the switched-on kinds is the registered list, so nothing else is added |
| AuthMiddleware.NoKindRepeats | source/NuGet.Lucene.Web/NuGetWebApiModule.cs:77-96 | no middleware kind is registered twice |
| AuthMiddleware.RoleMappingComesLast | source/NuGet.Lucene.Web/NuGetWebApiModule.cs:92-95 | when registered, the role-mapping middleware is the last entry |
| Startup.Load | source/NuGet.Lucene.Web/NuGetWebApiModule.cs:24-60 | the plan uses the role-mapping section's enablement, and the role-mapping middleware is present exactly when some mapping is non-blank, never when the section is missing |
| Startup.OnByDefaultSwitches | source/NuGet.Lucene.Web/NuGetWebApiModule.cs:56-67 | synchronization at start-up, the file watcher and grouping by id are on unless a value parsing as false is stored |
| Startup.OffByDefaultSwitches | source/NuGet.Lucene.Web/NuGetWebApiModule.cs:130-153 | local requests as administrator, anonymous package changes and mirror-first lookup are on only when a value parsing as true is stored; the role-mapping middleware follows the role-mapping switch |
| Startup.LocalRequestSwitch | source/NuGet.Lucene.Web/NuGetWebApiModule.cs:130-133 | the local-request middleware is registered exactly when a value parsing as true is stored |
| Startup.AnonymousChangesSwitch | source/NuGet.Lucene.Web/NuGetWebApiModule.cs:135-138 | the anonymous-package-manager middleware is registered exactly when a value parsing as true is stored |
| Startup.AlwaysCheckMirrorSwitch | source/NuGet.Lucene.Web/NuGetWebApiModule.cs:150-153 | the mirror is consulted first exactly when a value parsing as true is stored |
| Startup.LocalAdministrationAgrees | source/NuGet.Lucene.Web/NuGetWebApiModule.cs:98-108 | the user store treats local requests as administrator exactly when the local-request middleware is registered |
| Startup.UsersIndexUnderPackageIndex | source/NuGet.Lucene.Web/NuGetWebApiModule.cs:110-118 | the users index is the `Users` directory under the package index root |
| Startup.UnconfiguredDefaults | source/NuGet.Lucene.Web/NuGetWebApiModule.cs:24-75 | with no setting in the namespace, outside the web host and with no non-blank role mapping (role mappings disabled), the plan has prefix `api/`, data under `App_Data`, only the API-key middleware, no mirror URL, a 15-second timeout, watcher and grouping on, and synchronization at start-up |
| Startup.UnconfiguredPaths | source/NuGet.Lucene.Web/NuGetWebApiModule.cs:40-69 | unset path settings map to `App_Data/Lucene`, `App_Data/Packages` and `App_Data/Symbols` under the current directory, and an unset tool path stays empty |
| Startup.UnconfiguredLucenePath | source/NuGet.Lucene.Web/NuGetWebApiModule.cs:68 | an unset index path maps to `App_Data/Lucene` under the current directory |
| Startup.UnconfiguredPackagesPath | source/NuGet.Lucene.Web/NuGetWebApiModule.cs:69 | an unset package path maps to `App_Data/Packages` under the current directory |
| Startup.UnconfiguredSymbolsPath | source/NuGet.Lucene.Web/NuGetWebApiModule.cs:40 | an unset symbols path maps to `App_Data/Symbols` under the current directory |
| Startup.UnconfiguredPath | source/NuGet.Lucene.Web/NuGetWebApiModule.cs:191-203 | an unset path setting whose default is `~/` plus a `~`-free rest maps to that rest under the current directory |

## Left out

- Autofac registration mechanics (`RegisterInstance`, `RegisterType`, `InstancePerRequest`, `PropertiesAutowired`, `RegisterApiControllers`) are not modelled. They belong to a foreign container library. Only the resulting ordered list of middleware kinds is modelled. The `LuceneApiKeyAuthentication` service registered next to the API-key middleware is part of that middleware's entry.
- The registration order is modelled. The order in which the host later runs the middleware is decided outside this module and is not modelled.
- The per-request behaviour of the middlewares is not modelled. Their code is not part of this model.
- `ConfigurationManager` is replaced by an input map. Keys are compared exactly. The framework's settings collection compares keys case-insensitively, and that is not modelled.
- The role-mapping section is a map from key to string. The collection's null values, repeated keys and the mapping table's use are not modelled. Only whether the section enables its middleware is modelled.
- The module reads `ConfigurationManager.AppSettings` and `Environment.CurrentDirectory` afresh on every property access, for example `HandleLocalRequestsAsAdmin` at lines 82 and 104 and `lucenePath` at lines 68 and 112 with `cfg.Initialize()` between them. The model reads one snapshot of the settings and of `Host`, so `Startup.LocalAdministrationAgrees` and `Startup.UsersIndexUnderPackageIndex` hold only when nothing changes the configuration or the current directory during `Load`.
- `HostingEnvironment.MapPath`, `Path.Combine` and `Environment.CurrentDirectory` are uninterpreted fields of `Host`. Their file-system semantics are not visible in this code.
- `bool.TryParse` and `TimeSpan.TryParse` are uninterpreted partial functions, because their .NET internals are not visible in this code. The lemmas that need them assume only that the empty string does not parse as a boolean and that `0:00:15` parses as 15 seconds.
- AppSettings.MapPathFromAppSetting: the `~/` test uses an ordinal prefix comparison, while the source's `StartsWith` is culture-sensitive. The two can differ only on strings with characters that the culture comparison ignores.
- Text.IsWhiteSpace follows the white-space list of Unicode 6.3 and later. .NET Framework versions built on older Unicode data also treat U+180E (Mongolian vowel separator) as white space, and that is not modelled.
- Strings are sequences of Unicode scalar values, not UTF-16 code units. All the white-space characters involved are single code units, so blank tests agree.
- Lucene index setup (`FSDirectory`, `NativeFSLockFactory`, `LuceneDataProvider`), symbol tooling and the route mapper are on-disk I/O, external tooling and HTTP routing. Only the paths and the route prefix they receive are modelled.
- `cfg.Initialize`, `UserStore.Initialize`, `MirroringPackageRepositoryFactory.Create`, `SynchronizeWithFileSystem` and `ReusableCancellationTokenSource` are not modelled, because their code is not part of this model. Only their arguments are modelled, together with whether synchronization is invoked at all.
- The order of side effects inside `Load` is not modelled, for example that synchronization comes after all registrations. The plan records decisions, not steps.
- Overrides of the module's virtual members by subclasses are not modelled. The model is the base class.
