/**
 What the web module decides when it is loaded: the options handed to the
 package repository, the user store, the mirroring repository and the symbol
 tools, the authentication middleware to register, and whether the package
 index is synchronized with the file system right away.
 */
module Startup {
  import opened Platform
  import opened Text
  import opened AppSettings
  import opened AuthMiddleware

  /** Options of the Lucene package repository configurator. */
  datatype RepositoryOptions = RepositoryOptions(
    enablePackageFileWatcher: bool,
    groupPackageFilesById: bool,
    luceneIndexPath: string,
    packagePath: string
  )

  /** Options of the user store. */
  datatype UserStoreOptions = UserStoreOptions(
    usersIndexPath: string,
    localAdministratorApiKey: string,
    handleLocalRequestsAsAdmin: bool
  )

  /** Arguments of the mirroring repository. */
  datatype MirrorOptions = MirrorOptions(
    targetUrl: string,
    timeout: TimeSpan,
    alwaysCheckMirror: bool
  )

  /** Paths of the symbol source and symbol tools. */
  datatype SymbolOptions = SymbolOptions(symbolsPath: string, toolPath: string)

  /** Everything the module resolves from configuration when it is loaded. */
  datatype StartupPlan = StartupPlan(
    routePathPrefix: string,
    repository: RepositoryOptions,
    userStore: UserStoreOptions,
    mirror: MirrorOptions,
    symbols: SymbolOptions,
    authMiddleware: seq<Middleware>,
    synchronizeOnStart: bool
  )

  /** The package index root, read wherever the module needs it. */
  function LucenePath(h: Host, s: Settings): string {
    MapPathFromAppSetting(h, s, LucenePathKey, "~/App_Data/Lucene")
  }

  /** `InitializeRepositoryConfigurator`: watcher, grouping and the two storage paths. */
  function InitializeRepositoryConfigurator(h: Host, s: Settings): RepositoryOptions {
    RepositoryOptions(
      GetFlagFromAppSetting(h, s, EnablePackageFileWatcherKey, true),
      GetFlagFromAppSetting(h, s, GroupPackageFilesByIdKey, true),
      LucenePath(h, s),
      MapPathFromAppSetting(h, s, PackagesPathKey, "~/App_Data/Packages"))
  }

  /** `InitializeUserStore` with `InitializeUsersDataProvider`'s index path. */
  function InitializeUserStore(h: Host, s: Settings): UserStoreOptions {
    UserStoreOptions(
      h.combine(LucenePath(h, s), "Users"),
      GetAppSetting(s, LocalAdministratorApiKeyKey, ""),
      HandleLocalRequestsAsAdmin(h, s))
  }

  /** The switches `LoadAuthMiddleware` consults. */
  function AuthSwitches(h: Host, s: Settings, roleMappingsEnabled: bool): AuthFlags {
    AuthFlags(HandleLocalRequestsAsAdmin(h, s), AllowAnonymousPackageChanges(h, s), roleMappingsEnabled)
  }

  /** The decisions of `Load`, given whether role mappings are enabled. */
  function LoadPlan(h: Host, s: Settings, roleMappingsEnabled: bool): StartupPlan {
    var symbolsPath := MapPathFromAppSetting(h, s, SymbolsPathKey, "~/App_Data/Symbols");
    StartupPlan(
      RoutePathPrefix(s),
      InitializeRepositoryConfigurator(h, s),
      InitializeUserStore(h, s),
      MirrorOptions(PackageMirrorTargetUrl(s), PackageMirrorTimeout(h, s), AlwaysCheckMirror(h, s)),
      SymbolOptions(symbolsPath, MapPathFromAppSetting(h, s, DebuggingToolsPathKey, "")),
      LoadAuthMiddleware(AuthSwitches(h, s, roleMappingsEnabled)),
      GetFlagFromAppSetting(h, s, SynchronizeOnStartKey, true))
  }

  /**
   `Load`: resolves every option, consults the role-mapping section, and
   decides whether the package index is synchronized at start-up.
   */
  method Load(h: Host, s: Settings, section: RoleMappingSection) returns (plan: StartupPlan)
    ensures plan == LoadPlan(h, s, HasNonBlankMapping(RoleMappings(section)))
    ensures RoleMappingAuthentication in plan.authMiddleware <==> HasNonBlankMapping(RoleMappings(section))
    ensures section.None? ==> RoleMappingAuthentication !in plan.authMiddleware
  {
    var roleMappingsEnabled := RoleMappingsEnabled(section);
    plan := LoadPlan(h, s, roleMappingsEnabled);
    assert plan.authMiddleware == LoadAuthMiddleware(AuthSwitches(h, s, roleMappingsEnabled));
    assert RoleMappingAuthentication in plan.authMiddleware <==> roleMappingsEnabled;
  }

  /**
   Synchronization at start-up, the package file watcher and grouping by id
   are on unless the setting holds a value that parses as false.
   */
  lemma OnByDefaultSwitches(h: Host, s: Settings, roleMappingsEnabled: bool)
    requires h.tryParseBool("") == None
    ensures var plan := LoadPlan(h, s, roleMappingsEnabled);
            && (plan.synchronizeOnStart <==> !StoredFlag(h, s, SynchronizeOnStartKey, false))
            && (plan.repository.enablePackageFileWatcher <==> !StoredFlag(h, s, EnablePackageFileWatcherKey, false))
            && (plan.repository.groupPackageFilesById <==> !StoredFlag(h, s, GroupPackageFilesByIdKey, false))
  {
    TrueByDefault(h, s, SynchronizeOnStartKey);
    TrueByDefault(h, s, EnablePackageFileWatcherKey);
    TrueByDefault(h, s, GroupPackageFilesByIdKey);
  }

  /**
   Local requests as administrator, anonymous package changes and always
   checking the mirror are off unless the setting holds a value that parses as
   true; the middleware chain follows the first two and the role mappings.
   */
  lemma OffByDefaultSwitches(h: Host, s: Settings, roleMappingsEnabled: bool)
    requires h.tryParseBool("") == None
    ensures var plan := LoadPlan(h, s, roleMappingsEnabled);
            && (LocalRequestAuthentication in plan.authMiddleware <==> StoredFlag(h, s, HandleLocalRequestsAsAdminKey, true))
            && (AnonymousPackageManager in plan.authMiddleware <==> StoredFlag(h, s, AllowAnonymousPackageChangesKey, true))
            && (RoleMappingAuthentication in plan.authMiddleware <==> roleMappingsEnabled)
            && (plan.mirror.alwaysCheckMirror <==> StoredFlag(h, s, AlwaysCheckMirrorKey, true))
  {
    LocalRequestSwitch(h, s, roleMappingsEnabled);
    AnonymousChangesSwitch(h, s, roleMappingsEnabled);
    AlwaysCheckMirrorSwitch(h, s, roleMappingsEnabled);
  }

  /** The local-request middleware is registered exactly when `true` is stored for it. */
  lemma LocalRequestSwitch(h: Host, s: Settings, roleMappingsEnabled: bool)
    requires h.tryParseBool("") == None
    ensures var plan := LoadPlan(h, s, roleMappingsEnabled);
            LocalRequestAuthentication in plan.authMiddleware <==> StoredFlag(h, s, HandleLocalRequestsAsAdminKey, true)
  {
    FalseByDefault(h, s, HandleLocalRequestsAsAdminKey);
    assert LoadPlan(h, s, roleMappingsEnabled).authMiddleware == LoadAuthMiddleware(AuthSwitches(h, s, roleMappingsEnabled));
  }

  /** The anonymous-package-manager middleware is registered exactly when `true` is stored for it. */
  lemma AnonymousChangesSwitch(h: Host, s: Settings, roleMappingsEnabled: bool)
    requires h.tryParseBool("") == None
    ensures var plan := LoadPlan(h, s, roleMappingsEnabled);
            AnonymousPackageManager in plan.authMiddleware <==> StoredFlag(h, s, AllowAnonymousPackageChangesKey, true)
  {
    FalseByDefault(h, s, AllowAnonymousPackageChangesKey);
    assert LoadPlan(h, s, roleMappingsEnabled).authMiddleware == LoadAuthMiddleware(AuthSwitches(h, s, roleMappingsEnabled));
  }

  /** The mirror is consulted first exactly when `true` is stored for it. */
  lemma AlwaysCheckMirrorSwitch(h: Host, s: Settings, roleMappingsEnabled: bool)
    requires h.tryParseBool("") == None
    ensures LoadPlan(h, s, roleMappingsEnabled).mirror.alwaysCheckMirror <==> StoredFlag(h, s, AlwaysCheckMirrorKey, true)
  {
    FalseByDefault(h, s, AlwaysCheckMirrorKey);
  }

  /**
   The user store treats local requests as administrator exactly when the
   local-request middleware is registered: both read the same setting.
   */
  lemma LocalAdministrationAgrees(h: Host, s: Settings, roleMappingsEnabled: bool)
    ensures var plan := LoadPlan(h, s, roleMappingsEnabled);
            LocalRequestAuthentication in plan.authMiddleware <==> plan.userStore.handleLocalRequestsAsAdmin
  {
  }

  /** The users index lives in the `Users` directory under the package index root. */
  lemma UsersIndexUnderPackageIndex(h: Host, s: Settings, roleMappingsEnabled: bool)
    ensures var plan := LoadPlan(h, s, roleMappingsEnabled);
            plan.userStore.usersIndexPath == h.combine(plan.repository.luceneIndexPath, "Users")
  {
  }

  /**
   With no setting in the module's namespace, outside the web host, with the
   framework parsers and with role mappings disabled (the plan `Load` builds
   when no role mapping is non-blank), the module serves under `api/`, keeps
   its data under `App_Data` in the current directory, registers only the
   API-key middleware, does not mirror, waits 15 seconds for a mirror and
   synchronizes the index at start-up. A non-blank role mapping still adds the
   role-mapping middleware, as `Load` states.
   */
  lemma UnconfiguredDefaults(h: Host, s: Settings)
    requires !h.isHosted
    requires h.tryParseBool("") == None
    requires h.tryParseTimeSpan(DefaultMirrorTimeoutText) == Some(FromSeconds(15))
    requires NoModuleSettings(s)
    ensures var cwd := h.currentDirectory;
            var lucene := h.combine(cwd, "App_Data/Lucene");
            LoadPlan(h, s, false) == StartupPlan(
              "api/",
              RepositoryOptions(true, true, lucene, h.combine(cwd, "App_Data/Packages")),
              UserStoreOptions(h.combine(lucene, "Users"), "", false),
              MirrorOptions("", FromSeconds(15), false),
              SymbolOptions(h.combine(cwd, "App_Data/Symbols"), ""),
              [ApiKeyAuthentication],
              true)
    ensures !ShowExceptionDetails(h, s) && !EnableCrossDomainRequests(h, s)
  {
    UnconfiguredPaths(h, s);
    assert AuthSwitches(h, s, false) == AuthFlags(false, false, false);
  }

  /** The storage and symbol paths of an unconfigured module outside the web host. */
  lemma UnconfiguredPaths(h: Host, s: Settings)
    requires !h.isHosted
    requires NoModuleSettings(s)
    ensures var cwd := h.currentDirectory;
            && LucenePath(h, s) == h.combine(cwd, "App_Data/Lucene")
            && MapPathFromAppSetting(h, s, PackagesPathKey, "~/App_Data/Packages") == h.combine(cwd, "App_Data/Packages")
            && MapPathFromAppSetting(h, s, SymbolsPathKey, "~/App_Data/Symbols") == h.combine(cwd, "App_Data/Symbols")
            && MapPathFromAppSetting(h, s, DebuggingToolsPathKey, "") == ""
  {
    UnconfiguredLucenePath(h, s);
    UnconfiguredPackagesPath(h, s);
    UnconfiguredSymbolsPath(h, s);
    assert !StartsWith("", AppRelativePrefix);
  }

  /** The package index lives in `App_Data/Lucene` under the current directory. */
  lemma UnconfiguredLucenePath(h: Host, s: Settings)
    requires !h.isHosted
    requires NoModuleSettings(s)
    ensures LucenePath(h, s) == h.combine(h.currentDirectory, "App_Data/Lucene")
  {
    assert "~/App_Data/Lucene" == AppRelativePrefix + "App_Data/Lucene";
    UnconfiguredPath(h, s, LucenePathKey, "App_Data/Lucene");
  }

  /** Package files live in `App_Data/Packages` under the current directory. */
  lemma UnconfiguredPackagesPath(h: Host, s: Settings)
    requires !h.isHosted
    requires NoModuleSettings(s)
    ensures MapPathFromAppSetting(h, s, PackagesPathKey, "~/App_Data/Packages") == h.combine(h.currentDirectory, "App_Data/Packages")
  {
    assert "~/App_Data/Packages" == AppRelativePrefix + "App_Data/Packages";
    UnconfiguredPath(h, s, PackagesPathKey, "App_Data/Packages");
  }

  /** Symbols live in `App_Data/Symbols` under the current directory. */
  lemma UnconfiguredSymbolsPath(h: Host, s: Settings)
    requires !h.isHosted
    requires NoModuleSettings(s)
    ensures MapPathFromAppSetting(h, s, SymbolsPathKey, "~/App_Data/Symbols") == h.combine(h.currentDirectory, "App_Data/Symbols")
  {
    assert "~/App_Data/Symbols" == AppRelativePrefix + "App_Data/Symbols";
    UnconfiguredPath(h, s, SymbolsPathKey, "App_Data/Symbols");
  }

  /** An unset path setting whose default is `~/` plus a `~`-free rest maps to that rest. */
  lemma UnconfiguredPath(h: Host, s: Settings, key: string, rest: string)
    requires !h.isHosted
    requires NoModuleSettings(s)
    requires '~' !in rest
    ensures MapPathFromAppSetting(h, s, key, AppRelativePrefix + rest) == h.combine(h.currentDirectory, rest)
  {
    MapPlainAppRelative(h, s, key, AppRelativePrefix + rest, rest);
  }
}
