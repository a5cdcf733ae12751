/** The durable-backend helpers of utils/durableUtils.ts: recognising durable
    templates, detecting a durable dependency and the configured backend of a
    project, the default host.json task configurations, and the wizard steps
    the Netherite and SQL connection checks assemble. */
module DurableUtils {
  import opened Base
  import opened Text
  import opened Wizard

  // ----- requiresDurableStorage -----

  /** Template ids end in "or" or "ion" after this stem. */
  const DurableOrchestratorStem: string := "DurableFunctionsOrchestrat"

  /** Whether a template creates a durable orchestrator: the stem occurs
      somewhere in the id, in any ASCII case. */
  function RequiresDurableStorage(templateId: string): (r: bool)
    ensures r <==> exists i :: MatchesAt(templateId, DurableOrchestratorStem, i)
  {
    ContainsIgnoringCase(templateId, DurableOrchestratorStem)
  }

  /** The stem is found wherever it stands and whatever the case of its
      letters. */
  lemma StemAnywhere(prefix: string, stem: string, suffix: string)
    requires EqualIgnoringCase(stem, DurableOrchestratorStem)
    ensures RequiresDurableStorage(prefix + stem + suffix)
  {
    var id := prefix + stem + suffix;
    assert id[|prefix|..|prefix| + |stem|] == stem;
    assert MatchesAt(id, DurableOrchestratorStem, |prefix|);
  }

  /** An id shorter than the stem cannot hold it. */
  lemma ShortIdsAreNotDurable(templateId: string)
    requires |templateId| < |DurableOrchestratorStem|
    ensures !RequiresDurableStorage(templateId)
  {
  }

  // ----- promptForStorageType -----

  /** The three backend choices in the order they are offered. */
  function StorageTypePicks(): (r: seq<QuickPick<DurableBackend>>)
    ensures |r| == 3
    ensures r[0].data == Storage && r[1].data == Netherite && r[2].data == SQL
  {
    [ QuickPick(Undefined, Defined("Durable Functions Orchestration using Storage"), Undefined, Storage),
      QuickPick(Undefined, Defined("Durable Functions Orchestration using Netherite"), Undefined, Netherite),
      QuickPick(Undefined, Defined("Durable Functions Orchestration using SQL"), Undefined, SQL) ]
  }

  /** `promptForStorageType`: the backend of the chosen pick. Every backend can
      be chosen. */
  function PromptForStorageType(choice: nat): (r: DurableBackend)
    requires choice < |StorageTypePicks()|
    ensures r == Storage <==> choice == 0
    ensures r == Netherite <==> choice == 1
    ensures r == SQL <==> choice == 2
  {
    StorageTypePicks()[choice].data
  }

  /** Every backend can be chosen. */
  lemma EveryBackendOffered(b: DurableBackend)
    ensures exists choice :: 0 <= choice < |StorageTypePicks()| && PromptForStorageType(choice) == b
  {
    match b
    case Storage => assert PromptForStorageType(0) == b;
    case Netherite => assert PromptForStorageType(1) == b;
    case SQL => assert PromptForStorageType(2) == b;
  }

  /** Distinct choices give distinct backends. */
  lemma ChoicesDistinct(i: nat, j: nat)
    requires i < |StorageTypePicks()| && j < |StorageTypePicks()|
    requires i != j
    ensures PromptForStorageType(i) != PromptForStorageType(j)
  {
  }

  // ----- genericWrapWithTryCatch -----

  /** The value an operation returns, or `defaultCatch` when it throws. */
  function WrapWithTryCatch<T>(defaultCatch: T, o: Outcome<T>): T {
    if o.Ok? then o.value else defaultCatch
  }

  // ----- reading host.json -----

  /** `hostJson.extensions?.durableTask` of a host document that may be
      unreadable. */
  function DurableTask(host: Maybe<Json>): Maybe<Json> {
    Member(Member(host, "extensions"), "durableTask")
  }

  /** `hostJson.extensions?.durableTask?.storageProvider?.type`. */
  function ProviderType(host: Maybe<Json>): Maybe<Json> {
    Member(Member(DurableTask(host), "storageProvider"), "type")
  }

  /** The switch of `getStorageTypeFromWorkspace`: the Netherite and SQL type
      strings select their backends; every other value, and a missing one,
      selects Storage. */
  function HostStorageType(host: Json): (r: DurableBackend)
    ensures r == Netherite <==> ProviderType(Defined(host)) == Defined(JString(BackendTypeName(Netherite)))
    ensures r == SQL <==> ProviderType(Defined(host)) == Defined(JString(BackendTypeName(SQL)))
    ensures ProviderType(Defined(host)).Undefined? ==> r == Storage
  {
    var t := ProviderType(Defined(host));
    if t == Defined(JString(BackendTypeName(Netherite))) then Netherite
    else if t == Defined(JString(BackendTypeName(SQL))) then SQL
    else Storage
  }

  /** `netheriteUtils.getEventHubName`: the `hubName` of the durable-task
      section, whatever its JSON type; undefined when host.json cannot be
      read. */
  function GetEventHubName(host: Maybe<Json>): Maybe<Json> {
    Member(DurableTask(host), "hubName")
  }

  /** `netheriteUtils.getPartitionCount`: the storage provider's
      `partitionCount`. */
  function GetPartitionCount(host: Maybe<Json>): Maybe<Json> {
    Member(Member(DurableTask(host), "storageProvider"), "partitionCount")
  }

  // ----- default task configurations -----

  /** `getDefaultStorageTaskConfig`. */
  function StorageTaskConfig(): Json {
    JObject(map["storageProvider" := JObject(map["type" := JString(BackendTypeName(Storage))])])
  }

  /** `getDefaultNetheriteTaskConfig`: the hub name, or "" for an absent or
      empty one; graceful shutdown on; the partition count passed through (an
      undefined count leaves the key out); the storage and event-hubs
      connection setting names. */
  function NetheriteTaskConfig(hubName: Maybe<string>, partitionCount: Maybe<int>): Json {
    var provider := map[
      "type" := JString(BackendTypeName(Netherite)),
      "StorageConnectionName" := JString(StorageConnectionKey),
      "EventHubsConnectionName" := JString(EventHubConnectionKey)];
    JObject(map[
      "hubName" := JString(if Truthy(hubName) then hubName.value else ""),
      "useGracefulShutdown" := JBool(true),
      "storageProvider" := JObject(Assign(provider, "partitionCount", NumberOf(partitionCount)))])
  }

  /** An optional number as an optional JSON value. */
  function NumberOf(n: Maybe<int>): Maybe<Json> {
    if n.Defined? then Defined(JNumber(n.value)) else Undefined
  }

  /** `getDefaultSqlTaskConfig`. */
  function SqlTaskConfig(): Json {
    JObject(map["storageProvider" := JObject(map[
      "type" := JString(BackendTypeName(SQL)),
      "connectionStringName" := JString(SqlConnectionKey),
      "taskEventLockTimeout" := JString("00:02:00"),
      "createDatabaseIfNotExists" := JBool(true),
      "schemaName" := JNull])])
  }

  /** The default configuration of a backend. */
  function DefaultTaskConfig(b: DurableBackend): Json {
    match b
    case Storage => StorageTaskConfig()
    case Netherite => NetheriteTaskConfig(Undefined, Undefined)
    case SQL => SqlTaskConfig()
  }

  /** A host document whose `extensions.durableTask` is `task`. */
  function HostWithTask(task: Json): Json {
    JObject(map["extensions" := JObject(map["durableTask" := task])])
  }

  /** Reading back a default configuration: a host.json holding a backend's
      default task configuration is recognised as that backend. */
  lemma DefaultConfigRoundTrip(b: DurableBackend)
    ensures HostStorageType(HostWithTask(DefaultTaskConfig(b))) == b
  {
    var t := ProviderType(Defined(HostWithTask(DefaultTaskConfig(b))));
    assert t == Defined(JString(BackendTypeName(b)));
  }

  /** Reading back a Netherite configuration: `getEventHubName` and
      `getPartitionCount` return what `getDefaultNetheriteTaskConfig` was
      given (the empty string for a falsy hub name), and the backend reads as
      Netherite. */
  lemma NetheriteConfigRoundTrip(hubName: Maybe<string>, partitionCount: Maybe<int>)
    ensures var host := Defined(HostWithTask(NetheriteTaskConfig(hubName, partitionCount)));
      && GetEventHubName(host) == Defined(JString(if Truthy(hubName) then hubName.value else ""))
      && GetPartitionCount(host) == NumberOf(partitionCount)
      && HostStorageType(host.value) == Netherite
  {
    var host := Defined(HostWithTask(NetheriteTaskConfig(hubName, partitionCount)));
    assert DurableTask(host) == Defined(NetheriteTaskConfig(hubName, partitionCount));
  }

  /** The SQL configuration carries the fixed lock timeout, creates the
      database if needed and has a null schema name. */
  lemma SqlConfigFields()
    ensures var p := Member(Defined(SqlTaskConfig()), "storageProvider");
      && Member(p, "taskEventLockTimeout") == Defined(JString("00:02:00"))
      && Member(p, "createDatabaseIfNotExists") == Defined(JBool(true))
      && Member(p, "schemaName") == Defined(JNull)
      && Member(p, "connectionStringName") == Defined(JString(SqlConnectionKey))
  {
  }

  // ----- durable dependencies -----

  /** What a project folder holds for the durable checks. `packageJson` is
      undefined when package.json is missing or does not parse.
      `packageReferences` lists the `Include` attribute of each
      `PackageReference` in the first `ItemGroup` of the first .csproj, as
      `ItemGroup[0]` reads it when xml2js runs with `explicitArray: false`. It
      is undefined when there is no readable, parsable project file. Under
      that option a lone `ItemGroup` or a lone `PackageReference` is an object,
      not an array. So only a project with at least two item groups, the first
      holding at least two package references, yields a list. Any other
      layout, including a project without item groups, is given here as an
      empty or undefined list and never reads as durable. */
  datatype ProjectFolder = ProjectFolder(
    packageJson: Maybe<Json>,
    packageReferences: Maybe<seq<Maybe<string>>>,
    hostJson: Maybe<Json>)

  /** The body of the node dependency check, which may throw: no
      package.json, a null document, or a missing `durable-functions` entry
      (`nonNullProp`). A falsy `dependencies` stands for `{}`. */
  function NodeDependencyLookup(packageJson: Maybe<Json>): Outcome<bool> {
    if packageJson.Undefined? || packageJson.value.JNull? then Thrown(Unreadable)
    else
      var dependencies := if MaybeJsonTruthy(Member(packageJson, "dependencies"))
                          then Member(packageJson, "dependencies") else Defined(JObject(map[]));
      var entry := Member(dependencies, "durable-functions");
      if entry.Undefined? || entry.value.JNull? then Thrown(MissingValue("durable-functions"))
      else Ok(JsonTruthy(entry.value))
  }

  /** `nodeProjectHasDurableDependency`, and the node checks of
      verifyHasDurableOrchestrator.ts and verifyIsProjectDurable.ts: true
      exactly when package.json has a truthy `dependencies["durable-functions"]`;
      every failure reads as false. */
  function NodeHasDurableDependency(packageJson: Maybe<Json>): (r: bool)
    ensures r <==> MaybeJsonTruthy(Member(Member(packageJson, "dependencies"), "durable-functions"))
  {
    WrapWithTryCatch(false, NodeDependencyLookup(packageJson))
  }

  const DurableTaskPackage: string := "Microsoft.Azure.WebJobs.Extensions.DurableTask"

  /** Some package reference includes `package`. */
  predicate References(refs: seq<Maybe<string>>, package: string) {
    exists i :: 0 <= i < |refs| && refs[i] == Defined(package)
  }

  /** `dotnetProjectHasDurableDependency`: scans the package references for
      the DurableTask extension; an unreadable project reads as false. */
  method DotnetHasDurableDependency(packageReferences: Maybe<seq<Maybe<string>>>) returns (r: bool)
    ensures r <==> packageReferences.Defined? && References(packageReferences.value, DurableTaskPackage)
  {
    if packageReferences.Undefined? {
      return false;
    }
    var refs := packageReferences.value;
    for i := 0 to |refs|
      invariant forall j :: 0 <= j < i ==> refs[j] != Defined(DurableTaskPackage)
    {
      if Truthy(refs[i]) && refs[i].value == DurableTaskPackage {
        return true;
      }
    }
    return false;
  }

  /** The language dispatch of `verifyHasDurableStorage` once a project path
      is known. */
  predicate HasDurableDependency(language: Maybe<ProjectLanguage>, folder: ProjectFolder) {
    match language
    case Defined(JavaScript) => NodeHasDurableDependency(folder.packageJson)
    case Defined(TypeScript) => NodeHasDurableDependency(folder.packageJson)
    case Defined(CSharp) => folder.packageReferences.Defined? && References(folder.packageReferences.value, DurableTaskPackage)
    case Defined(FSharp) => folder.packageReferences.Defined? && References(folder.packageReferences.value, DurableTaskPackage)
    case _ => false
  }

  /** `verifyHasDurableStorage`: the project path defaults to the workspace
      root; with no usable path the answer is false; JavaScript and
      TypeScript consult package.json, C# and F# the project file, and every
      other language answers false. */
  method VerifyHasDurableStorage(language: Maybe<ProjectLanguage>, projectPath: Maybe<string>,
                                 rootPath: Maybe<string>, folders: string -> ProjectFolder) returns (r: bool)
    ensures var path := Coalesce(projectPath, rootPath);
      r <==> Truthy(path) && HasDurableDependency(language, folders(path.value))
    ensures r ==> language in {Defined(JavaScript), Defined(TypeScript), Defined(CSharp), Defined(FSharp)}
  {
    var path := Coalesce(projectPath, rootPath);
    if !Truthy(path) {
      return false;
    }
    var folder := folders(path.value);
    match language
    case Defined(JavaScript) =>
      r := NodeHasDurableDependency(folder.packageJson);
    case Defined(TypeScript) =>
      r := NodeHasDurableDependency(folder.packageJson);
    case Defined(CSharp) =>
      r := DotnetHasDurableDependency(folder.packageReferences);
    case Defined(FSharp) =>
      r := DotnetHasDurableDependency(folder.packageReferences);
    case _ =>
      r := false;
  }

  /** `getStorageTypeFromWorkspace`: undefined with no usable project path,
      without a durable dependency, or when host.json cannot be read (a null
      document throws on its first property access); otherwise the backend
      host.json names. */
  method GetStorageTypeFromWorkspace(language: Maybe<ProjectLanguage>, projectPath: Maybe<string>,
                                     rootPath: Maybe<string>, folders: string -> ProjectFolder)
    returns (r: Maybe<DurableBackend>)
    ensures var path := Coalesce(projectPath, rootPath);
      r.Defined? <==> && Truthy(path)
                      && HasDurableDependency(language, folders(path.value))
                      && folders(path.value).hostJson.Defined?
                      && !folders(path.value).hostJson.value.JNull?
    ensures r.Defined? ==> r.value == HostStorageType(folders(Coalesce(projectPath, rootPath).value).hostJson.value)
  {
    var path := Coalesce(projectPath, rootPath);
    if !Truthy(path) {
      return Undefined;
    }
    var hasDurableStorage := VerifyHasDurableStorage(language, path, rootPath, folders);
    if !hasDurableStorage {
      return Undefined;
    }
    var host := folders(path.value).hostJson;
    if host.Undefined? || host.value.JNull? {
      return Undefined;
    }
    r := Defined(HostStorageType(host.value));
  }

  // ----- validateConnection -----

  /** IValidateConnectionOptions without `suppressSkipForNow`. */
  datatype ValidateOptions = ValidateOptions(
    preSelectedConnectionType: Maybe<ConnectionType>,
    setConnectionForDeploy: Maybe<bool>)

  /** `options?.setConnectionForDeploy`. */
  function ForDeploy(options: Maybe<ValidateOptions>): Maybe<bool> {
    if options.Defined? then options.value.setConnectionForDeploy else Undefined
  }

  /** The prompt options both connection checks hand their connection prompt:
      the caller's preselected type, and no "skip for now". */
  function CheckPromptOptions(options: Maybe<ValidateOptions>): Maybe<ConnectionPromptOptions> {
    Defined(ConnectionPromptOptions(
      if options.Defined? then options.value.preSelectedConnectionType else Undefined,
      Defined(true)))
  }

  /** A local event-hubs connection that is set and is not the emulator's. */
  predicate HasEventHubsConnection(connection: Maybe<string>, hc: HostConstants) {
    Truthy(connection) && connection.value != hc.localEventHubsEmulatorConnectionString
  }

  /** The steps `netheriteUtils.validateConnection` runs. */
  function NetheriteSteps(options: Maybe<ValidateOptions>, connection: Maybe<string>,
                          host: Maybe<Json>, hc: HostConstants): WizardOptions
  {
    var skipConnection := HasEventHubsConnection(connection, hc) && ForDeploy(options) == Defined(true);
    WizardOptions(
      (if skipConnection then [] else [EventHubsConnectionPrompt(CheckPromptOptions(options))])
        + (if MaybeJsonTruthy(GetEventHubName(host)) then [] else [NetheriteEventHubName])
        + (if MaybeJsonTruthy(GetPartitionCount(host)) then [] else [NetheriteEventHubPartitions]),
      Defined((if skipConnection then [] else [EventHubsConnectionExecute(ForDeploy(options))]) + [NetheriteConfigureHost]))
  }

  /** The connection prompt and execute steps are left out only when a real
      connection exists and the caller deploys; the hub-name and partition
      prompts appear exactly when host.json lacks a truthy value for them;
      the host configuration step always comes last. */
  lemma NetheriteStepsMeaning(options: Maybe<ValidateOptions>, connection: Maybe<string>, host: Maybe<Json>, hc: HostConstants)
    ensures var r := NetheriteSteps(options, connection, host, hc);
      var skipConnection := HasEventHubsConnection(connection, hc) && ForDeploy(options) == Defined(true);
      && (EventHubsConnectionPrompt(CheckPromptOptions(options)) in r.promptSteps <==> !skipConnection)
      && (NetheriteEventHubName in r.promptSteps <==> !MaybeJsonTruthy(GetEventHubName(host)))
      && (NetheriteEventHubPartitions in r.promptSteps <==> !MaybeJsonTruthy(GetPartitionCount(host)))
      && r.executeSteps.Defined?
      && r.executeSteps.value ==
           (if skipConnection then [] else [EventHubsConnectionExecute(ForDeploy(options))]) + [NetheriteConfigureHost]
  {
  }

  /** The step lists `netheriteUtils.validateConnection` builds, in the
      order it pushes them: `skipConnection` says whether the connection
      steps are left out, `host` is the project's host.json. */
  method NetheriteStepLists(options: Maybe<ValidateOptions>, connection: Maybe<string>, host: Maybe<Json>,
                            hc: HostConstants, skipConnection: bool)
    returns (promptSteps: seq<PromptStep>, executeSteps: seq<ExecuteStep>)
    requires skipConnection == (HasEventHubsConnection(connection, hc) && ForDeploy(options) == Defined(true))
    ensures WizardOptions(promptSteps, Defined(executeSteps)) == NetheriteSteps(options, connection, host, hc)
  {
    // Each conditional `push` of `validateConnection` appends either the
    // step or nothing.
    promptSteps := if skipConnection then [] else [EventHubsConnectionPrompt(CheckPromptOptions(options))];
    executeSteps := if skipConnection then [] else [EventHubsConnectionExecute(ForDeploy(options))];
    promptSteps := promptSteps + (if MaybeJsonTruthy(GetEventHubName(host)) then [] else [NetheriteEventHubName]);
    promptSteps := promptSteps + (if MaybeJsonTruthy(GetPartitionCount(host)) then [] else [NetheriteEventHubPartitions]);
    executeSteps := executeSteps + [NetheriteConfigureHost];
  }

  /** `netheriteUtils.validateConnection` up to the point where it hands its
      steps to the wizard. It throws for an empty workspace; otherwise it
      records the project path in the context, and in deploy mode with a real
      local connection also records that connection for the deployment.
      `localConnection` reads the event-hubs connection of the local settings
      at a path. */
  method ValidateNetheriteConnection(ctx: ConnectionContext, options: Maybe<ValidateOptions>,
                                     projectPath: Maybe<string>, rootPath: Maybe<string>,
                                     localConnection: string -> Maybe<string>,
                                     folders: string -> ProjectFolder, hc: HostConstants)
    returns (r: Outcome<WizardOptions>)
    modifies ctx
    ensures var path := Coalesce(projectPath, rootPath);
      !Truthy(path) ==> r == Thrown(EmptyWorkspace) && ctx.State() == old(ctx.State())
    ensures var path := Coalesce(projectPath, rootPath);
      Truthy(path) ==>
        var connection := localConnection(path.value);
        var skipConnection := HasEventHubsConnection(connection, hc) && ForDeploy(options) == Defined(true);
        && r == Ok(NetheriteSteps(options, connection, folders(path.value).hostJson, hc))
        && ctx.State() == old(ctx.State()).(
             projectPath := path.value,
             eventHubConnectionForDeploy := if skipConnection then connection else old(ctx.eventHubConnectionForDeploy))
  {
    var path := Coalesce(projectPath, rootPath);
    if !Truthy(path) {
      return Thrown(EmptyWorkspace);
    }
    var eventHubsConnection := localConnection(path.value);
    var hasEventHubsConnection := Truthy(eventHubsConnection)
      && eventHubsConnection.value != hc.localEventHubsEmulatorConnectionString;
    ctx.projectPath := path.value;
    var skipConnection := hasEventHubsConnection && ForDeploy(options) == Defined(true);
    if skipConnection {
      ctx.eventHubConnectionForDeploy := eventHubsConnection;
    }
    var promptSteps, executeSteps :=
      NetheriteStepLists(options, eventHubsConnection, folders(path.value).hostJson, hc, skipConnection);
    r := Ok(WizardOptions(promptSteps, Defined(executeSteps)));
  }

  /** The steps `sqlUtils.validateConnection` runs when there is no local
      SQL connection. */
  function SqlSteps(options: Maybe<ValidateOptions>): WizardOptions {
    WizardOptions(
      [SqlDatabaseConnectionPrompt(CheckPromptOptions(options)), SqlDatabaseList],
      Defined([SqlDatabaseConnectionExecute(ForDeploy(options))]))
  }

  /** `sqlUtils.validateConnection` up to the point where it hands its steps
      to the wizard. It throws for an empty workspace. A set local SQL
      connection means no wizard at all (in deploy mode the connection is
      recorded for the deployment, and the project path is not recorded);
      otherwise the project path is recorded and the SQL steps run.
      `localConnection` reads the SQL connection of the local settings at a
      path. */
  method ValidateSqlConnection(ctx: ConnectionContext, options: Maybe<ValidateOptions>,
                               projectPath: Maybe<string>, rootPath: Maybe<string>,
                               localConnection: string -> Maybe<string>)
    returns (r: Outcome<Maybe<WizardOptions>>)
    modifies ctx
    ensures var path := Coalesce(projectPath, rootPath);
      !Truthy(path) ==> r == Thrown(EmptyWorkspace) && ctx.State() == old(ctx.State())
    ensures var path := Coalesce(projectPath, rootPath);
      Truthy(path) && Truthy(localConnection(path.value)) ==>
        && r == Ok(Undefined)
        && ctx.State() == old(ctx.State()).(sqlDbConnectionForDeploy :=
             if ForDeploy(options) == Defined(true) then localConnection(path.value) else old(ctx.sqlDbConnectionForDeploy))
    ensures var path := Coalesce(projectPath, rootPath);
      Truthy(path) && !Truthy(localConnection(path.value)) ==>
        r == Ok(Defined(SqlSteps(options))) && ctx.State() == old(ctx.State()).(projectPath := path.value)
  {
    var path := Coalesce(projectPath, rootPath);
    if !Truthy(path) {
      return Thrown(EmptyWorkspace);
    }
    var sqlDbConnection := localConnection(path.value);
    if Truthy(sqlDbConnection) {
      if ForDeploy(options) == Defined(true) {
        ctx.sqlDbConnectionForDeploy := sqlDbConnection;
      }
      return Ok(Undefined);
    }
    ctx.projectPath := path.value;
    r := Ok(Defined(SqlSteps(options)));
  }
}
