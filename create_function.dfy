/** The shared part of function creation: the function wizard context and
    its binding settings (IFunctionWizardContext.ts), the base execute step
    with its durable-storage document edit (FunctionCreateStepBase.ts), the
    durable-orchestrator checks (verifyHasDurableOrchestrator.ts and
    verifyIsProjectDurable.ts), and the dependency-install sequencing that
    the language steps share. */
module FunctionCreation {
  import opened Base
  import opened Text
  import opened Wizard
  import opened DurableUtils

  // ----- binding settings -----

  /** A defined BindingSettingValue. */
  datatype BindingValue = BString(s: string) | BBool(b: bool) | BNumber(n: int)

  /** A binding value as it appears in function.json. */
  function BindingJson(v: Maybe<BindingValue>): Maybe<Json> {
    match v
    case Undefined => Undefined
    case Defined(BString(s)) => Defined(JString(s))
    case Defined(BBool(b)) => Defined(JBool(b))
    case Defined(BNumber(n)) => Defined(JNumber(n))
  }

  /** IBindingSetting: a setting the template prompts for. */
  datatype BindingSetting = BindingSetting(name: string, required: bool)

  /** `getBindingSetting` over the stored settings: the value under the
      lower-cased name; an unset required setting reads as "", an unset
      optional one as undefined. */
  function ReadBinding(settings: map<string, BindingValue>, setting: BindingSetting): (r: Maybe<BindingValue>)
    ensures Lookup(settings, Lower(setting.name)).Defined? ==> r == Lookup(settings, Lower(setting.name))
    ensures Lookup(settings, Lower(setting.name)).Undefined? ==>
      r == if setting.required then Defined(BString("")) else Undefined
  {
    var value := Lookup(settings, Lower(setting.name));
    if value.Undefined? && setting.required then Defined(BString("")) else value
  }

  /** `setBindingSetting` over the stored settings; an undefined value
      clears the slot. */
  function WriteBinding(settings: map<string, BindingValue>, setting: BindingSetting, value: Maybe<BindingValue>): map<string, BindingValue> {
    Assign(settings, Lower(setting.name), value)
  }

  /** Round trip: a defined value written under a setting reads back, also
      through any setting whose name differs only in case. */
  lemma BindingRoundTrip(settings: map<string, BindingValue>, setting: BindingSetting, other: BindingSetting, value: BindingValue)
    requires EqualIgnoringCase(other.name, setting.name)
    ensures ReadBinding(WriteBinding(settings, setting, Defined(value)), other) == Defined(value)
  {
  }

  /** Writing one setting leaves every setting with a different lower-case
      name as it was. */
  lemma BindingWriteIsolated(settings: map<string, BindingValue>, setting: BindingSetting, other: BindingSetting, value: Maybe<BindingValue>)
    requires !EqualIgnoringCase(other.name, setting.name)
    ensures ReadBinding(WriteBinding(settings, setting, value), other) == ReadBinding(settings, other)
  {
  }

  /** Reading a name that was never written gives "" for a required
      setting and undefined otherwise. */
  lemma UnsetBindingDefault(setting: BindingSetting)
    ensures ReadBinding(map[], setting) == if setting.required then Defined(BString("")) else Undefined
  {
  }

  // ----- templates and the context -----

  /** function.json as a template holds it: its bindings and the other
      top-level entries. */
  datatype FunctionJson = FunctionJson(bindings: seq<map<string, Json>>, others: map<string, Json>)

  /** A template's function.json and which of its bindings is the trigger
      (the template parser makes `triggerBinding` an alias of that entry). */
  datatype FunctionJsonTemplate = FunctionJsonTemplate(data: FunctionJson, triggerIndex: Maybe<nat>)

  /** IFunctionTemplate, with the parts of IScriptFunctionTemplate the script
      step uses (empty for .NET templates). */
  datatype FunctionTemplate = FunctionTemplate(
    id: string,
    isHttpTrigger: bool,
    userPromptedSettings: seq<BindingSetting>,
    templateFiles: map<string, string>,
    functionJson: FunctionJsonTemplate)

  /** The function wizard context: IFunctionWizardContext with the project
      fields it extends and the `namespace`, `newDurableStorageType` and
      `projectTemplateKey` fields of the language contexts. Binding settings
      live on the context under lower-cased names. */
  class FunctionWizardContext {
    var projectPath: string
    var language: Maybe<ProjectLanguage>
    var version: Maybe<FuncVersion>
    var functionTemplate: Maybe<FunctionTemplate>
    var functionName: Maybe<string>
    var namespace: Maybe<string>
    var projectTemplateKey: Maybe<string>
    var hasDurableOrchestrator: Maybe<bool>
    var durableStorageType: Maybe<DurableBackend>
    var newDurableStorageType: Maybe<DurableBackend>
    var bindingSettings: map<string, BindingValue>

    constructor (projectPath: string, language: Maybe<ProjectLanguage>, version: Maybe<FuncVersion>)
      ensures this.projectPath == projectPath && this.language == language && this.version == version
      ensures functionTemplate.Undefined? && functionName.Undefined? && namespace.Undefined?
      ensures projectTemplateKey.Undefined? && hasDurableOrchestrator.Undefined?
      ensures durableStorageType.Undefined? && newDurableStorageType.Undefined?
      ensures bindingSettings == map[]
    {
      this.projectPath := projectPath;
      this.language := language;
      this.version := version;
      functionTemplate, functionName, namespace, projectTemplateKey := Undefined, Undefined, Undefined, Undefined;
      hasDurableOrchestrator := Undefined;
      durableStorageType, newDurableStorageType := Undefined, Undefined;
      bindingSettings := map[];
    }

    /** `getBindingSetting`. */
    function GetBindingSetting(setting: BindingSetting): (r: Maybe<BindingValue>)
      reads this
      ensures r == ReadBinding(bindingSettings, setting)
    {
      ReadBinding(bindingSettings, setting)
    }

    /** `setBindingSetting`: only the lower-cased slot changes, and a defined
        value reads back. */
    method SetBindingSetting(setting: BindingSetting, value: Maybe<BindingValue>)
      modifies this`bindingSettings
      ensures bindingSettings == WriteBinding(old(bindingSettings), setting, value)
      ensures value.Defined? ==> GetBindingSetting(setting) == value
    {
      bindingSettings := Assign(bindingSettings, Lower(setting.name), value);
    }
  }

  // ----- durable-orchestrator checks -----

  /** `verifyHasDurableOrchestrator`, and `isProjectDurable` of
      verifyIsProjectDurable.ts, which is the same check: only JavaScript and
      TypeScript projects are examined, and they are durable exactly when
      package.json has a truthy `dependencies["durable-functions"]`; every
      read or parse failure reads as false. */
  function HasDurableOrchestrator(language: ProjectLanguage, packageJson: Maybe<Json>): (r: bool)
    ensures r ==> language == JavaScript || language == TypeScript
    ensures language == JavaScript || language == TypeScript ==>
      (r <==> MaybeJsonTruthy(Member(Member(packageJson, "dependencies"), "durable-functions")))
  {
    match language
    case JavaScript => NodeHasDurableDependency(packageJson)
    case TypeScript => NodeHasDurableDependency(packageJson)
    case _ => false
  }

  /** The orchestrator check agrees with the durable-storage check of
      durableUtils for node projects, and is never true where that one is
      false; for C# and F# only durableUtils consults the project file. */
  lemma OrchestratorCheckAgreesWithDurableUtils(language: ProjectLanguage, folder: ProjectFolder)
    ensures language == JavaScript || language == TypeScript ==>
      (HasDurableOrchestrator(language, folder.packageJson) <==> HasDurableDependency(Defined(language), folder))
    ensures HasDurableOrchestrator(language, folder.packageJson) ==> HasDurableDependency(Defined(language), folder)
    ensures language == CSharp || language == FSharp ==> !HasDurableOrchestrator(language, folder.packageJson)
  {
  }

  /** A package.json without a `dependencies` field is not durable. */
  lemma MissingDependenciesNotDurable(language: ProjectLanguage, packageJson: map<string, Json>)
    requires "dependencies" !in packageJson
    ensures !HasDurableOrchestrator(language, Defined(JObject(packageJson)))
  {
  }

  // ----- dependency installs -----

  /** The commands a sequence issues when each one runs only after the
      previous ones succeeded: all of them up to and including the first
      that fails. */
  function IssuedUntilFailure(commands: seq<Command>, fails: Command -> bool): (r: seq<Command>)
    ensures |r| <= |commands| && r == commands[..|r|]
    ensures (forall i :: 0 <= i < |commands| ==> !fails(commands[i])) ==> r == commands
    ensures forall i :: 0 <= i < |r| - 1 ==> !fails(r[i])
    ensures |r| < |commands| ==> |r| > 0 && fails(r[|r| - 1])
    ensures commands != [] ==> r != []
  {
    if commands == [] then []
    else if fails(commands[0]) then [commands[0]]
    else [commands[0]] + IssuedUntilFailure(commands[1..], fails)
  }

  // ----- FunctionCreateStepBase -----

  /** The extensions object written for Netherite. */
  function NetheriteExtensions(): Json {
    JObject(map["durableTask" := JObject(map[
      "hubName" := JString("NetheriteHub"),
      "useGracefulShutdown" := JBool(true),
      "storageProvider" := JObject(map[
        "type" := JString("Netherite"),
        "partitionCount" := JNumber(12),
        "StorageConnectionName" := JString("AzureWebJobsStorage"),
        "EventHubsConnectionName" := JString("EventHubsConnection")])])])
  }

  /** The extensions object written for SQL. */
  function SqlExtensions(): Json {
    JObject(map["durableTask" := JObject(map[
      "storageProvider" := JObject(map[
        "type" := JString("mssql"),
        "connectionStringName" := JString("SQLDB_Connection"),
        "taskEventLockTimeout" := JString("00:02:00"),
        "createDatabaseIfNotExists" := JBool(true),
        "schemaName" := JNull])])])
  }

  /** The fragments written out literally here are the default task
      configurations of durableUtils: Netherite with hub "NetheriteHub" and
      12 partitions, and the SQL defaults. */
  lemma FragmentsAreDefaults()
    ensures NetheriteExtensions() == JObject(map["durableTask" := NetheriteTaskConfig(Defined("NetheriteHub"), Defined(12))])
    ensures SqlExtensions() == JObject(map["durableTask" := SqlTaskConfig()])
  {
    var provider := map[
      "type" := JString(BackendTypeName(Netherite)),
      "StorageConnectionName" := JString(StorageConnectionKey),
      "EventHubsConnectionName" := JString(EventHubConnectionKey)];
    assert BackendTypeName(Netherite) == "Netherite" && BackendTypeName(SQL) == "mssql";
    var written := map[
      "type" := JString("Netherite"),
      "partitionCount" := JNumber(12),
      "StorageConnectionName" := JString("AzureWebJobsStorage"),
      "EventHubsConnectionName" := JString("EventHubsConnection")];
    assert Assign(provider, "partitionCount", NumberOf(Defined(12))) == written;
  }

  /** The backends `_configureDurableStorageIfNeeded` edits documents for. */
  predicate EditsDocuments(backend: Maybe<DurableBackend>) {
    backend == Defined(Netherite) || backend == Defined(SQL)
  }

  /** Whether both documents can be edited: each was read and is an
      object. */
  predicate DocumentsEditable(host: Maybe<Json>, localSettings: Maybe<Json>) {
    host.Defined? && host.value.JObject? && localSettings.Defined? && localSettings.value.JObject?
  }

  /** The setting a backend's connection string goes under. */
  function ConnectionSettingOf(backend: DurableBackend): string {
    if backend == Netherite then "EventHubsConnection" else "SQLDB_Connection"
  }

  /** The existing `Values` entries, as the spread `...Values` copies them. */
  function ExistingValues(localSettings: Maybe<Json>): map<string, Json> {
    var values := Member(localSettings, "Values");
    if values.Defined? && values.value.JObject? then values.value.members else map[]
  }

  /** `_configureDurableStorageIfNeeded` on the two documents (host.json,
      local.settings.json). Nothing is written for an unset or Storage
      backend, nor when a document cannot be read or edited. Otherwise
      `extensions` is replaced wholesale by the backend's fragment, the
      other host keys are kept, and `Values` keeps its entries and gets the
      backend's connection setting as "". */
  function ConfigureDurableDocuments(backend: Maybe<DurableBackend>, host: Maybe<Json>, localSettings: Maybe<Json>)
    : (r: (Maybe<Json>, Maybe<Json>))
    ensures !(EditsDocuments(backend) && DocumentsEditable(host, localSettings)) ==> r == (host, localSettings)
    ensures EditsDocuments(backend) && DocumentsEditable(host, localSettings) ==>
      var setting := ConnectionSettingOf(backend.value);
      && r.0.Defined? && r.0.value.JObject? && r.1.Defined? && r.1.value.JObject?
      && Member(r.0, "extensions") == Defined(if backend == Defined(Netherite) then NetheriteExtensions() else SqlExtensions())
      && (forall k :: k in host.value.members && k != "extensions" ==> Member(r.0, k) == Member(host, k))
      && (forall k :: k in localSettings.value.members && k != "Values" ==> Member(r.1, k) == Member(localSettings, k))
      && Member(Member(r.1, "Values"), setting) == Defined(JString(""))
      && (forall k :: k in ExistingValues(localSettings) && k != setting ==>
            Member(Member(r.1, "Values"), k) == Defined(ExistingValues(localSettings)[k]))
  {
    if !(EditsDocuments(backend) && DocumentsEditable(host, localSettings)) then (host, localSettings)
    else
      var extensions := if backend == Defined(Netherite) then NetheriteExtensions() else SqlExtensions();
      var values := ExistingValues(localSettings)[ConnectionSettingOf(backend.value) := JString("")];
      (Defined(JObject(host.value.members["extensions" := extensions])),
       Defined(JObject(localSettings.value.members["Values" := JObject(values)])))
  }

  /** After the edit, host.json names the chosen backend, so
      `getStorageTypeFromWorkspace` reads back what was configured, and the
      Netherite hub and partition count read back as written. */
  lemma ConfiguredBackendReadsBack(backend: DurableBackend, host: Maybe<Json>, localSettings: Maybe<Json>)
    requires backend != Storage && DocumentsEditable(host, localSettings)
    ensures var r := ConfigureDurableDocuments(Defined(backend), host, localSettings);
      && HostStorageType(r.0.value) == backend
      && (backend == Netherite ==>
            GetEventHubName(r.0) == Defined(JString("NetheriteHub")) && GetPartitionCount(r.0) == Defined(JNumber(12)))
  {
    var r := ConfigureDurableDocuments(Defined(backend), host, localSettings);
    FragmentsAreDefaults();
    if backend == Netherite {
      assert DurableTask(r.0) == Defined(NetheriteTaskConfig(Defined("NetheriteHub"), Defined(12)));
      NetheriteConfigRoundTrip(Defined("NetheriteHub"), Defined(12));
    } else {
      assert DurableTask(r.0) == Defined(SqlTaskConfig());
    }
  }

  /** The phases of `execute` that this model follows. */
  datatype CreatePhase = ExecuteCore | ConfigureDurableStorage | VerifyExtensionBundle

  /** FunctionCreateStepBase; the language subclasses supply `executeCore`. */
  class FunctionCreateStep {
    constructor () {}

    predicate ShouldExecute(ctx: FunctionWizardContext)
      reads ctx
    {
      ctx.functionTemplate.Defined?
    }

    /** `_configureDurableStorageIfNeeded`: writes both documents back;
        failures are logged and never raised. */
    method ConfigureDurableStorageIfNeeded(ctx: FunctionWizardContext, documents: ProjectDocuments)
      modifies documents
      ensures (documents.hostJson, documents.localSettingsJson) ==
        ConfigureDurableDocuments(ctx.durableStorageType, old(documents.hostJson), old(documents.localSettingsJson))
    {
      if !ctx.durableStorageType.Defined? || ctx.durableStorageType.value == Storage {
        return;
      }
      var host := documents.hostJson;
      var localSettings := documents.localSettingsJson;
      if !host.Defined? || !localSettings.Defined? || !host.value.JObject? || !localSettings.value.JObject? {
        return;
      }
      var setting := ConnectionSettingOf(ctx.durableStorageType.value);
      if ctx.durableStorageType.value == Netherite {
        host := Defined(JObject(host.value.members["extensions" := NetheriteExtensions()]));
      } else {
        host := Defined(JObject(host.value.members["extensions" := SqlExtensions()]));
      }
      var values := ExistingValues(localSettings)[setting := JString("")];
      localSettings := Defined(JObject(localSettings.value.members["Values" := JObject(values)]));
      documents.hostJson := host;
      documents.localSettingsJson := localSettings;
    }

    /** `execute`: the template must be set; the subclass's `executeCore`
        (whose outcome is `core`), the durable configuration and the
        extension-bundle check run in that order, and a throwing
        `executeCore` stops the step before the documents are touched. */
    method Execute(ctx: FunctionWizardContext, documents: ProjectDocuments, core: Outcome<FsPath>)
      returns (r: Outcome<FsPath>, phases: seq<CreatePhase>)
      modifies documents
      ensures ctx.functionTemplate.Undefined? ==>
        r == Thrown(MissingValue("functionTemplate")) && phases == []
        && documents.hostJson == old(documents.hostJson) && documents.localSettingsJson == old(documents.localSettingsJson)
      ensures ctx.functionTemplate.Defined? && core.Thrown? ==>
        r == core && phases == [ExecuteCore]
        && documents.hostJson == old(documents.hostJson) && documents.localSettingsJson == old(documents.localSettingsJson)
      ensures ctx.functionTemplate.Defined? && core.Ok? ==>
        && r == core
        && phases == [ExecuteCore, ConfigureDurableStorage, VerifyExtensionBundle]
        && (documents.hostJson, documents.localSettingsJson) ==
             ConfigureDurableDocuments(ctx.durableStorageType, old(documents.hostJson), old(documents.localSettingsJson))
    {
      if ctx.functionTemplate.Undefined? {
        return Thrown(MissingValue("functionTemplate")), [];
      }
      phases := [ExecuteCore];
      if core.Thrown? {
        return core, phases;
      }
      ConfigureDurableStorageIfNeeded(ctx, documents);
      phases := phases + [ConfigureDurableStorage];
      phases := phases + [VerifyExtensionBundle];
      r := core;
    }
  }
}
