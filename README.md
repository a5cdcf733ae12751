# Durable storage, connection settings and function creation in the Azure Functions extension for VS Code

This project is a Dafny model of the parts of the Azure Functions extension for
VS Code that deal with durable-function storage backends. It proves properties
of that model. The backends are Azure Storage, Netherite (Event Hubs) and SQL.
The modelled parts are:

- **Connection wizard steps** (`commands/appSettings`). These ask whether a
  connection goes to Azure, an emulator or a custom (non-Azure) resource. Each
  answer is recorded in the wizard context, and the matching sub-wizard is
  handed back. The execute steps write the connection string into the local
  settings.
- **Durable wizard steps** (`commands/createFunction/durableSteps` with
  `netherite/` and `sql/`):
  - list steps that pick or create an Event Hubs namespace, an event hub or a
    SQL database;
  - name steps and their input validation;
  - the partition-count pick;
  - the placeholder steps that fill fixed names;
  - the SQL database create request;
  - the Netherite `host.json` configuration.
- **`durableUtils`**:
  - detecting a durable orchestrator template;
  - the storage-type pick;
  - reading the storage type back from `host.json`;
  - detecting the durable dependency in `package.json` or the `.csproj`;
  - the default `durableTask` configurations;
  - the Netherite and SQL connection validation, which decides which steps a
    sub-wizard needs.
- **Function creation** (`commands/createFunction`):
  - the wizard context's binding settings, which are looked up with lower-cased
    keys;
  - the base create step's phase order;
  - the `host.json` and `local.settings.json` edits made for a new Netherite or
    SQL backend;
  - the .NET step's `dotnet new` arguments and package installs;
  - the script step's files, its filled-in trigger binding and its npm install;
  - the durable-orchestrator check on `package.json`.
- **Deploy-time reconciliation** (`commands/deploy/verifyAppSettings.ts`). Here
  the remote application settings are checked against the local project:
  - the worker runtime and version;
  - the run-from-package setting on Windows;
  - the Linux remote-build settings;
  - the storage and event-hubs connection strings.

  Settings are sent back only when something changed.

How the source is modelled:

- **Objects the source updates in place become classes.** These are:
  - the wizard contexts (`Wizard.ConnectionContext`,
    `FunctionCreation.FunctionWizardContext`);
  - the local settings (`Wizard.LocalSettings`);
  - the project documents (`Wizard.ProjectDocuments`);
  - the remote settings dictionary (`VerifyAppSettings.RemoteProperties`).

  Their methods state the whole new state, usually as
  `ctx.State() == old(ctx.State()).(field := value)`. Each such method is
  proved against a function on the old state, and the properties are lemmas
  about those functions.
- **JavaScript semantics are written out.**
  - A value that may be `undefined` is a `Maybe`.
  - Truthiness (`!!x`) is an explicit predicate (`Truthy`, `MaybeJsonTruthy`).
  - Optional chaining on JSON is `Base.Member`.
  - A key assigned `undefined` is treated as absent, as in JSON written to
    disk.
  - `nonNullProp` and `nonNullValue` throw. The model returns
    `Thrown(MissingValue(name))`.
- **What the code does not decide becomes a parameter.** This covers:
  - answers typed or picked in the UI;
  - results of Azure SDK calls and Azure library steps;
  - local file contents;
  - which shell commands fail;
  - helper functions from modules outside this model.

  The contracts hold for every value of these parameters. Requires clauses on
  UI answers demand only what the UI enforces, for example that the answer is
  one of the buttons shown or that the typed text passed the step's
  `validateInput`.

Modules, one per source area:

| module | file | models |
|---|---|---|
| `Base` | `base.dfy` | the shared values: Maybe and outcome types, JSON, connection types, backends, languages, commands, keys |
| `Text` | `text.dfy` | `trim`, `toLowerCase` and the case-insensitive test of a regular expression without metacharacters |
| `Wizard` | `wizard.dfy` | the step names, wizard options, priorities, the connection wizard context, local settings and project documents |
| `AppSettings` | `app_settings.dfy` | the connection prompt and execute steps of `commands/appSettings` |
| `DurableUtils` | `durable_utils.dfy` | `durableUtils` |
| `NetheriteSteps` | `netherite_steps.dfy` | `durableSteps/netherite` |
| `DurableSteps` | `durable_steps.dfy` | the top-level steps of `durableSteps` |
| `SqlDatabaseSteps` | `sql_steps.dfy` | `durableSteps/sql` |
| `FunctionCreation` | `create_function.dfy` | `IFunctionWizardContext`, `FunctionCreateStepBase`, `verifyHasDurableOrchestrator` and `verifyIsProjectDurable` |
| `DotnetCreation` | `dotnet_create.dfy` | `DotnetFunctionCreateStep` |
| `ScriptCreation` | `script_create.dfy` | `ScriptFunctionCreateStep` |
| `VerifyAppSettings` | `verify_app_settings.dfy` | `verifyAppSettings.ts` |

## Model

| member | source | states |
|---|---|---|
| Base.BackendTypeName | src/utils/durableUtils.ts:65-76 | Netherite and SQL have the `host.json` provider type strings `Netherite` and `mssql`; no other backend has either string |
| Text.Trim | src/commands/createFunction/durableSteps/netherite/EventHubNameStep.ts:31 | the result has no leading or trailing whitespace and is a contiguous piece of the input with only whitespace cut from its two ends |
| Text.TrimIdempotent | src/commands/createFunction/durableSteps/netherite/EventHubNameStep.ts:18-31 | trimming an already trimmed name changes nothing, so a name trimmed on entry validates as it was typed |
| Text.Lower | src/commands/createFunction/IFunctionWizardContext.ts:22-29 | lower-casing keeps the length and lower-cases each character |
| Text.LowerIdempotent | src/commands/createFunction/IFunctionWizardContext.ts:22-29 | lower-casing a lower-cased key changes nothing |
| Text.ContainsIgnoringCase | src/utils/durableUtils.ts:29-32 | true exactly when the pattern occurs at some position of the text, ignoring ASCII case |
| Wizard.Priority | src/commands/createFunction/durableSteps/netherite/NetheriteConfigureHostStep.ts:15 | every execute step of this model has a priority and the two steps outside it have none |
| Wizard.PriorityOrder | src/commands/createFunction/FunctionCreateStepBase.ts:40 | whenever one step creates a resource or writes a part of the project that another step reads or replaces (the namespace, the database, host.json's durable section, the SQL placeholder setting), the creating step has the lower priority and so runs first |
| Wizard.AddLocationStep | src/commands/createFunction/durableSteps/EventHubsListStep.ts:35-53 | the location step is appended after the given steps exactly when the library adds it, and the given steps are kept in order |
| Wizard.SubscriptionThen | src/commands/appSettings/AzureWebJobsStoragePromptStep.ts:62-89 | the Azure sub-wizard ends with the resource step and starts with the subscription step when the account tree offers one |
| Wizard.NewOrExistingPicks | src/commands/createFunction/durableSteps/sql/SqlDatabaseListStep.ts:47-65 | the picks are a "create new" entry with no data, then one entry per listed resource in listing order, carrying that resource |
| Wizard.LocalSettings.SetLocalAppSetting | src/commands/appSettings/AzureWebJobsStorageExecuteStep.ts:24 | the key gets the value, overwriting what was there, and every other key is unchanged |
| AppSettings.AnswerType | src/commands/appSettings/AzureWebJobsStoragePromptStep.ts:42-48 | the first button maps to Azure, the second (the emulator or non-Azure button) to NonAzure, any other answer to None; no answer gives Emulator or Skip |
| AppSettings.ButtonsWithEmulator | src/commands/appSettings/AzureWebJobsStoragePromptStep.ts:32-39 | the primary button comes first; the emulator button comes second exactly on Windows; "skip for now" comes last exactly when it is not suppressed |
| AppSettings.SqlButtons | src/commands/appSettings/SqlDatabaseConnectionPromptStep.ts:34-38 | the Azure and non-Azure database buttons come first, there is no emulator button, and "skip for now" appears exactly when not suppressed |
| AppSettings.InheritedStorageType | src/commands/appSettings/AzureWebJobsStoragePromptStep.ts:53-60 | the storage type is inherited from the event-hubs type, else from the SQL type, else it is kept; it stays unset only when all three are unset |
| AppSettings.InheritFromStorage | src/commands/appSettings/EventHubsConnectionPromptStep.ts:54-59 | a set storage type overrides the step's own type; the result is unset only when both are unset |
| AppSettings.EmulatorDialog | src/commands/appSettings/AzureWebJobsStoragePromptStep.ts:31-47 | the dialog shows exactly the buttons of `ButtonsWithEmulator`, and the answer's type is the one `AnswerType` gives with the emulator button second |
| AppSettings.AzureWebJobsStoragePromptStep.Prompt | src/commands/appSettings/AzureWebJobsStoragePromptStep.ts:19-51 | records the preselected type, or the answer's type, in the context and in telemetry, and nothing else; the emulator is chosen by dialog only on Windows |
| AppSettings.AzureWebJobsStoragePromptStep.ShouldPrompt | src/commands/appSettings/AzureWebJobsStoragePromptStep.ts:53-60 | inherits the storage type from the other connection types, and prompts exactly when it is still unset |
| AppSettings.AzureWebJobsStoragePromptStep.GetSubWizard | src/commands/appSettings/AzureWebJobsStoragePromptStep.ts:62-89 | a sub-wizard exists exactly for the Azure type: subscription, then storage account list, with no execute steps |
| AppSettings.EventHubsConnectionPromptStep.Prompt | src/commands/appSettings/EventHubsConnectionPromptStep.ts:20-52 | records the preselected type, or the answer's type, in the context and in telemetry, and nothing else; the emulator is chosen by dialog only on Windows |
| AppSettings.EventHubsConnectionPromptStep.ShouldPrompt | src/commands/appSettings/EventHubsConnectionPromptStep.ts:54-59 | takes the storage type when one is set, and prompts exactly when the event-hubs type is still unset |
| AppSettings.EventHubsConnectionPromptStep.GetSubWizard | src/commands/appSettings/EventHubsConnectionPromptStep.ts:61-76 | a sub-wizard exists exactly for the Azure type: subscription, then the Netherite namespace list |
| AppSettings.SqlDatabaseConnectionPromptStep.Prompt | src/commands/appSettings/SqlDatabaseConnectionPromptStep.ts:21-50 | records the preselected type, or the answer's type (Azure, non-Azure or None), in the context and in telemetry, and nothing else |
| AppSettings.SqlDatabaseConnectionPromptStep.ShouldPrompt | src/commands/appSettings/SqlDatabaseConnectionPromptStep.ts:52-57 | takes the storage type when one is set, and prompts exactly when the SQL type is still unset |
| AppSettings.SqlDatabaseConnectionPromptStep.GetSubWizard | src/commands/appSettings/SqlDatabaseConnectionPromptStep.ts:59-78 | None gives no sub-wizard; non-Azure gives the custom connection prompt; every other type gives subscription, then server list |
| AppSettings.SqlDatabaseConnectionCustomPromptStep.Prompt | src/commands/appSettings/SqlDatabaseConnectionCustomPromptStep.ts:6-12 | fills the fixed custom connection string and nothing else, after which the step no longer prompts |
| AppSettings.AzureWebJobsStorageExecuteStep.Execute | src/commands/appSettings/AzureWebJobsStorageExecuteStep.ts:16-25 | the storage key gets the emulator string for the Emulator type and the fetched string otherwise; other local settings are unchanged |
| AppSettings.EventHubsConnectionExecuteStep.Execute | src/commands/appSettings/EventHubsConnectionExecuteStep.ts:16-25 | the event-hubs key gets the emulator string for the Emulator type and the fetched string otherwise; other local settings are unchanged |
| AppSettings.SqlDatabaseConnectionExecuteStep.Execute | src/commands/appSettings/SqlDatabaseConnectionExecuteStep.ts:19-27 | in deploy mode only the context's deploy connection changes; otherwise only the local SQL key changes |
| AppSettings.DialogAnswerFetches | src/commands/appSettings/AzureWebJobsStoragePromptStep.ts:42-48 | no dialog answer selects the emulator string, and "skip for now" records None rather than Skip |
| DurableUtils.RequiresDurableStorage | src/utils/durableUtils.ts:29-32 | a template needs durable storage exactly when its id contains the orchestrator stem, ignoring case |
| DurableUtils.StemAnywhere | src/utils/durableUtils.ts:29-32 | the stem in any case, anywhere in the id, is detected |
| DurableUtils.ShortIdsAreNotDurable | src/utils/durableUtils.ts:29-32 | an id shorter than the stem never needs durable storage |
| DurableUtils.StorageTypePicks | src/utils/durableUtils.ts:42-46 | exactly three picks, Storage, Netherite and SQL, in that order |
| DurableUtils.PromptForStorageType | src/utils/durableUtils.ts:34-48 | the first pick gives Storage, the second Netherite and the third SQL, each exactly for that pick |
| DurableUtils.EveryBackendOffered | src/utils/durableUtils.ts:34-48 | every backend can be chosen |
| DurableUtils.ChoicesDistinct | src/utils/durableUtils.ts:34-48 | distinct picks give distinct backends, so together with `EveryBackendOffered` the choice and the backend correspond one to one |
| DurableUtils.HostStorageType | src/utils/durableUtils.ts:65-76 | Netherite and SQL exactly for their provider type strings; a missing or unknown type reads as Storage |
| DurableUtils.DefaultConfigRoundTrip | src/utils/durableUtils.ts:140-146 | the default `durableTask` configuration of a backend reads back as that backend |
| DurableUtils.NetheriteConfigRoundTrip | src/utils/durableUtils.ts:150-221 | the Netherite configuration reads back its hub name (empty when falsy), its partition count and the Netherite type |
| DurableUtils.SqlConfigFields | src/utils/durableUtils.ts:251-261 | the SQL provider holds the fixed lock timeout, database creation flag, null schema name and the SQL connection key |
| DurableUtils.NodeHasDurableDependency | src/utils/durableUtils.ts:105-113 | true exactly when `dependencies["durable-functions"]` is truthy; a file without dependencies gives false |
| DurableUtils.DotnetHasDurableDependency | src/utils/durableUtils.ts:115-138 | true exactly when some package reference names the durable-task package |
| DurableUtils.VerifyHasDurableStorage | src/utils/durableUtils.ts:82-103 | true exactly when a project path is known and the language's dependency check passes; only JavaScript, TypeScript, C# and F# can pass |
| DurableUtils.GetStorageTypeFromWorkspace | src/utils/durableUtils.ts:50-78 | a backend is found exactly for a durable project with a readable `host.json`, and it is the type stored there |
| DurableUtils.NetheriteStepsMeaning | src/utils/durableUtils.ts:185-199 | the connection prompt is skipped exactly when a deploy already has a connection; hub-name and partition prompts appear exactly when `host.json` lacks those values; the host step always runs last |
| DurableUtils.NetheriteStepLists | src/utils/durableUtils.ts:185-199 | given the skip decision for that connection and options, the lists built are exactly those of `NetheriteSteps`: the connection prompt and execute step unless skipped, the hub-name and partition prompts when `host.json` lacks them, and the host step last |
| DurableUtils.ValidateNetheriteConnection | src/utils/durableUtils.ts:168-208 | no project path throws; otherwise the steps are those of `NetheriteSteps`, and an existing deploy connection is stored in the context |
| DurableUtils.ValidateSqlConnection | src/utils/durableUtils.ts:225-249 | no project path throws; an existing connection gives no steps (and is stored for a deploy); otherwise it gives the SQL steps |
| NetheriteSteps.TrimOrEmpty | src/commands/createFunction/durableSteps/netherite/EventHubNameStep.ts:31 | an unset name validates as the empty string, a set one as its trimmed form |
| NetheriteSteps.TrimOrEmptyOfTrimmed | src/commands/createFunction/durableSteps/netherite/EventHubNameStep.ts:14-31 | the name stored after the prompt validates exactly as the typed name did |
| NetheriteSteps.HubNamePatternMeaning | src/commands/createFunction/durableSteps/netherite/EventHubNameStep.ts:34 | the automaton for the hub-name pattern accepts exactly the names made of lower-case letters, digits and inner hyphens, starting and ending with a letter or digit |
| NetheriteSteps.RunAfterFirst | src/commands/createFunction/durableSteps/netherite/EventHubNameStep.ts:34 | after the first character, the pattern accepts exactly runs of allowed characters that end in a letter or digit |
| NetheriteSteps.RejectedStays | src/commands/createFunction/durableSteps/netherite/EventHubNameStep.ts:34 | once rejected, no further input makes a name match |
| NetheriteSteps.HubNameRejections | src/commands/createFunction/durableSteps/netherite/EventHubNameStep.ts:34 | empty names, names with capitals or underscores, and names starting or ending with a hyphen are rejected |
| NetheriteSteps.NetheriteEventHubNameStep.ValidateInput | src/commands/createFunction/durableSteps/netherite/NetheriteEventHubNameStep.ts:40-58 | the length message exactly for a bad length, the character message exactly for good length but bad characters, and no message otherwise |
| NetheriteSteps.NetheriteEventHubNameStep.Prompt | src/commands/createFunction/durableSteps/netherite/NetheriteEventHubNameStep.ts:27-38 | stores the trimmed name and nothing else; the stored name still validates |
| NetheriteSteps.EventHubNameStep.IsNameAvailable | src/commands/createFunction/durableSteps/netherite/EventHubNameStep.ts:25-28 | a name is available exactly when no event hub of that name exists |
| NetheriteSteps.EventHubNameStep.ValidateInput | src/commands/createFunction/durableSteps/netherite/EventHubNameStep.ts:30-45 | a badly formed name gets the character message; a well-formed existing name gets the exists message; only a well-formed new name passes |
| NetheriteSteps.EventHubNameStep.FormatCheckedFirst | src/commands/createFunction/durableSteps/netherite/EventHubNameStep.ts:30-45 | a badly formed name is rejected the same way whatever hubs exist |
| NetheriteSteps.EventHubNameStep.Prompt | src/commands/createFunction/durableSteps/netherite/EventHubNameStep.ts:14-23 | stores the trimmed name and nothing else; it is a well-formed hub name, so the step no longer prompts |
| NetheriteSteps.ValidateNamespaceName | src/commands/createFunction/durableSteps/netherite/EventHubsNamespaceNameStep.ts:29-45 | length, then characters, then availability are checked in that order, and exactly one message (or none) results |
| NetheriteSteps.EventHubsNamespaceNameStep.constructor | src/commands/createFunction/durableSteps/netherite/EventHubsNamespaceNameStep.ts:17-23 | the step starts without a namespace client |
| NetheriteSteps.EventHubsNamespaceNameStep.Prompt | src/commands/createFunction/durableSteps/netherite/EventHubsNamespaceNameStep.ts:17-27 | keeps the client it created and stores the trimmed name and nothing else; the stored name still validates |
| NetheriteSteps.PartitionPicks | src/commands/createFunction/durableSteps/netherite/EventHubPartitionsStep.ts:15-19 | three picks, 12 (recommended), 1 and 32, in that order |
| NetheriteSteps.EventHubPartitionsStep.Prompt | src/commands/createFunction/durableSteps/netherite/EventHubPartitionsStep.ts:12-25 | stores the picked count, which is 1, 12 or 32, and nothing else |
| NetheriteSteps.EventHubsNamespaceListStep.GetQuickPicks | src/commands/createFunction/durableSteps/netherite/EventHubsNamespaceListStep.ts:49-67 | "create new" first, then the namespaces in listing order |
| NetheriteSteps.EventHubsNamespaceListStep.Prompt | src/commands/createFunction/durableSteps/netherite/EventHubsNamespaceListStep.ts:16-24 | stores the picked namespace or none for "create new", and nothing else; the step prompts again exactly after "create new" |
| NetheriteSteps.EventHubsNamespaceListStep.GetSubWizard | src/commands/createFunction/durableSteps/netherite/EventHubsNamespaceListStep.ts:26-43 | without a namespace: name and resource-group prompts (plus location) and the create step; a picked namespace without a name throws; with one, its name is masked and there is no sub-wizard |
| NetheriteSteps.ConfigureNetheriteHost | src/commands/createFunction/durableSteps/netherite/NetheriteConfigureHostStep.ts:17-32 | `host.json` is unchanged unless it has writable extensions and the namespace and count are set; then only `extensions.durableTask` is replaced, by the Netherite configuration, and no other key is added at either level |
| NetheriteSteps.ConfiguredHostReadsBack | src/commands/createFunction/durableSteps/netherite/NetheriteConfigureHostStep.ts:17-32 | the configured host reads back the namespace name as hub name, the partition count and the Netherite type |
| NetheriteSteps.NetheriteConfigureHostStep.Execute | src/commands/createFunction/durableSteps/netherite/NetheriteConfigureHostStep.ts:17-32 | `host.json` becomes `ConfigureNetheriteHost` of its old content and `local.settings.json` is untouched |
| DurableSteps.PickedNamespace | src/commands/createFunction/durableSteps/EventHubsListStep.ts:25-33 | entry 0 ("create new") gives no namespace, entry i the i-th listed one |
| DurableSteps.PickNamespace | src/commands/createFunction/durableSteps/EventHubsListStep.ts:25-33 | the quick-pick lookup returns `PickedNamespace` |
| DurableSteps.EventHubsListStep.IsNameAvailable | src/commands/createFunction/durableSteps/EventHubsListStep.ts:17-23 | false without resource-group and namespace names; otherwise true exactly when an event hub of that name exists, as written |
| DurableSteps.EventHubsListStep.GetQuickPicks | src/commands/createFunction/durableSteps/EventHubsListStep.ts:59-77 | "create new" first, then the listed resources in listing order |
| DurableSteps.EventHubsListStep.Prompt | src/commands/createFunction/durableSteps/EventHubsListStep.ts:25-57 | stores the pick and nothing else; as written the step prompts again exactly after an existing resource is picked |
| DurableSteps.EventHubsListStep.GetSubWizard | src/commands/createFunction/durableSteps/EventHubsListStep.ts:35-53 | without a namespace: namespace name, hub name and resource group (plus location) with the namespace create step; a nameless pick throws; a named one is masked |
| DurableSteps.EventHubsNamespaceListStep.IsNameAvailable | src/commands/createFunction/durableSteps/EventHubsNamespaceListStep.ts:16-19 | true exactly when the availability check answers true |
| DurableSteps.EventHubsNamespaceListStep.GetQuickPicks | src/commands/createFunction/durableSteps/EventHubsNamespaceListStep.ts:54-72 | "create new" first, then the namespaces in listing order |
| DurableSteps.EventHubsNamespaceListStep.Prompt | src/commands/createFunction/durableSteps/EventHubsNamespaceListStep.ts:21-52 | stores the pick and nothing else; the step prompts again exactly after "create new" |
| DurableSteps.EventHubsNamespaceListStep.GetSubWizard | src/commands/createFunction/durableSteps/EventHubsNamespaceListStep.ts:31-48 | without a namespace: namespace name and resource group (plus location) with the create step; a nameless pick throws; a named one is masked |
| DurableSteps.EventHubNameStep.Prompt | src/commands/createFunction/durableSteps/EventHubNameStep.ts:10-16 | fills the fixed hub name and nothing else, after which it no longer prompts |
| DurableSteps.EventHubNamespaceNameStep.Prompt | src/commands/createFunction/durableSteps/EventHubNamespaceNameStep.ts:10-16 | fills the fixed namespace name and nothing else, after which it no longer prompts |
| DurableSteps.EventHubPartitionsStep.Prompt | src/commands/createFunction/durableSteps/EventHubPartitionsStep.ts:10-16 | changes nothing |
| DurableSteps.EventHubsNamespaceCreateStep.Execute | src/commands/createFunction/durableSteps/EventHubsNamespaceCreateStep.ts:12-18 | changes nothing |
| SqlDatabaseSteps.SqlDatabaseListStep.GetQuickPicks | src/commands/createFunction/durableSteps/sql/SqlDatabaseListStep.ts:47-65 | "create new" first, then the databases in listing order |
| SqlDatabaseSteps.SqlDatabaseListStep.Prompt | src/commands/createFunction/durableSteps/sql/SqlDatabaseListStep.ts:17-27 | throws without resource-group and server names; otherwise stores the picked database (none for "create new") and nothing else |
| SqlDatabaseSteps.SqlDatabaseListStep.GetSubWizard | src/commands/createFunction/durableSteps/sql/SqlDatabaseListStep.ts:29-41 | without a database: the name prompt and the create step; a nameless pick throws; a named one is masked and both lists are empty |
| SqlDatabaseSteps.ServerlessSku | src/commands/createFunction/durableSteps/sql/SqlDatabaseCreateStep.ts:30-38 | the fixed serverless sku `GP_S_Gen5`, GeneralPurpose, Gen5, capacity 1 |
| SqlDatabaseSteps.SqlDatabaseCreateStep.Execute | src/commands/createFunction/durableSteps/sql/SqlDatabaseCreateStep.ts:19-42 | throws exactly when a resource-group, server or database name or the location is missing, changing nothing; otherwise it sends the names with the serverless sku and the location, and stores the created database |
| SqlDatabaseSteps.SqlDatabaseNameStep.Prompt | src/commands/createFunction/durableSteps/sql/SqlDatabaseNameStep.ts:6-12 | fills the fixed database name and nothing else, after which it no longer prompts |
| SqlDatabaseSteps.SqlServerNameStep.Prompt | src/commands/createFunction/durableSteps/sql/SqlServerNameStep.ts:11-17 | fills the fixed server name and nothing else, after which it no longer prompts |
| SqlDatabaseSteps.SqlServerUsernameAuthStep.Prompt | src/commands/createFunction/durableSteps/sql/SqlServerUsernameAuthStep.ts:10-16 | fills the fixed administrator name and nothing else, after which it no longer prompts |
| SqlDatabaseSteps.SqlServerPasswordAuthStep.Prompt | src/commands/createFunction/durableSteps/sql/SqlServerPasswordAuthStep.ts:10-16 | fills the fixed administrator password and nothing else, after which it no longer prompts |
| FunctionCreation.ReadBinding | src/commands/createFunction/IFunctionWizardContext.ts:26-29 | the value under the lower-cased name; a missing value reads as `""` for a required setting and as undefined otherwise |
| FunctionCreation.BindingRoundTrip | src/commands/createFunction/IFunctionWizardContext.ts:22-29 | a value written under a name reads back under any name equal to it ignoring case |
| FunctionCreation.BindingWriteIsolated | src/commands/createFunction/IFunctionWizardContext.ts:22-29 | a write does not affect names that differ ignoring case |
| FunctionCreation.UnsetBindingDefault | src/commands/createFunction/IFunctionWizardContext.ts:26-29 | with nothing set, a required setting reads `""` and an optional one undefined |
| FunctionCreation.FunctionWizardContext.constructor | src/commands/createFunction/IFunctionWizardContext.ts:22-29 | a new context has the given path, language and version, and nothing else set |
| FunctionCreation.FunctionWizardContext.GetBindingSetting | src/commands/createFunction/IFunctionWizardContext.ts:26-29 | reads the setting as `ReadBinding` does |
| FunctionCreation.FunctionWizardContext.SetBindingSetting | src/commands/createFunction/IFunctionWizardContext.ts:22-24 | writes under the lower-cased name, changes only the binding settings, and a defined value reads back |
| FunctionCreation.HasDurableOrchestrator | src/commands/createFunction/verifyHasDurableOrchestrator.ts:11-37 | only JavaScript and TypeScript projects can pass, and they pass exactly when `dependencies["durable-functions"]` is truthy |
| FunctionCreation.OrchestratorCheckAgreesWithDurableUtils | src/commands/createFunction/verifyIsProjectDurable.ts:11-37 | for Node projects the check agrees with the durable dependency check of `durableUtils`; .NET projects never pass |
| FunctionCreation.MissingDependenciesNotDurable | src/commands/createFunction/verifyHasDurableOrchestrator.ts:27-37 | a `package.json` without dependencies is not durable |
| FunctionCreation.IssuedUntilFailure | src/commands/createFunction/dotnetSteps/DotnetFunctionCreateStep.ts:63-83 | the commands issued are a prefix of the list: all of it when none fails, otherwise up to and including the first failure |
| FunctionCreation.FragmentsAreDefaults | src/commands/createFunction/FunctionCreateStepBase.ts:87-113 | the extensions written for Netherite and SQL are the `durableUtils` defaults (hub `NetheriteHub`, 12 partitions; the SQL provider) |
| FunctionCreation.ConfigureDurableDocuments | src/commands/createFunction/FunctionCreateStepBase.ts:76-121 | nothing changes for Storage, no backend or unreadable documents; otherwise `extensions` is replaced, the backend's connection becomes `""` in `Values`, and every other key of both files is kept |
| FunctionCreation.ConfiguredBackendReadsBack | src/commands/createFunction/FunctionCreateStepBase.ts:76-121 | after configuring, `host.json` reads back as the chosen backend, and for Netherite gives hub `NetheriteHub` and 12 partitions |
| FunctionCreation.FunctionCreateStep.ConfigureDurableStorageIfNeeded | src/commands/createFunction/FunctionCreateStepBase.ts:76-121 | the documents become `ConfigureDurableDocuments` of their old content |
| FunctionCreation.FunctionCreateStep.Execute | src/commands/createFunction/FunctionCreateStepBase.ts:47-70 | a missing template throws before anything runs; a failed core throws with the documents unchanged; otherwise the core, the storage configuration and the bundle check run in that order |
| DotnetCreation.SettingArgs | src/commands/createFunction/dotnetSteps/DotnetFunctionCreateStep.ts:41-48 | two arguments for each setting whose value reads as defined |
| DotnetCreation.RequiredSettingsAllPassed | src/commands/createFunction/dotnetSteps/DotnetFunctionCreateStep.ts:41-48 | every required setting is passed, since a missing one reads `""` |
| DotnetCreation.SettingArgsPrefix | src/commands/createFunction/dotnetSteps/DotnetFunctionCreateStep.ts:41-48 | the arguments of the first n settings are a prefix of those of all settings, so arguments keep setting order |
| DotnetCreation.DotnetInstallCommands | src/commands/createFunction/dotnetSteps/DotnetFunctionCreateStep.ts:63-83 | none without a new backend; the durable-task package always last; two commands exactly for Netherite |
| DotnetCreation.DotnetFunctionCreateStep.AppendSettingArgs | src/commands/createFunction/dotnetSteps/DotnetFunctionCreateStep.ts:41-48 | the loop appends exactly `SettingArgs` to the arguments it was given |
| DotnetCreation.DotnetFunctionCreateStep.InstallDependenciesIfNeeded | src/commands/createFunction/dotnetSteps/DotnetFunctionCreateStep.ts:63-83 | the commands issued are the install list up to its first failure |
| DotnetCreation.DotnetFunctionCreateStep.ExecuteCore | src/commands/createFunction/dotnetSteps/DotnetFunctionCreateStep.ts:30-61 | throws for a missing template, name, namespace, version, then language (when there is no template key), in that order; succeeds exactly when all are present; the command, the installs and the new file path are then as stated |
| DotnetCreation.InstallsFollowBackend | src/commands/createFunction/dotnetSteps/DotnetFunctionCreateStep.ts:63-83 | nothing is installed without a backend; for Netherite the second package is installed exactly when the first succeeds |
| ScriptCreation.ScriptFileName | src/commands/createFunction/scriptSteps/ScriptFunctionCreateStep.ts:18-35 | a script file exists for every language except C#, F# and others, and it is never empty |
| ScriptCreation.ScriptFileNamesDistinct | src/commands/createFunction/scriptSteps/ScriptFunctionCreateStep.ts:18-35 | no two languages share a script file |
| ScriptCreation.TriggerBinding | src/commands/createFunction/scriptSteps/ScriptFunctionCreateStep.ts:46-49 | a trigger binding exists exactly when the template's index names one of its bindings |
| ScriptCreation.FillBindingMeaning | src/commands/createFunction/scriptSteps/ScriptFunctionCreateStep.ts:46-49 | after the loop each setting's key holds that setting's value (absent when undefined), and keys naming no setting are as in the template |
| ScriptCreation.FilledFunctionJson | src/commands/createFunction/scriptSteps/ScriptFunctionCreateStep.ts:46-57 | only the trigger binding changes, to the filled one; the other bindings and fields are the template's |
| ScriptCreation.TemplateFiles | src/commands/createFunction/scriptSteps/ScriptFunctionCreateStep.ts:41-44 | every template file is written under the function folder with its text, and nothing else is |
| ScriptCreation.ScriptInstallCommands | src/commands/createFunction/scriptSteps/ScriptFunctionCreateStep.ts:66-75 | `npm install durable-functions` in the project exactly when there is a new backend |
| ScriptCreation.ScriptFunctionCreateStep.FillTriggerBinding | src/commands/createFunction/scriptSteps/ScriptFunctionCreateStep.ts:46-49 | the loop computes `FillBinding` |
| ScriptCreation.ScriptFunctionCreateStep.InstallDependenciesIfNeeded | src/commands/createFunction/scriptSteps/ScriptFunctionCreateStep.ts:66-75 | the commands issued are `ScriptInstallCommands` |
| ScriptCreation.ScriptFunctionCreateStep.ExecuteCore | src/commands/createFunction/scriptSteps/ScriptFunctionCreateStep.ts:38-64 | the name and template are required before anything is written; a missing trigger binding throws after the template files; otherwise function.json is written filled in, the install runs, and the result is the script file in the function folder (function.json for languages without one) or a throw when no language is set |
| VerifyAppSettings.UpdateConnectionString | src/commands/deploy/verifyAppSettings.ts:79-91 | a local value is pushed exactly when it is non-empty, not the emulator's, and either overwriting is chosen or the remote value is empty; only that key can change |
| VerifyAppSettings.UpdateConnectionStringIfNeeded | src/commands/deploy/verifyAppSettings.ts:79-91 | the dictionary and result become `UpdateConnectionString` of the old dictionary |
| VerifyAppSettings.ConnectionStrings | src/commands/deploy/verifyAppSettings.ts:49-66 | only the event-hubs and storage keys can change, and only storage unless the backend is Netherite; no change means the same dictionary |
| VerifyAppSettings.VerifyConnectionStrings | src/commands/deploy/verifyAppSettings.ts:49-77 | the local-or-remote question is asked first: dismissing it throws `UserCancelled` with the dictionary untouched; otherwise nothing is thrown, and the dictionary and result become `ConnectionStrings` of the old dictionary, overwriting exactly on the "Local" answer |
| VerifyAppSettings.EmulatorStorageNeverPushed | src/commands/deploy/verifyAppSettings.ts:63-64 | an emulator storage string leaves the remote storage connection as it was |
| VerifyAppSettings.NetheriteChangeSkipsStorage | src/commands/deploy/verifyAppSettings.ts:53-64 | for Netherite, a changed event-hubs connection skips the storage connection |
| VerifyAppSettings.OnlyStorageUnlessNetherite | src/commands/deploy/verifyAppSettings.ts:52-64 | for other backends the SQL and event-hubs keys are unchanged and only the storage update runs |
| VerifyAppSettings.RunFromPackage | src/commands/deploy/verifyAppSettings.ts:132-141 | the setting is added exactly when it is empty or missing, is truthy afterwards, and nothing else changes |
| VerifyAppSettings.VerifyRunFromPackage | src/commands/deploy/verifyAppSettings.ts:132-141 | the dictionary and result become `RunFromPackage` of the old dictionary |
| VerifyAppSettings.RunFromPackageIdempotent | src/commands/deploy/verifyAppSettings.ts:132-141 | a second call adds nothing |
| VerifyAppSettings.SetAllMeaning | src/commands/deploy/verifyAppSettings.ts:163-170 | after the assignment loop each listed key holds its last listed value and other keys keep theirs; no change reported means the same dictionary |
| VerifyAppSettings.RemoveAllMeaning | src/commands/deploy/verifyAppSettings.ts:173-178 | after the deletion loop each listed key with a truthy value is gone, others are kept, and a change is reported exactly when some listed key was truthy |
| VerifyAppSettings.DedicatedSettingsValues | src/commands/deploy/verifyAppSettings.ts:156-161 | the dedicated build list gives each build key its required value and no run-from key |
| VerifyAppSettings.LinuxRemoteBuild | src/commands/deploy/verifyAppSettings.ts:143-182 | each key ends as `LinuxBuildValue` says; only the six build keys can change; the result reports a change exactly when the dictionary differs |
| VerifyAppSettings.KeysToRemoveMembers | src/commands/deploy/verifyAppSettings.ts:146-166 | the keys queued for deletion are the run-from keys on a remote build, and the four build keys on a dedicated plan without one |
| VerifyAppSettings.WrittenBuildValue | src/commands/deploy/verifyAppSettings.ts:155-170 | after the first loop each build key holds its required value on a remote build for a dedicated plan, and every other key is as before |
| VerifyAppSettings.LinuxBuildValues | src/commands/deploy/verifyAppSettings.ts:143-182 | the two loops together give `LinuxBuildValue` key by key and touch only the six build keys |
| VerifyAppSettings.LinuxRemoteBuildChanged | src/commands/deploy/verifyAppSettings.ts:143-182 | the two loops report a change exactly when the dictionary differs afterwards |
| VerifyAppSettings.WriteDedicatedBuildSettings | src/commands/deploy/verifyAppSettings.ts:146-171 | the first loop leaves the dictionary and change flag of the dedicated-settings assignment, and queues exactly `KeysToRemove` |
| VerifyAppSettings.RemoveQueuedKeys | src/commands/deploy/verifyAppSettings.ts:173-178 | the second loop leaves the dictionary and change flag of `RemoveAll` |
| VerifyAppSettings.VerifyLinuxRemoteBuildSettings | src/commands/deploy/verifyAppSettings.ts:143-182 | the dictionary and result become `LinuxRemoteBuild` of the old dictionary |
| VerifyAppSettings.LinuxRemoteBuildIdempotent | src/commands/deploy/verifyAppSettings.ts:143-182 | a second call changes nothing and reports no change |
| VerifyAppSettings.RemoteBuildOnDedicatedPlan | src/commands/deploy/verifyAppSettings.ts:148-170 | a remote build on a dedicated plan leaves no run-from value and the four build keys with their required values |
| VerifyAppSettings.EmptyValuesKept | src/commands/deploy/verifyAppSettings.ts:173-178 | without a remote build, a key holding `""` is never deleted |
| VerifyAppSettings.ConsumptionWithoutRemoteBuildIsIdentity | src/commands/deploy/verifyAppSettings.ts:143-182 | a consumption plan without a remote build changes nothing |
| VerifyAppSettings.VersionAndLanguage | src/commands/deploy/verifyAppSettings.ts:94-126 | only the runtime key can change, exactly on a mismatch with an accepted dotnet update; a mismatch without a dotnet update throws with nothing changed |
| VerifyAppSettings.VerifyVersionAndLanguage | src/commands/deploy/verifyAppSettings.ts:94-126 | the dictionary and error become `VersionAndLanguage` of the old dictionary |
| VerifyAppSettings.Reconcile | src/commands/deploy/verifyAppSettings.ts:23-47 | settings are sent back only when no error was thrown, and an incompatible runtime leaves them unchanged |
| VerifyAppSettings.DismissedOverwriteStops | src/commands/deploy/verifyAppSettings.ts:39-77 | with the local-or-remote question dismissed, settings are pushed exactly when nothing was thrown, and past the version check a deployment that pushes nothing ends with `UserCancelled` |
| VerifyAppSettings.VerifyAppSettingsOf | src/commands/deploy/verifyAppSettings.ts:23-47 | nothing happens without a property listing; otherwise the dictionary, push flag and error become `Reconcile` of the old dictionary |
| VerifyAppSettings.NotPushedMeansUnchanged | src/commands/deploy/verifyAppSettings.ts:30-45 | settings not sent back, with no error, are exactly as listed |
| VerifyAppSettings.EmulatorNeverPushed | src/commands/deploy/verifyAppSettings.ts:63-64 | with an emulator storage string the remote storage connection keeps its value through the whole reconciliation |
| VerifyAppSettings.RuntimeChangeSkipsRest | src/commands/deploy/verifyAppSettings.ts:31-39 | on Windows a rewritten runtime is pushed and the `\|\|=` chain skips everything else |
| VerifyAppSettings.OnlyKnownKeysChange | src/commands/deploy/verifyAppSettings.ts:23-47 | only the runtime, run-from-package, six build keys and two connection keys can change |

## Left out

- The wizard engine. Step ordering by priority, running `shouldPrompt` and
  `shouldExecute`, masking and going back are the Azure library's. Steps are
  values in wizard options, and priorities are stated but never sorted.
- Azure SDK calls. Listing, creation, name-availability checks and fetching
  connection strings become parameters: functions or given values that the
  contracts hold for.
- Library wizard steps: subscription list, resource group, location and
  storage account list. These are plain step names. `LocationListStep.addStep`
  is the `addsLocation` parameter. `hasLocation` stands for a set location.
- File I/O is the `folders` and `localConnection` parameters and the
  `ProjectDocuments` object. Missing or unreadable files are modelled as
  undefined documents. Write and parse failures are not modelled, since writes
  are assumed to succeed.
- `local.settings.json` has two views: `LocalSettings` for `setLocalAppSetting`
  and `ProjectDocuments` for the create step's edit. Their agreement is not
  modelled.
- XML parsing of the `.csproj` is not modelled. The model takes the list of
  package reference names that `ItemGroup[0]` yields under xml2js's
  `explicitArray: false`. With that option a single `ItemGroup` or a single
  `PackageReference` is an object rather than an array. A project with one
  item group, or whose first item group has one package reference, therefore
  never reads as durable. A project with no item group fails the lookup, which
  also reads as not durable. The model takes these layouts as an empty or
  undefined list and does not derive them from the XML.
- UI cancellation. Every dialog answer is a parameter. `UserCancelledError` is
  modelled only in the deployment's three modals: the runtime update, the
  version mismatch and the local-or-remote question. Dismissing one of them
  stops the deployment. Cancelling the wizard prompts is not modelled.
- Telemetry, output-channel logging, `console.log` and two delays: none
  changes the modelled state. The delays are the awaited one-second delay in
  `EventHubsNamespaceNameStep.validateInput`, between the character check and
  the availability check, and the un-awaited two-second delay at the same
  point of `EventHubNameStep.validateInput`.
  The telemetry of the connection prompts is the one exception and is a map in
  the context.
- The create step's remembered last-used template (`globalState`), opening the
  new file, and the extension bundle check that runs after storage is
  configured. These are UI and project operations outside this model. The
  bundle check is recorded as a phase only.
- `FunctionCreation.ConfigureDurableDocuments`: JSON that is an array or a
  primitive where an object is expected does not arise here, and a non-object
  `Values` is read as `{}`.
- The script step's `editFunctionJson` hook for subclasses is not modelled.
  The trigger binding is an alias into the template in the source and is filled
  in place; the model builds a new function.json instead and does not capture
  the template itself changing.
- The DotnetCreation.DotnetFunctionCreateStep.ExecuteCore template command is
  recorded but its failure is not modelled. `validateDotnetInstalled`, the
  command runner, `wrapArgInQuotes` (the `quote` parameter),
  `getFileExtension`, `getProjectTemplateKey` (the `providerKey` parameter)
  and function.json's file name are parameters.
- Helpers from modules outside this model are parameters of the functions that
  use them: `validateUtils`, `isKnownWorkerRuntime`,
  `promptToUpdateDotnetRuntime` and `tryParseFuncVersion`. So are the constants
  module's emulator connection strings, the worker-runtime, extension-version
  and run-from-package keys, and the event-hubs key of the local-settings
  module (`HostConstants`).
- The constants module itself is not part of this model, and `Base` fixes some
  of its values by assumption. The `ConnectionKey` values are taken to be
  "AzureWebJobsStorage", "EventHubsConnection" and "SQLDB_Connection"
  (`StorageConnectionKey`, `EventHubConnectionKey`, `SqlConnectionKey`). The
  `DurableBackend` values Netherite and SQL are taken to be "Netherite" and
  "mssql" (`BackendTypeName`). These are the literals that
  `FunctionCreateStepBase.ts` writes into host.json and local.settings.json
  (lines 93-106). The Storage value is assumed to differ from both.
  `FunctionCreation.FragmentsAreDefaults`,
  `FunctionCreation.ConfiguredBackendReadsBack` and the round trips through
  `DurableUtils.HostStorageType` rely on this identification. If the constants
  differed from those literals, they would not hold.
- `commands/appSettings/EventHubsNamespaceListStep.ts` and the step files this
  code references but that are not part of this model: the SQL server list,
  the Netherite namespace create step and `EventHubNamespaceCreateStep`. They
  appear as step names only.
- Wizard.PriorityOrder leaves out the empty `EventHubsConnection` placeholder
  that the function create step writes for Netherite
  (`FunctionCreateStepBase.ts`, line 99). The event-hubs connection step has
  priority 210, below the create step's 220. In a wizard that ran both, the
  placeholder would replace the connection just written. Which wizards combine
  the two steps is decided outside this model.
- Text.Lower covers only ASCII case. JavaScript's `toLowerCase` also maps the
  letters of the rest of Unicode.
- FunctionCreation.FunctionWizardContext.SetBindingSetting keeps binding keys
  in their own map. In the source they share the context object with its other
  properties, so a binding named like a context field would overwrite it.
