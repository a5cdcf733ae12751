/** The vocabulary the connection and durable-storage wizard steps share: the
    steps themselves (as values a sub-wizard hands to the wizard engine), the
    options object a sub-wizard returns, execute-step priorities, and the
    wizard context the steps read and update in place. */
module Wizard {
  import opened Base

  /** IConnectionPromptOptions. */
  datatype ConnectionPromptOptions = ConnectionPromptOptions(
    preSelectedConnectionType: Maybe<ConnectionType>,
    suppressSkipForNow: Maybe<bool>)

  /** `this._options?.preSelectedConnectionType`, the type a connection prompt
      records without showing a dialog. */
  function PreSelected(options: Maybe<ConnectionPromptOptions>): Maybe<ConnectionType> {
    if options.Defined? then options.value.preSelectedConnectionType else Undefined
  }

  /** `!this._options?.suppressSkipForNow`: the dialog offers "skip for now". */
  predicate OffersSkip(options: Maybe<ConnectionPromptOptions>) {
    !(options.Defined? && options.value.suppressSkipForNow == Defined(true))
  }

  /** The prompt steps a wizard can be handed. Steps from the Azure library
      and steps whose classes are not part of this model are plain names. */
  datatype PromptStep =
    | SubscriptionList                 // the account tree's subscription step
    | StorageAccountList               // StorageAccountListStep (Azure library)
    | ResourceGroupList                // ResourceGroupListStep (Azure library)
    | LocationList                     // LocationListStep (Azure library)
    | SqlServerList                    // durableSteps/sql/SqlServerListStep
    | AzureWebJobsStoragePrompt(storageOptions: Maybe<ConnectionPromptOptions>)
    | EventHubsConnectionPrompt(eventHubOptions: Maybe<ConnectionPromptOptions>)
    | SqlDatabaseConnectionPrompt(sqlOptions: Maybe<ConnectionPromptOptions>)
    | SqlDatabaseConnectionCustomPrompt
    | SqlDatabaseList
    | SqlDatabaseName
    | SqlServerName
    | SqlServerUsernameAuth
    | SqlServerPasswordAuth
    | EventHubsList                    // durableSteps/EventHubsListStep
    | EventHubsNamespaceList           // durableSteps/EventHubsNamespaceListStep
    | EventHubNamespaceName            // durableSteps/EventHubNamespaceNameStep
    | EventHubsNamespaceName           // durableSteps/EventHubsNamespaceNameStep
    | EventHubName                     // durableSteps/EventHubNameStep
    | EventHubPartitions               // durableSteps/EventHubPartitionsStep
    | NetheriteNamespaceList           // durableSteps/netherite/EventHubsNamespaceListStep
    | NetheriteNamespaceName           // durableSteps/netherite/EventHubsNamespaceNameStep
    | NetheriteHubName                 // durableSteps/netherite/EventHubNameStep
    | NetheriteEventHubName            // durableSteps/netherite/NetheriteEventHubNameStep
    | NetheritePartitions              // durableSteps/netherite/EventHubPartitionsStep
    | NetheriteEventHubPartitions      // NetheriteEventHubPartitionsStep, as durableUtils imports it

  /** The execute steps a wizard can be handed. */
  datatype ExecuteStep =
    | EventHubsNamespaceCreate         // durableSteps/EventHubsNamespaceCreateStep
    | EventHubNamespaceCreate          // durableSteps/EventHubNamespaceCreateStep
    | NetheriteNamespaceCreate         // durableSteps/netherite/EventHubsNamespaceCreateStep
    | EventHubsConnectionExecute(eventHubForDeploy: Maybe<bool>)
    | SqlDatabaseConnectionExecute(sqlForDeploy: Maybe<bool>)
    | AzureWebJobsStorageExecute
    | SqlDatabaseCreate
    | NetheriteConfigureHost
    | FunctionCreate                   // a FunctionCreateStepBase subclass

  /** IWizardOptions: the steps a sub-wizard adds. A sub-wizard that names no
      execute steps leaves `executeSteps` undefined. */
  datatype WizardOptions = WizardOptions(promptSteps: seq<PromptStep>, executeSteps: Maybe<seq<ExecuteStep>>)

  /** The `priority` field of the execute steps whose classes are part of
      this model; the wizard engine runs lower priorities first. */
  function Priority(step: ExecuteStep): (r: Maybe<int>)
    ensures r.Defined? <==> !(step.EventHubNamespaceCreate? || step.NetheriteNamespaceCreate?)
  {
    match step
    case EventHubsNamespaceCreate => Defined(200)
    case EventHubsConnectionExecute(_) => Defined(210)
    case SqlDatabaseCreate => Defined(210)
    case FunctionCreate => Defined(220)
    case AzureWebJobsStorageExecute => Defined(230)
    case SqlDatabaseConnectionExecute(_) => Defined(240)
    case NetheriteConfigureHost => Defined(250)
    case EventHubNamespaceCreate => Undefined
    case NetheriteNamespaceCreate => Undefined
  }

  /** What an execute step leaves for later steps: an Azure resource it
      creates, or a part of the project it writes that a later step reads or
      replaces. */
  datatype Artifact =
    | EventHubsNamespaceResource   // `context.eventHubsNamespace`
    | SqlDatabaseResource          // `context.sqlDatabase`
    | DurableHostConfig            // host.json's `extensions.durableTask`
    | SqlConnectionSetting         // local.settings.json's `SQLDB_Connection`

  /** The artifacts a step produces: the two create steps their resources;
      the function create step host.json's durable section and, for SQL, the
      empty `SQLDB_Connection` placeholder. */
  function Produces(step: ExecuteStep): set<Artifact> {
    match step
    case EventHubsNamespaceCreate => {EventHubsNamespaceResource}
    case SqlDatabaseCreate => {SqlDatabaseResource}
    case FunctionCreate => {DurableHostConfig, SqlConnectionSetting}
    case _ => {}
  }

  /** The artifacts a step needs already in place: the event-hubs connection
      step reads the namespace; the SQL connection step reads the database
      and replaces the placeholder; the Netherite host step reads the
      namespace and replaces the durable section. */
  function Consumes(step: ExecuteStep): set<Artifact> {
    match step
    case EventHubsConnectionExecute(_) => {EventHubsNamespaceResource}
    case SqlDatabaseConnectionExecute(_) => {SqlDatabaseResource, SqlConnectionSetting}
    case NetheriteConfigureHost => {EventHubsNamespaceResource, DurableHostConfig}
    case _ => {}
  }

  /** The priorities run every producer before each step that consumes what
      it produces. */
  lemma PriorityOrder(producer: ExecuteStep, consumer: ExecuteStep)
    requires Priority(producer).Defined? && Priority(consumer).Defined?
    requires Produces(producer) * Consumes(consumer) != {}
    ensures Priority(producer).value < Priority(consumer).value
  {
  }

  /** `LocationListStep.addStep(context, promptSteps)`. Whether the library
      appends the location step depends on state it keeps itself, so it is a
      parameter here. */
  function AddLocationStep(steps: seq<PromptStep>, addsLocation: bool): (r: seq<PromptStep>)
    ensures addsLocation <==> |r| == |steps| + 1
    ensures |steps| <= |r| && r[..|steps|] == steps
    ensures addsLocation ==> r[|steps|] == LocationList
  {
    if addsLocation then steps + [LocationList] else steps
  }

  /** The subscription step the account tree offers, if any, followed by the
      given step: the shape of every connection prompt's Azure sub-wizard. */
  function SubscriptionThen(subscriptionStep: bool, step: PromptStep): (r: seq<PromptStep>)
    ensures |r| == if subscriptionStep then 2 else 1
    ensures r[|r| - 1] == step
    ensures subscriptionStep ==> r[0] == SubscriptionList
  {
    (if subscriptionStep then [SubscriptionList] else []) + [step]
  }

  /** The pick entry for one listed resource: its id, its name as the label,
      an empty description, and the resource as the data. */
  function ResourcePick(res: Resource): QuickPick<Maybe<Resource>> {
    QuickPick(res.id, res.name, Defined(""), Defined(res))
  }

  /** The loop shared by the list steps' `getQuickPicks`: a "create new"
      entry with no data, then one entry per listed resource in listing
      order. */
  method NewOrExistingPicks(createNewLabel: string, resources: seq<Resource>)
    returns (picks: seq<QuickPick<Maybe<Resource>>>)
    ensures |picks| == |resources| + 1
    ensures picks[0] == QuickPick(Undefined, Defined(createNewLabel), Defined(""), Undefined)
    ensures forall i :: 0 <= i < |resources| ==> picks[i + 1] == ResourcePick(resources[i])
    ensures forall i :: 1 <= i < |picks| ==> picks[i].data == Defined(resources[i - 1])
  {
    picks := [QuickPick(Undefined, Defined(createNewLabel), Defined(""), Undefined)];
    for i := 0 to |resources|
      invariant |picks| == i + 1
      invariant picks[0] == QuickPick(Undefined, Defined(createNewLabel), Defined(""), Undefined)
      invariant forall j :: 0 <= j < i ==> picks[j + 1] == ResourcePick(resources[j])
    {
      picks := picks + [ResourcePick(resources[i])];
    }
  }

  /** The state of a connection wizard context at one moment. */
  datatype ContextState = ContextState(
    projectPath: string,
    azureWebJobsStorageType: Maybe<ConnectionType>,
    eventHubConnectionType: Maybe<ConnectionType>,
    sqlDbConnectionType: Maybe<ConnectionType>,
    telemetry: map<string, ConnectionType>,
    eventHubsNamespace: Maybe<Resource>,
    newEventHubNamespaceName: Maybe<string>,
    newEventHubsNamespaceName: Maybe<string>,
    newEventHubName: Maybe<string>,
    partitionCount: Maybe<int>,
    resourceGroup: Maybe<Resource>,
    location: Maybe<string>,
    sqlServer: Maybe<Resource>,
    sqlDatabase: Maybe<Resource>,
    newSqlDatabaseName: Maybe<string>,
    newSqlServerName: Maybe<string>,
    newSqlAdminUsername: Maybe<string>,
    newSqlAdminPassword: Maybe<string>,
    nonAzureSqlConnection: Maybe<string>,
    eventHubConnectionForDeploy: Maybe<string>,
    sqlDbConnectionForDeploy: Maybe<string>,
    valuesToMask: seq<string>)

  /** The wizard context of the connection steps: the fields of
      IAzureWebJobsStorageWizardContext, IEventHubsConnectionWizardContext
      and ISqlDatabaseConnectionWizardContext, with the resource-group and
      location fields of the Azure library's contexts. Steps update it in
      place. */
  class ConnectionContext {
    var projectPath: string
    var azureWebJobsStorageType: Maybe<ConnectionType>
    var eventHubConnectionType: Maybe<ConnectionType>
    var sqlDbConnectionType: Maybe<ConnectionType>
    /** The connection-type entries of `telemetry.properties`. */
    var telemetry: map<string, ConnectionType>
    var eventHubsNamespace: Maybe<Resource>
    var newEventHubNamespaceName: Maybe<string>
    var newEventHubsNamespaceName: Maybe<string>
    var newEventHubName: Maybe<string>
    var partitionCount: Maybe<int>
    var resourceGroup: Maybe<Resource>
    /** The chosen location; `LocationListStep.hasLocation` holds when it is set. */
    var location: Maybe<string>
    var sqlServer: Maybe<Resource>
    var sqlDatabase: Maybe<Resource>
    var newSqlDatabaseName: Maybe<string>
    var newSqlServerName: Maybe<string>
    var newSqlAdminUsername: Maybe<string>
    var newSqlAdminPassword: Maybe<string>
    var nonAzureSqlConnection: Maybe<string>
    var eventHubConnectionForDeploy: Maybe<string>
    var sqlDbConnectionForDeploy: Maybe<string>
    var valuesToMask: seq<string>

    constructor (projectPath: string)
      ensures State() == ContextState(projectPath, Undefined, Undefined, Undefined, map[], Undefined, Undefined,
        Undefined, Undefined, Undefined, Undefined, Undefined, Undefined, Undefined, Undefined, Undefined,
        Undefined, Undefined, Undefined, Undefined, Undefined, [])
    {
      this.projectPath := projectPath;
      azureWebJobsStorageType, eventHubConnectionType, sqlDbConnectionType := Undefined, Undefined, Undefined;
      telemetry := map[];
      eventHubsNamespace := Undefined;
      newEventHubNamespaceName, newEventHubsNamespaceName, newEventHubName := Undefined, Undefined, Undefined;
      partitionCount, resourceGroup, location := Undefined, Undefined, Undefined;
      sqlServer, sqlDatabase := Undefined, Undefined;
      newSqlDatabaseName, newSqlServerName, newSqlAdminUsername, newSqlAdminPassword := Undefined, Undefined, Undefined, Undefined;
      nonAzureSqlConnection := Undefined;
      eventHubConnectionForDeploy, sqlDbConnectionForDeploy := Undefined, Undefined;
      valuesToMask := [];
    }

    /** The whole context as a value, so that a step's postcondition can say
        which fields it changed and that the others kept their values. */
    ghost function State(): ContextState
      reads this
    {
      ContextState(projectPath, azureWebJobsStorageType, eventHubConnectionType, sqlDbConnectionType, telemetry,
        eventHubsNamespace, newEventHubNamespaceName, newEventHubsNamespaceName, newEventHubName, partitionCount,
        resourceGroup, location, sqlServer, sqlDatabase, newSqlDatabaseName, newSqlServerName, newSqlAdminUsername,
        newSqlAdminPassword, nonAzureSqlConnection, eventHubConnectionForDeploy, sqlDbConnectionForDeploy, valuesToMask)
    }
  }

  /** local.settings.json's `Values`, as `setLocalAppSetting` with
      `MismatchBehavior.Overwrite` leaves them: the key gets the new value
      whatever it held before. */
  class LocalSettings {
    var values: map<string, string>

    constructor (values: map<string, string>)
      ensures this.values == values
    {
      this.values := values;
    }

    method SetLocalAppSetting(key: string, value: string)
      modifies this
      ensures values == old(values)[key := value]
    {
      values := values[key := value];
    }
  }

  /** The JSON documents of a project folder that execute steps edit in
      place: host.json and local.settings.json. An undefined document is one
      that cannot be read or does not parse. */
  class ProjectDocuments {
    var hostJson: Maybe<Json>
    var localSettingsJson: Maybe<Json>

    constructor (hostJson: Maybe<Json>, localSettingsJson: Maybe<Json>)
      ensures this.hostJson == hostJson && this.localSettingsJson == localSettingsJson
    {
      this.hostJson := hostJson;
      this.localSettingsJson := localSettingsJson;
    }
  }
}
