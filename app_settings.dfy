/** The connection steps of the app-settings commands: the three dialogs that
    choose how storage, the event-hubs namespace and the SQL database are
    connected, the custom SQL connection prompt, and the three execute steps
    that write the resulting connection strings. */
module AppSettings {
  import opened Base
  import opened Wizard

  /** The buttons of the connection dialogs. */
  datatype Button =
    | SelectStorageAccount
    | ConnectEventHubsNamespace
    | ConnectAzureDatabase
    | ConnectNonAzureDatabase
    | UseEmulator
    | SkipForNow

  /** The connection type a dialog answer records: the first button means
      Azure, the second NonAzure, and every other answer None. The dialogs
      never record Emulator or Skip. */
  function AnswerType(first: Button, second: Button, answer: Button): (r: ConnectionType)
    requires first != second
    ensures r == Azure <==> answer == first
    ensures r == NonAzure <==> answer == second
    ensures r == None <==> answer != first && answer != second
    ensures r != Emulator && r != Skip
  {
    if answer == first then Azure
    else if answer == second then NonAzure
    else None
  }

  /** The buttons a storage or event-hubs dialog shows: the primary button,
      the emulator button only on Windows, then "skip for now" unless the
      options suppress it. */
  function ButtonsWithEmulator(primary: Button, isWin32: bool, options: Maybe<ConnectionPromptOptions>): (r: seq<Button>)
    ensures |r| >= 1 && r[0] == primary
    ensures |r| == 1 + (if isWin32 then 1 else 0) + (if OffersSkip(options) then 1 else 0)
    ensures UseEmulator in r <==> isWin32 || primary == UseEmulator
    ensures isWin32 ==> r[1] == UseEmulator
    ensures SkipForNow in r <==> OffersSkip(options) || primary == SkipForNow
    ensures OffersSkip(options) ==> r[|r| - 1] == SkipForNow
  {
    [primary] + (if isWin32 then [UseEmulator] else []) + (if OffersSkip(options) then [SkipForNow] else [])
  }

  /** The storage or event-hubs dialog: the buttons it shows, and the type
      the given answer records. */
  method EmulatorDialog(primary: Button, isWin32: bool, options: Maybe<ConnectionPromptOptions>, answer: Button)
    returns (buttons: seq<Button>, t: ConnectionType)
    requires primary != UseEmulator
    ensures buttons == ButtonsWithEmulator(primary, isWin32, options)
    ensures t == AnswerType(primary, UseEmulator, answer)
  {
    buttons := [primary];
    if isWin32 {
      buttons := buttons + [UseEmulator];
    }
    if OffersSkip(options) {
      buttons := buttons + [SkipForNow];
    }
    t := AnswerType(primary, UseEmulator, answer);
  }

  /** The buttons of the SQL dialog: Azure, non-Azure, then "skip for now"
      unless suppressed. There is no emulator button and no platform test. */
  function SqlButtons(options: Maybe<ConnectionPromptOptions>): (r: seq<Button>)
    ensures |r| >= 2 && r[0] == ConnectAzureDatabase && r[1] == ConnectNonAzureDatabase
    ensures UseEmulator !in r
    ensures |r| == 2 + (if OffersSkip(options) then 1 else 0)
    ensures SkipForNow in r <==> OffersSkip(options)
  {
    [ConnectAzureDatabase, ConnectNonAzureDatabase] + (if OffersSkip(options) then [SkipForNow] else [])
  }

  /** The type `AzureWebJobsStoragePromptStep.shouldPrompt` leaves in
      `azureWebJobsStorageType`: a set event-hub type, otherwise a set SQL
      type, overwrites it. */
  function InheritedStorageType(s: ContextState): (r: Maybe<ConnectionType>)
    ensures s.eventHubConnectionType.Defined? ==> r == s.eventHubConnectionType
    ensures s.eventHubConnectionType.Undefined? && s.sqlDbConnectionType.Defined? ==> r == s.sqlDbConnectionType
    ensures r.Undefined? <==>
      s.eventHubConnectionType.Undefined? && s.sqlDbConnectionType.Undefined? && s.azureWebJobsStorageType.Undefined?
  {
    if s.eventHubConnectionType.Defined? then s.eventHubConnectionType
    else if s.sqlDbConnectionType.Defined? then s.sqlDbConnectionType
    else s.azureWebJobsStorageType
  }

  /** The type the event-hubs and SQL prompts' `shouldPrompt` leaves in their
      own field: a set storage type overwrites it. */
  function InheritFromStorage(s: ContextState, own: Maybe<ConnectionType>): (r: Maybe<ConnectionType>)
    ensures s.azureWebJobsStorageType.Defined? ==> r == s.azureWebJobsStorageType
    ensures r.Undefined? <==> s.azureWebJobsStorageType.Undefined? && own.Undefined?
  {
    if s.azureWebJobsStorageType.Defined? then s.azureWebJobsStorageType else own
  }

  /** AzureWebJobsStoragePromptStep. */
  class AzureWebJobsStoragePromptStep {
    const options: Maybe<ConnectionPromptOptions>

    constructor (options: Maybe<ConnectionPromptOptions>)
      ensures this.options == options
    {
      this.options := options;
    }

    /** Records the preselected type without a dialog, or the type of the
        answered button, in the context and in telemetry. */
    method Prompt(ctx: ConnectionContext, isWin32: bool, answer: Button)
      requires PreSelected(options).Undefined? ==> answer in ButtonsWithEmulator(SelectStorageAccount, isWin32, options)
      modifies ctx
      ensures var t := if PreSelected(options).Defined? then PreSelected(options).value
                       else AnswerType(SelectStorageAccount, UseEmulator, answer);
        ctx.State() == old(ctx.State()).(azureWebJobsStorageType := Defined(t),
                                         telemetry := old(ctx.telemetry)["azureWebJobsStorageType" := t])
      ensures PreSelected(options).Undefined? && ctx.azureWebJobsStorageType == Defined(NonAzure) ==> isWin32
      ensures InheritedStorageType(ctx.State()).Defined?
    {
      var t;
      if PreSelected(options).Defined? {
        t := PreSelected(options).value;
      } else {
        var buttons;
        buttons, t := EmulatorDialog(SelectStorageAccount, isWin32, options, answer);
      }
      ctx.azureWebJobsStorageType := Defined(t);
      ctx.telemetry := ctx.telemetry["azureWebJobsStorageType" := t];
    }

    /** Inherits the event-hub or SQL type, then asks whether the storage type
        is still unset. */
    method ShouldPrompt(ctx: ConnectionContext) returns (r: bool)
      modifies ctx
      ensures ctx.State() == old(ctx.State()).(azureWebJobsStorageType := InheritedStorageType(old(ctx.State())))
      ensures r <==> ctx.azureWebJobsStorageType.Undefined?
    {
      if ctx.eventHubConnectionType.Defined? {
        ctx.azureWebJobsStorageType := ctx.eventHubConnectionType;
      } else if ctx.sqlDbConnectionType.Defined? {
        ctx.azureWebJobsStorageType := ctx.sqlDbConnectionType;
      }
      r := ctx.azureWebJobsStorageType.Undefined?;
    }

    /** For Azure only: the subscription step, if the account tree offers one,
        then the storage-account list, and no execute steps. */
    method GetSubWizard(ctx: ConnectionContext, subscriptionStep: bool) returns (r: Maybe<WizardOptions>)
      ensures r.Defined? <==> ctx.azureWebJobsStorageType == Defined(Azure)
      ensures r.Defined? ==> r.value == WizardOptions(SubscriptionThen(subscriptionStep, StorageAccountList), Undefined)
    {
      if ctx.azureWebJobsStorageType == Defined(Azure) {
        var promptSteps: seq<PromptStep> := [];
        if subscriptionStep {
          promptSteps := promptSteps + [SubscriptionList];
        }
        promptSteps := promptSteps + [StorageAccountList];
        r := Defined(WizardOptions(promptSteps, Undefined));
      } else {
        r := Undefined;
      }
    }
  }

  /** EventHubsConnectionPromptStep. */
  class EventHubsConnectionPromptStep {
    const options: Maybe<ConnectionPromptOptions>

    constructor (options: Maybe<ConnectionPromptOptions>)
      ensures this.options == options
    {
      this.options := options;
    }

    /** Records the preselected type without a dialog, or the type of the
        answered button, in the context and in telemetry. */
    method Prompt(ctx: ConnectionContext, isWin32: bool, answer: Button)
      requires PreSelected(options).Undefined? ==> answer in ButtonsWithEmulator(ConnectEventHubsNamespace, isWin32, options)
      modifies ctx
      ensures var t := if PreSelected(options).Defined? then PreSelected(options).value
                       else AnswerType(ConnectEventHubsNamespace, UseEmulator, answer);
        ctx.State() == old(ctx.State()).(eventHubConnectionType := Defined(t),
                                         telemetry := old(ctx.telemetry)["eventHubConnectionType" := t])
      ensures PreSelected(options).Undefined? && ctx.eventHubConnectionType == Defined(NonAzure) ==> isWin32
      ensures InheritFromStorage(ctx.State(), ctx.eventHubConnectionType).Defined?
    {
      var t;
      if PreSelected(options).Defined? {
        t := PreSelected(options).value;
      } else {
        var buttons;
        buttons, t := EmulatorDialog(ConnectEventHubsNamespace, isWin32, options, answer);
      }
      ctx.eventHubConnectionType := Defined(t);
      ctx.telemetry := ctx.telemetry["eventHubConnectionType" := t];
    }

    /** Inherits a set storage type, then asks whether the event-hub type is
        still unset. */
    method ShouldPrompt(ctx: ConnectionContext) returns (r: bool)
      modifies ctx
      ensures ctx.State() == old(ctx.State()).(eventHubConnectionType :=
        InheritFromStorage(old(ctx.State()), old(ctx.eventHubConnectionType)))
      ensures r <==> ctx.eventHubConnectionType.Undefined?
    {
      if ctx.azureWebJobsStorageType.Defined? {
        ctx.eventHubConnectionType := ctx.azureWebJobsStorageType;
      }
      r := ctx.eventHubConnectionType.Undefined?;
    }

    /** For Azure only: the subscription step, if offered, then the Netherite
        namespace list. */
    method GetSubWizard(ctx: ConnectionContext, subscriptionStep: bool) returns (r: Maybe<WizardOptions>)
      ensures r.Defined? <==> ctx.eventHubConnectionType == Defined(Azure)
      ensures r.Defined? ==> r.value == WizardOptions(SubscriptionThen(subscriptionStep, NetheriteNamespaceList), Undefined)
    {
      if ctx.eventHubConnectionType == Defined(Azure) {
        var promptSteps: seq<PromptStep> := [];
        if subscriptionStep {
          promptSteps := promptSteps + [SubscriptionList];
        }
        promptSteps := promptSteps + [NetheriteNamespaceList];
        r := Defined(WizardOptions(promptSteps, Undefined));
      } else {
        r := Undefined;
      }
    }
  }

  /** SqlDatabaseConnectionPromptStep. */
  class SqlDatabaseConnectionPromptStep {
    const options: Maybe<ConnectionPromptOptions>

    constructor (options: Maybe<ConnectionPromptOptions>)
      ensures this.options == options
    {
      this.options := options;
    }

    /** Records the preselected type without a dialog, or the type of the
        answered button, in the context and in telemetry. */
    method Prompt(ctx: ConnectionContext, answer: Button)
      requires PreSelected(options).Undefined? ==> answer in SqlButtons(options)
      modifies ctx
      ensures var t := if PreSelected(options).Defined? then PreSelected(options).value
                       else AnswerType(ConnectAzureDatabase, ConnectNonAzureDatabase, answer);
        ctx.State() == old(ctx.State()).(sqlDbConnectionType := Defined(t),
                                         telemetry := old(ctx.telemetry)["sqlDbConnectionType" := t])
      ensures InheritFromStorage(ctx.State(), ctx.sqlDbConnectionType).Defined?
    {
      if PreSelected(options).Defined? {
        ctx.sqlDbConnectionType := PreSelected(options);
        ctx.telemetry := ctx.telemetry["sqlDbConnectionType" := PreSelected(options).value];
        return;
      }
      var buttons := [ConnectAzureDatabase, ConnectNonAzureDatabase];
      if OffersSkip(options) {
        buttons := buttons + [SkipForNow];
      }
      assert buttons == SqlButtons(options);
      var t := AnswerType(ConnectAzureDatabase, ConnectNonAzureDatabase, answer);
      ctx.sqlDbConnectionType := Defined(t);
      ctx.telemetry := ctx.telemetry["sqlDbConnectionType" := t];
    }

    /** Inherits a set storage type, then asks whether the SQL type is still
        unset. */
    method ShouldPrompt(ctx: ConnectionContext) returns (r: bool)
      modifies ctx
      ensures ctx.State() == old(ctx.State()).(sqlDbConnectionType :=
        InheritFromStorage(old(ctx.State()), old(ctx.sqlDbConnectionType)))
      ensures r <==> ctx.sqlDbConnectionType.Undefined?
    {
      if ctx.azureWebJobsStorageType.Defined? {
        ctx.sqlDbConnectionType := ctx.azureWebJobsStorageType;
      }
      r := ctx.sqlDbConnectionType.Undefined?;
    }

    /** None adds nothing; NonAzure adds exactly the custom connection prompt;
        every other type, set or not, adds the subscription step if offered
        and the SQL server list. */
    method GetSubWizard(ctx: ConnectionContext, subscriptionStep: bool) returns (r: Maybe<WizardOptions>)
      ensures r.Undefined? <==> ctx.sqlDbConnectionType == Defined(None)
      ensures ctx.sqlDbConnectionType == Defined(NonAzure) ==>
        r == Defined(WizardOptions([SqlDatabaseConnectionCustomPrompt], Undefined))
      ensures ctx.sqlDbConnectionType != Defined(None) && ctx.sqlDbConnectionType != Defined(NonAzure) ==>
        r == Defined(WizardOptions(SubscriptionThen(subscriptionStep, SqlServerList), Undefined))
    {
      if ctx.sqlDbConnectionType == Defined(None) {
        return Undefined;
      }
      if ctx.sqlDbConnectionType == Defined(NonAzure) {
        return Defined(WizardOptions([SqlDatabaseConnectionCustomPrompt], Undefined));
      }
      var promptSteps: seq<PromptStep> := [];
      if subscriptionStep {
        promptSteps := promptSteps + [SubscriptionList];
      }
      promptSteps := promptSteps + [SqlServerList];
      assert promptSteps == SubscriptionThen(subscriptionStep, SqlServerList);
      r := Defined(WizardOptions(promptSteps, Undefined));
    }
  }

  /** SqlDatabaseConnectionCustomPromptStep. */
  class SqlDatabaseConnectionCustomPromptStep {
    constructor () {}

    predicate ShouldPrompt(ctx: ConnectionContext)
      reads ctx
    {
      !Truthy(ctx.nonAzureSqlConnection) && ctx.sqlDbConnectionType == Defined(NonAzure)
    }

    method Prompt(ctx: ConnectionContext)
      modifies ctx
      ensures ctx.State() == old(ctx.State()).(nonAzureSqlConnection := Defined("fakestring"))
      ensures !ShouldPrompt(ctx)
    {
      ctx.nonAzureSqlConnection := Defined("fakestring");
    }
  }

  /** The value a storage or event-hubs execute step writes: the emulator's
      connection string for the Emulator type, otherwise the connection
      string fetched from Azure. */
  function ConnectionValue(t: Maybe<ConnectionType>, emulatorValue: string, fetched: string): string {
    if t == Defined(Emulator) then emulatorValue else fetched
  }

  /** AzureWebJobsStorageExecuteStep. */
  class AzureWebJobsStorageExecuteStep {
    constructor () {}

    predicate ShouldExecute(ctx: ConnectionContext)
      reads ctx
    {
      ctx.azureWebJobsStorageType.Defined? && ctx.azureWebJobsStorageType != Defined(Skip)
    }

    /** Writes the storage connection string under the storage key,
        overwriting what the local settings held. `fetched` is what
        `getStorageConnectionString` returns. */
    method Execute(ctx: ConnectionContext, settings: LocalSettings, hc: HostConstants, fetched: string)
      modifies settings
      ensures settings.values == old(settings.values)[StorageConnectionKey :=
        ConnectionValue(ctx.azureWebJobsStorageType, hc.localStorageEmulatorConnectionString, fetched)]
    {
      var value: string;
      if ctx.azureWebJobsStorageType == Defined(Emulator) {
        value := hc.localStorageEmulatorConnectionString;
      } else {
        value := fetched;
      }
      settings.SetLocalAppSetting(StorageConnectionKey, value);
    }
  }

  /** EventHubsConnectionExecuteStep. */
  class EventHubsConnectionExecuteStep {
    constructor () {}

    /** Gated on the storage type, not on the event-hub type. */
    predicate ShouldExecute(ctx: ConnectionContext)
      reads ctx
    {
      ctx.azureWebJobsStorageType.Defined?
    }

    /** Writes the event-hubs connection string under the local-settings
        event-hubs key, overwriting what was there. `fetched` is what
        `getEventHubsConnectionString` returns. */
    method Execute(ctx: ConnectionContext, settings: LocalSettings, hc: HostConstants, fetched: string)
      modifies settings
      ensures settings.values == old(settings.values)[hc.eventHubsConnectionKey :=
        ConnectionValue(ctx.eventHubConnectionType, hc.localEventHubEmulatorConnectionString, fetched)]
    {
      var value: string;
      if ctx.eventHubConnectionType == Defined(Emulator) {
        value := hc.localEventHubEmulatorConnectionString;
      } else {
        value := fetched;
      }
      settings.SetLocalAppSetting(hc.eventHubsConnectionKey, value);
    }
  }

  /** SqlDatabaseConnectionExecuteStep. */
  class SqlDatabaseConnectionExecuteStep {
    const setConnectionForDeploy: Maybe<bool>

    constructor (setConnectionForDeploy: Maybe<bool>)
      ensures this.setConnectionForDeploy == setConnectionForDeploy
    {
      this.setConnectionForDeploy := setConnectionForDeploy;
    }

    predicate ShouldExecute(ctx: ConnectionContext)
      reads ctx
    {
      ctx.sqlDbConnectionType.Defined? && ctx.sqlDbConnectionType != Defined(Skip)
    }

    /** In deploy mode the fetched string goes to `sqlDbConnectionForDeploy`
        and the local settings are untouched; otherwise it is written under
        the SQL key and the context is untouched. There is no emulator
        branch. */
    method Execute(ctx: ConnectionContext, settings: LocalSettings, fetched: string)
      modifies ctx, settings
      ensures setConnectionForDeploy == Defined(true) ==>
        ctx.State() == old(ctx.State()).(sqlDbConnectionForDeploy := Defined(fetched))
        && settings.values == old(settings.values)
      ensures setConnectionForDeploy != Defined(true) ==>
        ctx.State() == old(ctx.State())
        && settings.values == old(settings.values)[SqlConnectionKey := fetched]
    {
      if setConnectionForDeploy == Defined(true) {
        ctx.sqlDbConnectionForDeploy := Defined(fetched);
      } else {
        settings.SetLocalAppSetting(SqlConnectionKey, fetched);
      }
    }
  }

  /** A dialog answer alone never selects the emulator, so without a
      preselected type the storage execute step always writes the fetched
      string. Even "skip for now" records None rather than Skip, so the
      storage execute step still runs after it. */
  lemma DialogAnswerFetches(answer: Button, hc: HostConstants, fetched: string)
    ensures ConnectionValue(Defined(AnswerType(SelectStorageAccount, UseEmulator, answer)),
      hc.localStorageEmulatorConnectionString, fetched) == fetched
    ensures AnswerType(SelectStorageAccount, UseEmulator, SkipForNow) == None
  {
  }
}
