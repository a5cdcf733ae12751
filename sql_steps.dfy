/** The SQL steps of createFunction/durableSteps/sql: the database list with
    its sub-wizard, the database create step, and the placeholder name and
    credential steps. */
module SqlDatabaseSteps {
  import opened Base
  import opened Wizard

  const NewSqlDatabaseLabel: string := "$(plus) Create new SQL database"

  // ----- SqlDatabaseListStep -----

  /** SqlDatabaseListStep. */
  class SqlDatabaseListStep {
    constructor () {}

    predicate ShouldPrompt(ctx: ConnectionContext)
      reads ctx
    {
      && ctx.sqlDatabase.Undefined?
      && ctx.resourceGroup.Defined?
      && ctx.sqlServer.Defined?
      && ctx.sqlDbConnectionType == Defined(Azure)
    }

    /** `getQuickPicks`: "create new" with no data, then the databases in
        listing order. */
    method GetQuickPicks(databases: seq<Resource>) returns (picks: seq<QuickPick<Maybe<Resource>>>)
      ensures |picks| == |databases| + 1
      ensures picks[0] == QuickPick(Undefined, Defined(NewSqlDatabaseLabel), Defined(""), Undefined)
      ensures forall i :: 0 <= i < |databases| ==> picks[i + 1] == ResourcePick(databases[i])
    {
      picks := NewOrExistingPicks(NewSqlDatabaseLabel, databases);
    }

    /** `prompt`: the resource group and server must have names (or it
        throws before listing); it stores the picked database, or nothing for
        "create new". `databases` is the server's listing. */
    method Prompt(ctx: ConnectionContext, databases: seq<Resource>, choice: nat) returns (r: Outcome<()>)
      requires choice <= |databases|
      modifies ctx
      ensures NameOf(old(ctx.resourceGroup)).Undefined? || NameOf(old(ctx.sqlServer)).Undefined? ==>
        r.Thrown? && ctx.State() == old(ctx.State())
      ensures NameOf(old(ctx.resourceGroup)).Defined? && NameOf(old(ctx.sqlServer)).Defined? ==>
        && r == Ok(())
        && ctx.State() == old(ctx.State()).(sqlDatabase := if choice == 0 then Undefined else Defined(databases[choice - 1]))
      ensures r.Ok? && choice > 0 ==> !ShouldPrompt(ctx)
    {
      if NameOf(ctx.resourceGroup).Undefined? || NameOf(ctx.sqlServer).Undefined? {
        return Thrown(MissingValue("name"));
      }
      var picks := GetQuickPicks(databases);
      ctx.sqlDatabase := picks[choice].data;
      r := Ok(());
    }

    /** `getSubWizard` always hands back step lists: with a database chosen,
        both are empty and its name is masked (a database without a name
        throws); without one, exactly the database-name prompt and the
        database create step. */
    method GetSubWizard(ctx: ConnectionContext) returns (r: Outcome<WizardOptions>)
      modifies ctx
      ensures old(ctx.sqlDatabase).Undefined? ==>
        r == Ok(WizardOptions([SqlDatabaseName], Defined([SqlDatabaseCreate]))) && ctx.State() == old(ctx.State())
      ensures old(ctx.sqlDatabase).Defined? && old(ctx.sqlDatabase).value.name.Undefined? ==>
        r == Thrown(MissingValue("name")) && ctx.State() == old(ctx.State())
      ensures old(ctx.sqlDatabase).Defined? && old(ctx.sqlDatabase).value.name.Defined? ==>
        && r == Ok(WizardOptions([], Defined([])))
        && ctx.State() == old(ctx.State()).(valuesToMask := old(ctx.valuesToMask) + [old(ctx.sqlDatabase).value.name.value])
    {
      var promptSteps: seq<PromptStep> := [];
      var executeSteps: seq<ExecuteStep> := [];
      if ctx.sqlDatabase.Defined? {
        var name := ctx.sqlDatabase.value.name;
        if name.Undefined? {
          return Thrown(MissingValue("name"));
        }
        ctx.valuesToMask := ctx.valuesToMask + [name.value];
      } else {
        promptSteps := promptSteps + [SqlDatabaseName];
        executeSteps := executeSteps + [SqlDatabaseCreate];
        assert promptSteps == [SqlDatabaseName] && executeSteps == [SqlDatabaseCreate];
      }
      r := Ok(WizardOptions(promptSteps, Defined(executeSteps)));
    }
  }

  // ----- SqlDatabaseCreateStep -----

  /** The `sku` of the database parameters. */
  datatype Sku = Sku(name: string, tier: string, family: string, capacity: int)

  /** The `Database` parameters the create call sends. */
  datatype DatabaseParams = DatabaseParams(sku: Sku, location: string)

  /** One `databases.beginCreateOrUpdateAndWait` call. */
  datatype CreateDatabaseRequest = CreateDatabaseRequest(
    resourceGroupName: string, serverName: string, databaseName: string, parameters: DatabaseParams)

  /** The fixed serverless sku. */
  function ServerlessSku(): (r: Sku)
    ensures r.name == "GP_S_Gen5" && r.tier == "GeneralPurpose" && r.family == "Gen5" && r.capacity == 1
  {
    Sku("GP_S_Gen5", "GeneralPurpose", "Gen5", 1)
  }

  /** SqlDatabaseCreateStep. */
  class SqlDatabaseCreateStep {
    constructor () {}

    /** `LocationListStep.hasLocation` stands for a set location. */
    predicate ShouldExecute(ctx: ConnectionContext)
      reads ctx
    {
      && ctx.resourceGroup.Defined?
      && Truthy(ctx.newSqlDatabaseName)
      && ctx.location.Defined?
      && ctx.sqlDbConnectionType == Defined(Azure)
    }

    /** `execute`: the resource-group name, the server name and the new
        database name must be set (`nonNullValue` throws otherwise, in that
        order), and so must the location; the request carries the fixed sku
        and the chosen location, and the created database is stored in the
        context. `create` is the cloud call. */
    method Execute(ctx: ConnectionContext, create: CreateDatabaseRequest -> Resource)
      returns (r: Outcome<CreateDatabaseRequest>)
      modifies ctx
      ensures r.Thrown? <==>
        NameOf(old(ctx.resourceGroup)).Undefined? || NameOf(old(ctx.sqlServer)).Undefined?
        || old(ctx.newSqlDatabaseName).Undefined? || old(ctx.location).Undefined?
      ensures r.Thrown? ==> ctx.State() == old(ctx.State())
      ensures r.Ok? ==>
        && r.value == CreateDatabaseRequest(
             NameOf(old(ctx.resourceGroup)).value, NameOf(old(ctx.sqlServer)).value, old(ctx.newSqlDatabaseName).value,
             DatabaseParams(ServerlessSku(), old(ctx.location).value))
        && ctx.State() == old(ctx.State()).(sqlDatabase := Defined(create(r.value)))
    {
      var rgName := NameOf(ctx.resourceGroup);
      if rgName.Undefined? {
        return Thrown(MissingValue("resourceGroup.name"));
      }
      var serverName := NameOf(ctx.sqlServer);
      if serverName.Undefined? {
        return Thrown(MissingValue("sqlServer.name"));
      }
      var newDatabaseName := ctx.newSqlDatabaseName;
      if newDatabaseName.Undefined? {
        return Thrown(MissingValue("newSqlDatabaseName"));
      }
      if ctx.location.Undefined? {
        return Thrown(MissingValue("location"));
      }
      var dbParams := DatabaseParams(ServerlessSku(), ctx.location.value);
      var request := CreateDatabaseRequest(rgName.value, serverName.value, newDatabaseName.value, dbParams);
      ctx.sqlDatabase := Defined(create(request));
      r := Ok(request);
    }
  }

  // ----- placeholder steps -----

  /** SqlDatabaseNameStep: a fixed name; never prompts for a type other
      than Azure. */
  class SqlDatabaseNameStep {
    constructor () {}

    predicate ShouldPrompt(ctx: ConnectionContext)
      reads ctx
    {
      !Truthy(ctx.newSqlDatabaseName) && ctx.sqlDbConnectionType == Defined(Azure)
    }

    method Prompt(ctx: ConnectionContext)
      modifies ctx
      ensures ctx.State() == old(ctx.State()).(newSqlDatabaseName := Defined("mynewsqldatabasename"))
      ensures !ShouldPrompt(ctx)
    {
      ctx.newSqlDatabaseName := Defined("mynewsqldatabasename");
    }
  }

  /** SqlServerNameStep: a fixed name; prompts for every type but Skip. */
  class SqlServerNameStep {
    constructor () {}

    predicate ShouldPrompt(ctx: ConnectionContext)
      reads ctx
    {
      !Truthy(ctx.newSqlServerName) && ctx.sqlDbConnectionType != Defined(Skip)
    }

    method Prompt(ctx: ConnectionContext)
      modifies ctx
      ensures ctx.State() == old(ctx.State()).(newSqlServerName := Defined("mynewsqlservername"))
      ensures !ShouldPrompt(ctx)
    {
      ctx.newSqlServerName := Defined("mynewsqlservername");
    }
  }

  /** SqlServerUsernameAuthStep: a fixed administrator name. */
  class SqlServerUsernameAuthStep {
    constructor () {}

    predicate ShouldPrompt(ctx: ConnectionContext)
      reads ctx
    {
      !Truthy(ctx.newSqlAdminUsername)
    }

    method Prompt(ctx: ConnectionContext)
      modifies ctx
      ensures ctx.State() == old(ctx.State()).(newSqlAdminUsername := Defined("myfakeadmin"))
      ensures !ShouldPrompt(ctx)
    {
      ctx.newSqlAdminUsername := Defined("myfakeadmin");
    }
  }

  /** SqlServerPasswordAuthStep: a fixed administrator password. */
  class SqlServerPasswordAuthStep {
    constructor () {}

    predicate ShouldPrompt(ctx: ConnectionContext)
      reads ctx
    {
      !Truthy(ctx.newSqlAdminPassword)
    }

    method Prompt(ctx: ConnectionContext)
      modifies ctx
      ensures ctx.State() == old(ctx.State()).(newSqlAdminPassword := Defined("Abcd!234"))
      ensures !ShouldPrompt(ctx)
    {
      ctx.newSqlAdminPassword := Defined("Abcd!234");
    }
  }
}
