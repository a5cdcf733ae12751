/** The event-hub steps of createFunction/durableSteps outside the Netherite
    folder: the list steps with their sub-wizards, and the placeholder name,
    partition and create steps. */
module DurableSteps {
  import opened Base
  import opened Wizard

  const NewEventHubsNamespaceLabel: string := "$(plus) Create new event hub namespace"

  /** The namespace a list step stores for a pick: nothing for "create new",
      otherwise the listed namespace. */
  function PickedNamespace(namespaces: seq<Resource>, choice: nat): (r: Maybe<Resource>)
    requires choice <= |namespaces|
    ensures r.Undefined? <==> choice == 0
    ensures r.Defined? ==> r.value == namespaces[choice - 1]
  {
    if choice == 0 then Undefined else Defined(namespaces[choice - 1])
  }

  /** The `getQuickPicks` loop both list steps run, handing back the data of
      the chosen entry. */
  method PickNamespace(namespaces: seq<Resource>, choice: nat) returns (picked: Maybe<Resource>)
    requires choice <= |namespaces|
    ensures picked == PickedNamespace(namespaces, choice)
  {
    var picks := NewOrExistingPicks(NewEventHubsNamespaceLabel, namespaces);
    picked := picks[choice].data;
  }

  // ----- EventHubsListStep -----

  /** EventHubsListStep. */
  class EventHubsListStep {
    constructor () {}

    /** `shouldPrompt` as written: true when a namespace IS already set, the
        opposite of the other list steps. */
    predicate ShouldPrompt(ctx: ConnectionContext)
      reads ctx
    {
      ctx.eventHubsNamespace.Defined?
    }

    /** The static `isNameAvailable`: false unless the resource group and the
        namespace both have names; otherwise whether `eventHubs.get` found a
        hub of that name. `existing` is that lookup. */
    static function IsNameAvailable(ctx: ConnectionContext, existing: (string, string, string) -> Maybe<Resource>, name: string): (r: bool)
      reads ctx
      ensures !Truthy(NameOf(ctx.resourceGroup)) || !Truthy(NameOf(ctx.eventHubsNamespace)) ==> !r
      ensures Truthy(NameOf(ctx.resourceGroup)) && Truthy(NameOf(ctx.eventHubsNamespace)) ==>
        (r <==> existing(ctx.resourceGroup.value.name.value, ctx.eventHubsNamespace.value.name.value, name).Defined?)
    {
      if !Truthy(NameOf(ctx.resourceGroup)) || !Truthy(NameOf(ctx.eventHubsNamespace)) then false
      else existing(ctx.resourceGroup.value.name.value, ctx.eventHubsNamespace.value.name.value, name).Defined?
    }

    /** `getQuickPicks`: "create new" with no data, then the namespaces in
        listing order. */
    method GetQuickPicks(namespaces: seq<Resource>) returns (picks: seq<QuickPick<Maybe<Resource>>>)
      ensures |picks| == |namespaces| + 1
      ensures picks[0] == QuickPick(Undefined, Defined(NewEventHubsNamespaceLabel), Defined(""), Undefined)
      ensures forall i :: 0 <= i < |namespaces| ==> picks[i + 1] == ResourcePick(namespaces[i])
    {
      picks := NewOrExistingPicks(NewEventHubsNamespaceLabel, namespaces);
    }

    /** `prompt` stores the picked namespace, or nothing for "create new";
        because of the inverted `shouldPrompt`, only a picked namespace
        leaves the step wanting to prompt again. */
    method Prompt(ctx: ConnectionContext, namespaces: seq<Resource>, choice: nat)
      requires choice <= |namespaces|
      modifies ctx
      ensures ctx.State() == old(ctx.State()).(eventHubsNamespace := PickedNamespace(namespaces, choice))
      ensures ShouldPrompt(ctx) <==> choice > 0
    {
      var picked := PickNamespace(namespaces, choice);
      ctx.eventHubsNamespace := picked;
    }

    /** `getSubWizard`: without a namespace, the namespace-name, hub-name,
        resource-group and (when the library adds it) location prompts and
        the namespace create step; with one, its name is masked and there is
        no sub-wizard; a namespace without a name throws. */
    method GetSubWizard(ctx: ConnectionContext, addsLocation: bool) returns (r: Outcome<Maybe<WizardOptions>>)
      modifies ctx
      ensures old(ctx.eventHubsNamespace).Undefined? ==>
        && r == Ok(Defined(WizardOptions(
             AddLocationStep([EventHubNamespaceName, EventHubName, ResourceGroupList], addsLocation),
             Defined([EventHubNamespaceCreate]))))
        && ctx.State() == old(ctx.State())
      ensures old(ctx.eventHubsNamespace).Defined? && old(ctx.eventHubsNamespace).value.name.Undefined? ==>
        r == Thrown(MissingValue("name")) && ctx.State() == old(ctx.State())
      ensures old(ctx.eventHubsNamespace).Defined? && old(ctx.eventHubsNamespace).value.name.Defined? ==>
        && r == Ok(Undefined)
        && ctx.State() == old(ctx.State()).(valuesToMask := old(ctx.valuesToMask) + [old(ctx.eventHubsNamespace).value.name.value])
    {
      if ctx.eventHubsNamespace.Undefined? {
        var promptSteps := [EventHubNamespaceName, EventHubName, ResourceGroupList];
        promptSteps := AddLocationStep(promptSteps, addsLocation);
        return Ok(Defined(WizardOptions(promptSteps, Defined([EventHubNamespaceCreate]))));
      }
      var name := ctx.eventHubsNamespace.value.name;
      if name.Undefined? {
        return Thrown(MissingValue("name"));
      }
      ctx.valuesToMask := ctx.valuesToMask + [name.value];
      r := Ok(Undefined);
    }
  }

  // ----- EventHubsNamespaceListStep -----

  /** EventHubsNamespaceListStep. */
  class EventHubsNamespaceListStep {
    constructor () {}

    predicate ShouldPrompt(ctx: ConnectionContext)
      reads ctx
    {
      ctx.eventHubsNamespace.Undefined?
    }

    /** The static `isNameAvailable`: whether `checkNameAvailability`
        answered `nameAvailable: true`; `nameAvailable` is that answer. */
    static function IsNameAvailable(nameAvailable: string -> Maybe<bool>, name: string): (r: bool)
      ensures r <==> nameAvailable(name) == Defined(true)
    {
      nameAvailable(name).Defined? && nameAvailable(name).value
    }

    /** `getQuickPicks`: "create new" with no data, then the namespaces in
        listing order. */
    method GetQuickPicks(namespaces: seq<Resource>) returns (picks: seq<QuickPick<Maybe<Resource>>>)
      ensures |picks| == |namespaces| + 1
      ensures picks[0] == QuickPick(Undefined, Defined(NewEventHubsNamespaceLabel), Defined(""), Undefined)
      ensures forall i :: 0 <= i < |namespaces| ==> picks[i + 1] == ResourcePick(namespaces[i])
    {
      picks := NewOrExistingPicks(NewEventHubsNamespaceLabel, namespaces);
    }

    /** `prompt` stores the picked namespace, or nothing for "create new";
        once an existing namespace is picked the step does not prompt
        again. */
    method Prompt(ctx: ConnectionContext, namespaces: seq<Resource>, choice: nat)
      requires choice <= |namespaces|
      modifies ctx
      ensures ctx.State() == old(ctx.State()).(eventHubsNamespace := PickedNamespace(namespaces, choice))
      ensures ShouldPrompt(ctx) <==> choice == 0
    {
      var picked := PickNamespace(namespaces, choice);
      ctx.eventHubsNamespace := picked;
    }

    /** `getSubWizard`: without a namespace, the name, resource-group and
        (when the library adds it) location prompts and the namespace create
        step; with one, its name is masked and there is no sub-wizard; a
        namespace without a name throws. */
    method GetSubWizard(ctx: ConnectionContext, addsLocation: bool) returns (r: Outcome<Maybe<WizardOptions>>)
      modifies ctx
      ensures old(ctx.eventHubsNamespace).Undefined? ==>
        && r == Ok(Defined(WizardOptions(
             AddLocationStep([EventHubsNamespaceName, ResourceGroupList], addsLocation),
             Defined([EventHubsNamespaceCreate]))))
        && ctx.State() == old(ctx.State())
      ensures old(ctx.eventHubsNamespace).Defined? && old(ctx.eventHubsNamespace).value.name.Undefined? ==>
        r == Thrown(MissingValue("name")) && ctx.State() == old(ctx.State())
      ensures old(ctx.eventHubsNamespace).Defined? && old(ctx.eventHubsNamespace).value.name.Defined? ==>
        && r == Ok(Undefined)
        && ctx.State() == old(ctx.State()).(valuesToMask := old(ctx.valuesToMask) + [old(ctx.eventHubsNamespace).value.name.value])
    {
      if ctx.eventHubsNamespace.Undefined? {
        var promptSteps := [EventHubsNamespaceName, ResourceGroupList];
        promptSteps := AddLocationStep(promptSteps, addsLocation);
        return Ok(Defined(WizardOptions(promptSteps, Defined([EventHubsNamespaceCreate]))));
      }
      var name := ctx.eventHubsNamespace.value.name;
      if name.Undefined? {
        return Thrown(MissingValue("name"));
      }
      ctx.valuesToMask := ctx.valuesToMask + [name.value];
      r := Ok(Undefined);
    }
  }

  // ----- placeholder steps -----

  /** EventHubNameStep: a fixed hub name. */
  class EventHubNameStep {
    constructor () {}

    predicate ShouldPrompt(ctx: ConnectionContext)
      reads ctx
    {
      !Truthy(ctx.newEventHubName)
    }

    method Prompt(ctx: ConnectionContext)
      modifies ctx
      ensures ctx.State() == old(ctx.State()).(newEventHubName := Defined("gibberishEventHubName"))
      ensures !ShouldPrompt(ctx)
    {
      ctx.newEventHubName := Defined("gibberishEventHubName");
    }
  }

  /** EventHubNamespaceNameStep: a fixed name in `newEventHubNamespaceName`
      (not `newEventHubsNamespaceName`). */
  class EventHubNamespaceNameStep {
    constructor () {}

    /** Never true once a namespace is chosen. */
    predicate ShouldPrompt(ctx: ConnectionContext)
      reads ctx
    {
      ctx.eventHubsNamespace.Undefined? && !Truthy(ctx.newEventHubNamespaceName)
    }

    method Prompt(ctx: ConnectionContext)
      modifies ctx
      ensures ctx.State() == old(ctx.State()).(newEventHubNamespaceName := Defined("gibberishNetheriteNamespace"))
      ensures !ShouldPrompt(ctx)
    {
      ctx.newEventHubNamespaceName := Defined("gibberishNetheriteNamespace");
    }
  }

  /** EventHubPartitionsStep: `prompt` does nothing, so a step that wants to
      prompt still wants to afterwards. */
  class EventHubPartitionsStep {
    constructor () {}

    predicate ShouldPrompt(ctx: ConnectionContext)
      reads ctx
    {
      !TruthyNumber(ctx.partitionCount)
    }

    method Prompt(ctx: ConnectionContext)
      ensures ctx.State() == old(ctx.State())
      ensures ShouldPrompt(ctx) == old(ShouldPrompt(ctx))
    {
    }
  }

  /** EventHubsNamespaceCreateStep: `execute` does nothing, so whether it
      should execute is the same afterwards. */
  class EventHubsNamespaceCreateStep {
    constructor () {}

    predicate ShouldExecute(ctx: ConnectionContext)
      reads ctx
    {
      ctx.eventHubsNamespace.Undefined?
    }

    method Execute(ctx: ConnectionContext)
      ensures ctx.State() == old(ctx.State())
      ensures ShouldExecute(ctx) == old(ShouldExecute(ctx))
    {
    }
  }
}
