/** The Netherite steps of the function-creation wizard
    (createFunction/durableSteps/netherite): the namespace list, the name
    prompts and their validators, the partition choice, and the step that
    writes the Netherite task configuration into host.json. */
module NetheriteSteps {
  import opened Base
  import opened Text
  import opened Wizard
  import opened DurableUtils

  // ----- input validation -----

  /** The checks of validateUtils, whose definitions are not part of this
      model. */
  datatype ValidateUtils = ValidateUtils(
    isValidLength: (string, int, int) -> bool,
    isAlphanumericWithHyphens: string -> bool,
    isLowerCaseAlphanumericWithHyphens: string -> bool)

  /** The messages an input box shows for a rejected name. */
  datatype ValidationMessage =
    | InvalidLength(min: string, max: string)
    | InvalidAlphanumericWithHyphens
    | InvalidLowerCaseAlphanumericWithHyphens
    | InvalidChar
    | EventHubExists(name: string)
    | EventHubNamespaceExists

  /** `name ? name.trim() : ''`, the first line of every validator. */
  function TrimOrEmpty(name: Maybe<string>): (r: string)
    ensures name.Undefined? ==> r == ""
    ensures name.Defined? ==> r == Trim(name.value)
  {
    if Truthy(name) then Trim(name.value) else ""
  }

  /** A stored name is already trimmed, so it validates as the typed text
      did. */
  lemma TrimOrEmptyOfTrimmed(typed: string)
    ensures TrimOrEmpty(Defined(Trim(typed))) == TrimOrEmpty(Defined(typed))
  {
    TrimIdempotent(typed);
  }

  // ----- the event-hub name pattern -----

  /** A lower-case ASCII letter or a digit. */
  predicate IsLowerAlphanumeric(c: char) {
    'a' <= c <= 'z' || '0' <= c <= '9'
  }

  /** The states of the automaton of `^[a-z0-9]([-a-z0-9]*[a-z0-9])?$`. */
  datatype PatternState = Start | AfterAlphanumeric | AfterHyphen | Rejected

  function PatternStep(q: PatternState, c: char): PatternState {
    match q
    case Start => if IsLowerAlphanumeric(c) then AfterAlphanumeric else Rejected
    case AfterAlphanumeric =>
      if IsLowerAlphanumeric(c) then AfterAlphanumeric else if c == '-' then AfterHyphen else Rejected
    case AfterHyphen =>
      if IsLowerAlphanumeric(c) then AfterAlphanumeric else if c == '-' then AfterHyphen else Rejected
    case Rejected => Rejected
  }

  function PatternRun(q: PatternState, s: string): PatternState
    decreases |s|
  {
    if s == [] then q else PatternRun(PatternStep(q, s[0]), s[1..])
  }

  /** Whether the whole of `s` matches `^[a-z0-9]([-a-z0-9]*[a-z0-9])?$`. */
  predicate MatchesHubNamePattern(s: string) {
    PatternRun(Start, s) == AfterAlphanumeric
  }

  /** The reading of the pattern in words: at least one character, all of
      them lower-case alphanumeric or '-', the first and the last
      alphanumeric. */
  predicate IsHubName(s: string) {
    && |s| >= 1
    && IsLowerAlphanumeric(s[0])
    && IsLowerAlphanumeric(s[|s| - 1])
    && forall i :: 0 <= i < |s| ==> IsLowerAlphanumeric(s[i]) || s[i] == '-'
  }

  lemma {:induction false} RejectedStays(s: string)
    ensures PatternRun(Rejected, s) == Rejected
    decreases |s|
  {
    if s != [] {
      RejectedStays(s[1..]);
    }
  }

  /** After the first character, the automaton accepts exactly the tails
      made of the allowed characters that end alphanumeric (or nothing, when
      it already stands after an alphanumeric). */
  lemma {:induction false} RunAfterFirst(q: PatternState, t: string)
    requires q == AfterAlphanumeric || q == AfterHyphen
    ensures PatternRun(q, t) == AfterAlphanumeric <==>
      if t == [] then q == AfterAlphanumeric
      else IsLowerAlphanumeric(t[|t| - 1]) && forall i :: 0 <= i < |t| ==> IsLowerAlphanumeric(t[i]) || t[i] == '-'
    decreases |t|
  {
    if t != [] {
      var q' := PatternStep(q, t[0]);
      if q' == Rejected {
        RejectedStays(t[1..]);
      } else {
        RunAfterFirst(q', t[1..]);
        if t[1..] != [] {
          assert t[|t| - 1] == t[1..][|t[1..]| - 1];
          assert forall i :: 1 <= i < |t| ==> t[i] == t[1..][i - 1];
        }
      }
    }
  }

  /** The automaton and the reading in words agree on every string. */
  lemma HubNamePatternMeaning(s: string)
    ensures MatchesHubNamePattern(s) <==> IsHubName(s)
  {
    if s != [] {
      var q := PatternStep(Start, s[0]);
      if q == Rejected {
        RejectedStays(s[1..]);
      } else {
        RunAfterFirst(q, s[1..]);
        if s[1..] != [] {
          assert s[|s| - 1] == s[1..][|s[1..]| - 1];
          assert forall i :: 1 <= i < |s| ==> s[i] == s[1..][i - 1];
        }
      }
    }
  }

  /** The names the pattern rejects: the empty name, any upper-case letter or
      underscore, and a leading or trailing hyphen. */
  lemma HubNameRejections(s: string)
    ensures s == [] ==> !MatchesHubNamePattern(s)
    ensures (exists i :: 0 <= i < |s| && ('A' <= s[i] <= 'Z' || s[i] == '_')) ==> !MatchesHubNamePattern(s)
    ensures |s| > 0 && (s[0] == '-' || s[|s| - 1] == '-') ==> !MatchesHubNamePattern(s)
  {
    HubNamePatternMeaning(s);
  }

  // ----- NetheriteEventHubNameStep -----

  /** NetheriteEventHubNameStep. */
  class NetheriteEventHubNameStep {
    constructor () {}

    predicate ShouldPrompt(ctx: ConnectionContext)
      reads ctx
    {
      !Truthy(ctx.newEventHubName) && ctx.eventHubConnectionType != Defined(None)
    }

    /** `validateInput`: the length check comes first, then the character
        set; a name passing both is accepted. */
    function ValidateInput(utils: ValidateUtils, name: Maybe<string>): (r: Maybe<ValidationMessage>)
      ensures var n := TrimOrEmpty(name);
        && (r == Defined(InvalidLength("1", "256")) <==> !utils.isValidLength(n, 1, 256))
        && (r == Defined(InvalidLowerCaseAlphanumericWithHyphens) <==>
              utils.isValidLength(n, 1, 256) && !utils.isLowerCaseAlphanumericWithHyphens(n))
        && (r.Undefined? <==> utils.isValidLength(n, 1, 256) && utils.isLowerCaseAlphanumericWithHyphens(n))
    {
      var n := TrimOrEmpty(name);
      if !utils.isValidLength(n, 1, 256) then Defined(InvalidLength("1", "256"))
      else if !utils.isLowerCaseAlphanumericWithHyphens(n) then Defined(InvalidLowerCaseAlphanumericWithHyphens)
      else Undefined
    }

    /** `prompt`: the input box hands back text that validated; the trimmed
        text is stored, and itself validates. When the length check refuses
        the empty name, the step does not prompt again. */
    method Prompt(ctx: ConnectionContext, utils: ValidateUtils, typed: string)
      requires ValidateInput(utils, Defined(typed)).Undefined?
      modifies ctx
      ensures ctx.State() == old(ctx.State()).(newEventHubName := Defined(Trim(typed)))
      ensures ValidateInput(utils, ctx.newEventHubName).Undefined?
      ensures !utils.isValidLength("", 1, 256) ==> !ShouldPrompt(ctx)
    {
      TrimOrEmptyOfTrimmed(typed);
      ctx.newEventHubName := Defined(Trim(typed));
    }
  }

  // ----- EventHubNameStep -----

  /** netherite/EventHubNameStep. */
  class EventHubNameStep {
    constructor () {}

    predicate ShouldPrompt(ctx: ConnectionContext)
      reads ctx
    {
      !Truthy(ctx.newEventHubName) && Truthy(NameOf(ctx.resourceGroup)) && Truthy(NameOf(ctx.eventHubsNamespace))
    }

    /** `isNameAvailable`: `existing` is what `eventHubs.get` returns for the
        name; the name is free exactly when it returns nothing. */
    function IsNameAvailable(existing: string -> Maybe<Resource>, name: string): (r: bool)
      ensures r <==> existing(name).Undefined?
    {
      !existing(name).Defined?
    }

    /** `validateInput`: the pattern check comes first, then availability;
        a taken name gets a message naming it. */
    function ValidateInput(existing: string -> Maybe<Resource>, name: Maybe<string>): (r: Maybe<ValidationMessage>)
      ensures var n := TrimOrEmpty(name);
        && (r == Defined(InvalidChar) <==> !IsHubName(n))
        && (r == Defined(EventHubExists(n)) <==> IsHubName(n) && existing(n).Defined?)
        && (r.Undefined? <==> IsHubName(n) && existing(n).Undefined?)
    {
      var n := TrimOrEmpty(name);
      HubNamePatternMeaning(n);
      if !MatchesHubNamePattern(n) then Defined(InvalidChar)
      else if !IsNameAvailable(existing, n) then Defined(EventHubExists(n))
      else Undefined
    }

    /** A name of the wrong form is refused before any lookup: the answer
        does not depend on which hubs exist. */
    lemma FormatCheckedFirst(existing1: string -> Maybe<Resource>, existing2: string -> Maybe<Resource>, name: Maybe<string>)
      requires !IsHubName(TrimOrEmpty(name))
      ensures ValidateInput(existing1, name) == ValidateInput(existing2, name) == Defined(InvalidChar)
    {
    }

    /** `prompt` stores the trimmed text the input box accepted; the stored
        name is a valid hub name, so the step does not prompt again. */
    method Prompt(ctx: ConnectionContext, existing: string -> Maybe<Resource>, typed: string)
      requires ValidateInput(existing, Defined(typed)).Undefined?
      modifies ctx
      ensures ctx.State() == old(ctx.State()).(newEventHubName := Defined(Trim(typed)))
      ensures IsHubName(ctx.newEventHubName.value)
      ensures !ShouldPrompt(ctx)
    {
      TrimOrEmptyOfTrimmed(typed);
      ctx.newEventHubName := Defined(Trim(typed));
    }
  }

  // ----- EventHubsNamespaceNameStep -----

  /** The event-hub management client's name check: the optional
      `nameAvailable` of `checkNameAvailability` for a name. */
  datatype NamespaceClient = NamespaceClient(nameAvailable: string -> Maybe<bool>)

  /** `validateInput` of EventHubsNamespaceNameStep: length 6 to 50 first,
      then the character set, then availability, which counts only when the
      client says `true`. */
  function ValidateNamespaceName(utils: ValidateUtils, client: NamespaceClient, name: Maybe<string>): (r: Maybe<ValidationMessage>)
    ensures var n := TrimOrEmpty(name);
      && (r == Defined(InvalidLength("6", "50")) <==> !utils.isValidLength(n, 6, 50))
      && (r == Defined(InvalidAlphanumericWithHyphens) <==>
            utils.isValidLength(n, 6, 50) && !utils.isAlphanumericWithHyphens(n))
      && (r == Defined(EventHubNamespaceExists) <==>
            utils.isValidLength(n, 6, 50) && utils.isAlphanumericWithHyphens(n) && client.nameAvailable(n) != Defined(true))
      && (r.Undefined? <==>
            utils.isValidLength(n, 6, 50) && utils.isAlphanumericWithHyphens(n) && client.nameAvailable(n) == Defined(true))
  {
    var n := TrimOrEmpty(name);
    if !utils.isValidLength(n, 6, 50) then Defined(InvalidLength("6", "50"))
    else if !utils.isAlphanumericWithHyphens(n) then Defined(InvalidAlphanumericWithHyphens)
    else if client.nameAvailable(n) != Defined(true) then Defined(EventHubNamespaceExists)
    else Undefined
  }

  /** netherite/EventHubsNamespaceNameStep; `client` is the `_client` field
      that `prompt` sets before it shows the input box. */
  class EventHubsNamespaceNameStep {
    var client: Maybe<NamespaceClient>

    constructor ()
      ensures client.Undefined?
    {
      client := Undefined;
    }

    predicate ShouldPrompt(ctx: ConnectionContext)
      reads ctx
    {
      ctx.eventHubsNamespace.Undefined? && !Truthy(ctx.newEventHubsNamespaceName)
    }

    /** `prompt`: keeps the client for the validator and stores the trimmed
        text the input box accepted. */
    method Prompt(ctx: ConnectionContext, utils: ValidateUtils, newClient: NamespaceClient, typed: string)
      requires ValidateNamespaceName(utils, newClient, Defined(typed)).Undefined?
      modifies this, ctx
      ensures client == Defined(newClient)
      ensures ctx.State() == old(ctx.State()).(newEventHubsNamespaceName := Defined(Trim(typed)))
      ensures ValidateNamespaceName(utils, newClient, ctx.newEventHubsNamespaceName).Undefined?
      ensures !utils.isValidLength("", 6, 50) ==> !ShouldPrompt(ctx)
    {
      TrimOrEmptyOfTrimmed(typed);
      var name := Trim(typed);
      assert ValidateNamespaceName(utils, newClient, Defined(name)).Undefined?;
      assert name == "" ==> TrimOrEmpty(Defined(typed)) == "";
      client := Defined(newClient);
      ctx.newEventHubsNamespaceName := Defined(name);
    }
  }

  // ----- EventHubPartitionsStep -----

  /** The partition choices: 12 (recommended), 1 and 32, in that order.
      `recommended` is the description text of the constants module. */
  function PartitionPicks(recommended: string): (r: seq<QuickPick<int>>)
    ensures |r| == 3
    ensures r[0].data == 12 && r[1].data == 1 && r[2].data == 32
    ensures r[0].description == Defined(recommended)
    ensures r[1].description.Undefined? && r[2].description.Undefined?
  {
    [ QuickPick(Undefined, Defined("12"), Defined(recommended), 12),
      QuickPick(Undefined, Defined("1"), Undefined, 1),
      QuickPick(Undefined, Defined("32"), Undefined, 32) ]
  }

  /** netherite/EventHubPartitionsStep. */
  class EventHubPartitionsStep {
    constructor () {}

    predicate ShouldPrompt(ctx: ConnectionContext)
      reads ctx
    {
      !TruthyNumber(ctx.partitionCount)
    }

    /** `prompt` stores the picked count, which is one of 1, 12 and 32, so
        the step does not prompt again. */
    method Prompt(ctx: ConnectionContext, recommended: string, choice: nat)
      requires choice < |PartitionPicks(recommended)|
      modifies ctx
      ensures ctx.State() == old(ctx.State()).(partitionCount := Defined(PartitionPicks(recommended)[choice].data))
      ensures ctx.partitionCount.value in {1, 12, 32}
      ensures !ShouldPrompt(ctx)
    {
      var picks := PartitionPicks(recommended);
      ctx.partitionCount := Defined(picks[choice].data);
    }
  }

  // ----- EventHubsNamespaceListStep -----

  const NewEventHubsNamespaceLabel: string := "$(plus) Create new event hub namespace"

  /** netherite/EventHubsNamespaceListStep. */
  class EventHubsNamespaceListStep {
    constructor () {}

    predicate ShouldPrompt(ctx: ConnectionContext)
      reads ctx
    {
      ctx.eventHubsNamespace.Undefined?
    }

    /** `getQuickPicks`: "create new" with no data, then the listed
        namespaces in listing order. */
    method GetQuickPicks(namespaces: seq<Resource>) returns (picks: seq<QuickPick<Maybe<Resource>>>)
      ensures |picks| == |namespaces| + 1
      ensures picks[0] == QuickPick(Undefined, Defined(NewEventHubsNamespaceLabel), Defined(""), Undefined)
      ensures forall i :: 0 <= i < |namespaces| ==> picks[i + 1] == ResourcePick(namespaces[i])
    {
      picks := NewOrExistingPicks(NewEventHubsNamespaceLabel, namespaces);
    }

    /** `prompt`: stores the picked namespace, or nothing for "create new";
        after picking an existing namespace the step does not prompt
        again. */
    method Prompt(ctx: ConnectionContext, namespaces: seq<Resource>, choice: nat)
      requires choice <= |namespaces|
      modifies ctx
      ensures ctx.State() == old(ctx.State()).(eventHubsNamespace :=
        if choice == 0 then Undefined else Defined(namespaces[choice - 1]))
      ensures ShouldPrompt(ctx) <==> choice == 0
    {
      var picks := GetQuickPicks(namespaces);
      ctx.eventHubsNamespace := picks[choice].data;
    }

    /** `getSubWizard`: without a namespace, the name, resource-group and
        (when the library adds it) location prompts and the namespace create
        step; with one, its name is masked and there is no sub-wizard; a
        namespace without a name throws. */
    method GetSubWizard(ctx: ConnectionContext, addsLocation: bool) returns (r: Outcome<Maybe<WizardOptions>>)
      modifies ctx
      ensures old(ctx.eventHubsNamespace).Undefined? ==>
        && r == Ok(Defined(WizardOptions(
             AddLocationStep([NetheriteNamespaceName, ResourceGroupList], addsLocation),
             Defined([NetheriteNamespaceCreate]))))
        && ctx.State() == old(ctx.State())
      ensures old(ctx.eventHubsNamespace).Defined? && old(ctx.eventHubsNamespace).value.name.Undefined? ==>
        r == Thrown(MissingValue("name")) && ctx.State() == old(ctx.State())
      ensures old(ctx.eventHubsNamespace).Defined? && old(ctx.eventHubsNamespace).value.name.Defined? ==>
        && r == Ok(Undefined)
        && ctx.State() == old(ctx.State()).(valuesToMask := old(ctx.valuesToMask) + [old(ctx.eventHubsNamespace).value.name.value])
    {
      if ctx.eventHubsNamespace.Undefined? {
        var promptSteps := [NetheriteNamespaceName, ResourceGroupList];
        promptSteps := AddLocationStep(promptSteps, addsLocation);
        return Ok(Defined(WizardOptions(promptSteps, Defined([NetheriteNamespaceCreate]))));
      }
      var name := ctx.eventHubsNamespace.value.name;
      if name.Undefined? {
        return Thrown(MissingValue("name"));
      }
      ctx.valuesToMask := ctx.valuesToMask + [name.value];
      r := Ok(Undefined);
    }
  }

  // ----- NetheriteConfigureHostStep -----

  /** Whether `hostJson.extensions ??= {}` and the assignment into it can
      run: the document is an object whose `extensions` is absent, null or
      an object. */
  predicate ExtensionsWritable(host: Maybe<Json>) {
    && host.Defined? && host.value.JObject?
    && var extensions := Member(host, "extensions");
       extensions.Undefined? || extensions.value.JNull? || extensions.value.JObject?
  }

  /** The entries of `extensions` once `??= {}` has run. */
  function ExistingExtensions(host: Maybe<Json>): map<string, Json> {
    var extensions := Member(host, "extensions");
    if extensions.Defined? && extensions.value.JObject? then extensions.value.members else map[]
  }

  /** The host document the execute step writes, or the one it leaves when
      something throws (the document cannot be read or edited, or
      `nonNullValue` finds the namespace name or the partition count
      missing). Written: every top-level key kept but `extensions`; every
      extension entry kept but `durableTask`, which becomes the Netherite
      default configuration for the namespace name and the partition
      count. */
  function ConfigureNetheriteHost(host: Maybe<Json>, namespaceName: Maybe<string>, partitionCount: Maybe<int>): (r: Maybe<Json>)
    ensures !(ExtensionsWritable(host) && namespaceName.Defined? && partitionCount.Defined?) ==> r == host
    ensures ExtensionsWritable(host) && namespaceName.Defined? && partitionCount.Defined? ==>
      && r.Defined? && r.value.JObject?
      && (forall k :: k in host.value.members && k != "extensions" ==> Member(r, k) == Member(host, k))
      && (forall k :: k in ExistingExtensions(host) && k != "durableTask" ==>
            Member(Member(r, "extensions"), k) == Defined(ExistingExtensions(host)[k]))
      && DurableTask(r) == Defined(NetheriteTaskConfig(namespaceName, partitionCount))
      && r.value.members.Keys == host.value.members.Keys + {"extensions"}
      && r.value.members["extensions"].JObject?
      && r.value.members["extensions"].members.Keys == ExistingExtensions(host).Keys + {"durableTask"}
  {
    if ExtensionsWritable(host) && namespaceName.Defined? && partitionCount.Defined? then
      var extensions := ExistingExtensions(host)["durableTask" := NetheriteTaskConfig(namespaceName, partitionCount)];
      Defined(JObject(host.value.members["extensions" := JObject(extensions)]))
    else host
  }

  /** Reading back the configured host: the event-hub name is the namespace
      name (or "" for an empty one) and the partition count is the
      context's. */
  lemma ConfiguredHostReadsBack(host: Maybe<Json>, namespaceName: string, partitionCount: int)
    requires ExtensionsWritable(host)
    ensures var r := ConfigureNetheriteHost(host, Defined(namespaceName), Defined(partitionCount));
      && GetEventHubName(r) == Defined(JString(namespaceName))
      && GetPartitionCount(r) == Defined(JNumber(partitionCount))
      && HostStorageType(r.value) == Netherite
  {
    var r := ConfigureNetheriteHost(host, Defined(namespaceName), Defined(partitionCount));
    assert DurableTask(r) == Defined(NetheriteTaskConfig(Defined(namespaceName), Defined(partitionCount)));
    NetheriteConfigRoundTrip(Defined(namespaceName), Defined(partitionCount));
  }

  /** NetheriteConfigureHostStep. */
  class NetheriteConfigureHostStep {
    constructor () {}

    predicate ShouldExecute(ctx: ConnectionContext)
      reads ctx
    {
      Truthy(NameOf(ctx.eventHubsNamespace)) && TruthyNumber(ctx.partitionCount)
    }

    /** `execute`: rewrites host.json in place; a failure is logged, never
        raised, and leaves the file as it was. */
    method Execute(ctx: ConnectionContext, documents: ProjectDocuments)
      modifies documents
      ensures documents.hostJson == ConfigureNetheriteHost(old(documents.hostJson), NameOf(ctx.eventHubsNamespace), ctx.partitionCount)
      ensures documents.localSettingsJson == old(documents.localSettingsJson)
    {
      var host := documents.hostJson;
      if !host.Defined? || !host.value.JObject? {
        return;
      }
      var extensions := Member(host, "extensions");
      if extensions.Defined? && !extensions.value.JNull? && !extensions.value.JObject? {
        return;
      }
      var existing: map<string, Json> := if extensions.Defined? && extensions.value.JObject? then extensions.value.members else map[];
      var namespaceName := NameOf(ctx.eventHubsNamespace);
      if namespaceName.Undefined? || ctx.partitionCount.Undefined? {
        return;
      }
      existing := existing["durableTask" := NetheriteTaskConfig(namespaceName, ctx.partitionCount)];
      documents.hostJson := Defined(JObject(host.value.members["extensions" := JObject(existing)]));
    }
  }
}
