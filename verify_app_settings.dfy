/** Deploy-time reconciliation of a function app's remote application
    settings with the local project (commands/deploy/verifyAppSettings.ts).
    The remote settings dictionary is edited in place; every editing method is
    proved against a function on the dictionary it starts from, and the
    properties of the reconciliation are lemmas about those functions. */
module VerifyAppSettings {
  import opened Base

  /** A remote settings dictionary, `{ [propertyName: string]: string }`. */
  type Settings = map<string, string>

  /** `appSettings.properties`, the dictionary the deploy command edits in
      place and, if anything changed, sends back. */
  class RemoteProperties {
    var properties: Settings

    constructor (properties: Settings)
      ensures this.properties == properties
    {
      this.properties := properties;
    }
  }

  /** A reconciliation step's outcome: the new dictionary and the step's
      boolean result. */
  datatype Change = Change(settings: Settings, changed: bool)

  /** `a` and `b` agree on every key outside `keys`. */
  ghost predicate SameExcept(a: Settings, b: Settings, keys: set<string>) {
    forall k :: k !in keys ==> Lookup(a, k) == Lookup(b, k)
  }

  /** Two dictionaries that agree on every key are equal. */
  lemma SettingsExtensionality(a: Settings, b: Settings)
    requires forall k :: Lookup(a, k) == Lookup(b, k)
    ensures a == b
  {
    forall k
      ensures k in a <==> k in b
    {
      assert Lookup(a, k) == Lookup(b, k);
    }
    forall k | k in a
      ensures a[k] == b[k]
    {
      assert Lookup(a, k) == Lookup(b, k);
    }
  }

  // ---------------------------------------------------------------------
  // updateConnectionStringIfNeeded

  /** Whether `updateConnectionStringIfNeeded` writes a local connection
      string into the remote dictionary, and the dictionary it leaves. A
      local value is pushed only when it is non-empty and not the emulator
      value, and then only when the user chose the local settings or the
      remote value is missing or empty. The result is true exactly when it
      wrote, even when the remote value already equalled the local one. */
  function UpdateConnectionString(m: Settings, key: string, newValue: Maybe<string>, overwrite: bool, isEmulator: bool): (r: Change)
    ensures SameExcept(r.settings, m, {key})
    ensures !Truthy(newValue) || isEmulator ==> r == Change(m, false)
    ensures r.changed <==> Truthy(newValue) && !isEmulator && (overwrite || !TruthyAt(m, key))
    ensures r.changed ==> Lookup(r.settings, key) == newValue
    ensures !r.changed ==> r.settings == m
  {
    var remoteValue := Lookup(m, key);
    if Truthy(newValue) && !isEmulator && overwrite then
      Change(m[key := newValue.value], true)
    else if !Truthy(remoteValue) && Truthy(newValue) && !isEmulator then
      Change(m[key := newValue.value], true)
    else
      Change(m, false)
  }

  /** `updateConnectionStringIfNeeded`, editing the dictionary in place. */
  method UpdateConnectionStringIfNeeded(remote: RemoteProperties, key: string, newValue: Maybe<string>, overwrite: bool, isEmulator: bool)
    returns (updated: bool)
    modifies remote
    ensures Change(remote.properties, updated) == UpdateConnectionString(old(remote.properties), key, newValue, overwrite, isEmulator)
  {
    var remoteValue := Lookup(remote.properties, key);
    if Truthy(newValue) && !isEmulator && overwrite {
      remote.properties := remote.properties[key := newValue.value];
    } else if !Truthy(remoteValue) && Truthy(newValue) && !isEmulator {
      remote.properties := remote.properties[key := newValue.value];
    } else {
      return false;
    }
    return true;
  }

  // ---------------------------------------------------------------------
  // verifyConnectionStrings

  /** The connection strings read from local.settings.json. */
  datatype LocalConnections = LocalConnections(eventHubs: Maybe<string>, storage: Maybe<string>)

  /** The answer to `shouldOverwrite`'s modal question of which settings are
      more current; dismissing the modal throws `UserCancelledError`. */
  datatype OverwriteAnswer = LocalAnswer | RemoteAnswer | Dismissed

  /** `verifyConnectionStrings`: for Netherite the event-hubs connection is
      reconciled first, and when that changed the dictionary the `||=` skips
      the storage connection; SQL connections are never reconciled; every
      backend then has its storage connection reconciled. `overwrite` is the
      user's answer to the local-or-remote question. */
  function ConnectionStrings(m: Settings, durable: Maybe<DurableBackend>, overwrite: bool, local: LocalConnections, hc: HostConstants): (r: Change)
    ensures SameExcept(r.settings, m, {EventHubConnectionKey, StorageConnectionKey})
    ensures durable != Defined(Netherite) ==> SameExcept(r.settings, m, {StorageConnectionKey})
    ensures !r.changed ==> r.settings == m
  {
    var hub :=
      if durable == Defined(Netherite) then
        UpdateConnectionString(m, EventHubConnectionKey, local.eventHubs, overwrite, local.eventHubs == Defined(hc.localEventHubsEmulatorConnectionString))
      else
        Change(m, false);
    if hub.changed then hub
    else
      UpdateConnectionString(hub.settings, StorageConnectionKey, local.storage, overwrite, local.storage == Defined(hc.localStorageEmulatorConnectionString))
  }

  /** `verifyConnectionStrings`, editing the dictionary in place. It asks
      `shouldOverwrite` first, whatever the backend and the local values: a
      dismissed question throws before anything changes, and only the
      "Local" answer overwrites. */
  method VerifyConnectionStrings(remote: RemoteProperties, durable: Maybe<DurableBackend>, answer: OverwriteAnswer, local: LocalConnections, hc: HostConstants)
    returns (didChange: bool, error: Maybe<DeployError>)
    modifies remote
    ensures answer == Dismissed ==> error == Defined(UserCancelled) && !didChange && remote.properties == old(remote.properties)
    ensures answer != Dismissed ==>
      error == Undefined
      && Change(remote.properties, didChange) == ConnectionStrings(old(remote.properties), durable, answer == LocalAnswer, local, hc)
  {
    didChange, error := false, Undefined;
    if answer == Dismissed {
      return false, Defined(UserCancelled);
    }
    var overwrite := answer == LocalAnswer;
    match durable {
      case Defined(Netherite) =>
        var isEmulator := local.eventHubs == Defined(hc.localEventHubsEmulatorConnectionString);
        didChange := UpdateConnectionStringIfNeeded(remote, EventHubConnectionKey, local.eventHubs, overwrite, isEmulator);
      case _ =>
    }
    if !didChange {
      var isEmulator := local.storage == Defined(hc.localStorageEmulatorConnectionString);
      didChange := UpdateConnectionStringIfNeeded(remote, StorageConnectionKey, local.storage, overwrite, isEmulator);
    }
  }

  /** The emulator's storage connection string is never pushed: the remote
      storage connection keeps its value. */
  lemma EmulatorStorageNeverPushed(m: Settings, durable: Maybe<DurableBackend>, overwrite: bool, local: LocalConnections, hc: HostConstants)
    requires local.storage == Defined(hc.localStorageEmulatorConnectionString)
    ensures Lookup(ConnectionStrings(m, durable, overwrite, local, hc).settings, StorageConnectionKey) == Lookup(m, StorageConnectionKey)
  {
    var hub :=
      if durable == Defined(Netherite) then
        UpdateConnectionString(m, EventHubConnectionKey, local.eventHubs, overwrite, local.eventHubs == Defined(hc.localEventHubsEmulatorConnectionString))
      else
        Change(m, false);
    assert Lookup(hub.settings, StorageConnectionKey) == Lookup(m, StorageConnectionKey);
  }

  /** For Netherite, a changed event-hubs connection makes the `||=` skip the
      storage connection, whatever the local storage value is. */
  lemma NetheriteChangeSkipsStorage(m: Settings, overwrite: bool, local: LocalConnections, hc: HostConstants)
    requires UpdateConnectionString(m, EventHubConnectionKey, local.eventHubs, overwrite, local.eventHubs == Defined(hc.localEventHubsEmulatorConnectionString)).changed
    ensures var r := ConnectionStrings(m, Defined(Netherite), overwrite, local, hc);
      r.changed && Lookup(r.settings, StorageConnectionKey) == Lookup(m, StorageConnectionKey)
  {
  }

  /** SQL connection strings are never reconciled, and for every backend but
      Netherite only the storage connection can change. */
  lemma OnlyStorageUnlessNetherite(m: Settings, durable: Maybe<DurableBackend>, overwrite: bool, local: LocalConnections, hc: HostConstants)
    requires durable != Defined(Netherite)
    ensures var r := ConnectionStrings(m, durable, overwrite, local, hc);
      && Lookup(r.settings, SqlConnectionKey) == Lookup(m, SqlConnectionKey)
      && Lookup(r.settings, EventHubConnectionKey) == Lookup(m, EventHubConnectionKey)
      && r == UpdateConnectionString(m, StorageConnectionKey, local.storage, overwrite, local.storage == Defined(hc.localStorageEmulatorConnectionString))
  {
  }

  // ---------------------------------------------------------------------
  // verifyRunFromPackage

  /** `verifyRunFromPackage`: the run-from-package setting becomes '1' when it
      is missing or empty, and the result says whether it was added. */
  function RunFromPackage(m: Settings, runFromPackageKey: string): (r: Change)
    ensures r.changed <==> !TruthyAt(m, runFromPackageKey)
    ensures TruthyAt(r.settings, runFromPackageKey)
    ensures SameExcept(r.settings, m, {runFromPackageKey})
    ensures !r.changed ==> r.settings == m
  {
    if !TruthyAt(m, runFromPackageKey) then Change(m[runFromPackageKey := "1"], true) else Change(m, false)
  }

  /** `verifyRunFromPackage`, editing the dictionary in place. */
  method VerifyRunFromPackage(remote: RemoteProperties, runFromPackageKey: string) returns (shouldAddSetting: bool)
    modifies remote
    ensures Change(remote.properties, shouldAddSetting) == RunFromPackage(old(remote.properties), runFromPackageKey)
  {
    shouldAddSetting := !TruthyAt(remote.properties, runFromPackageKey);
    if shouldAddSetting {
      remote.properties := remote.properties[runFromPackageKey := "1"];
    }
  }

  /** A second `verifyRunFromPackage` adds nothing and changes nothing. */
  lemma RunFromPackageIdempotent(m: Settings, key: string)
    ensures RunFromPackage(RunFromPackage(m, key).settings, key) == Change(RunFromPackage(m, key).settings, false)
  {
  }

  // ---------------------------------------------------------------------
  // verifyLinuxRemoteBuildSettings

  /** The settings a dedicated (non-consumption) Linux plan needs for a
      remote build, in the order they are visited. */
  const DedicatedBuildSettings: seq<(string, string)> := [
    ("ENABLE_ORYX_BUILD", "true"),
    ("SCM_DO_BUILD_DURING_DEPLOYMENT", "1"),
    ("BUILD_FLAGS", "UseExpressBuild"),
    ("XDG_CACHE_HOME", "/tmp/.cache")
  ]

  /** The run-from-package settings a remote build removes. */
  const RunFromKeys: seq<string> := ["WEBSITE_RUN_FROM_ZIP", "WEBSITE_RUN_FROM_PACKAGE"]

  /** The six keys `verifyLinuxRemoteBuildSettings` may touch. */
  const LinuxBuildKeys: set<string> := {
    "WEBSITE_RUN_FROM_ZIP", "WEBSITE_RUN_FROM_PACKAGE",
    "ENABLE_ORYX_BUILD", "SCM_DO_BUILD_DURING_DEPLOYMENT", "BUILD_FLAGS", "XDG_CACHE_HOME"
  }

  /** A `boolean | undefined` flag read with `if (flag)`: undefined is false. */
  predicate IsSet(b: Maybe<bool>) {
    b == Defined(true)
  }

  /** The keys of a list of pairs, in order. */
  function KeysOf(pairs: seq<(string, string)>): (r: seq<string>)
    ensures |r| == |pairs|
    ensures forall i :: 0 <= i < |pairs| ==> r[i] == pairs[i].0
  {
    seq(|pairs|, i requires 0 <= i < |pairs| => pairs[i].0)
  }

  /** The value the last pair for `k` gives, if any. */
  function ValueFor(pairs: seq<(string, string)>, k: string): Maybe<string> {
    if pairs == [] then Undefined
    else if pairs[|pairs| - 1].0 == k then Defined(pairs[|pairs| - 1].1)
    else ValueFor(pairs[..|pairs| - 1], k)
  }

  /** The loop over `dedicatedBuildSettings` on a remote build: each key is
      assigned its value when it differs, and the result records whether any
      assignment happened. */
  function SetAll(m: Settings, pairs: seq<(string, string)>): Change {
    if pairs == [] then Change(m, false)
    else
      var prev := SetAll(m, pairs[..|pairs| - 1]);
      var key := pairs[|pairs| - 1].0;
      var value := pairs[|pairs| - 1].1;
      if Lookup(prev.settings, key) != Defined(value) then Change(prev.settings[key := value], true)
      else prev
  }

  /** After the assignment loop each listed key holds the last value listed
      for it and every other key is as before; a loop that reports no change
      leaves the dictionary as it was. */
  lemma {:induction false} SetAllMeaning(m: Settings, pairs: seq<(string, string)>)
    ensures forall k :: Lookup(SetAll(m, pairs).settings, k) == if ValueFor(pairs, k).Defined? then ValueFor(pairs, k) else Lookup(m, k)
    ensures !SetAll(m, pairs).changed ==> SetAll(m, pairs).settings == m
  {
    if pairs != [] {
      SetAllMeaning(m, pairs[..|pairs| - 1]);
    }
  }

  /** The loop over `keysToRemove`: each key whose value is truthy is
      deleted, and the result records whether any deletion happened. */
  function RemoveAll(m: Settings, keys: seq<string>): Change {
    if keys == [] then Change(m, false)
    else
      var prev := RemoveAll(m, keys[..|keys| - 1]);
      var key := keys[|keys| - 1];
      if TruthyAt(prev.settings, key) then Change(prev.settings - {key}, true)
      else prev
  }

  /** After the deletion loop each listed key that held a truthy value is
      gone and every other key is as before; a change is reported exactly
      when some listed key held a truthy value. */
  lemma {:induction false} RemoveAllMeaning(m: Settings, keys: seq<string>)
    ensures forall k :: Lookup(RemoveAll(m, keys).settings, k) == if k in keys && TruthyAt(m, k) then Undefined else Lookup(m, k)
    ensures RemoveAll(m, keys).changed <==> exists i :: 0 <= i < |keys| && TruthyAt(m, keys[i])
  {
    if keys != [] {
      var front := keys[..|keys| - 1];
      RemoveAllMeaning(m, front);
      assert forall i :: 0 <= i < |front| ==> front[i] == keys[i];
      assert forall k :: k in keys <==> k in front || k == keys[|keys| - 1];
    }
  }

  /** The keys `verifyLinuxRemoteBuildSettings` collects for deletion. */
  function KeysToRemove(doRemoteBuild: Maybe<bool>, isConsumption: bool): seq<string> {
    (if IsSet(doRemoteBuild) then RunFromKeys else [])
    + (if !isConsumption && !IsSet(doRemoteBuild) then KeysOf(DedicatedBuildSettings) else [])
  }

  /** The value a dedicated plan's remote build requires under `k`. */
  function DedicatedValue(k: string): Maybe<string> {
    if k == "ENABLE_ORYX_BUILD" then Defined("true")
    else if k == "SCM_DO_BUILD_DURING_DEPLOYMENT" then Defined("1")
    else if k == "BUILD_FLAGS" then Defined("UseExpressBuild")
    else if k == "XDG_CACHE_HOME" then Defined("/tmp/.cache")
    else Undefined
  }

  /** Reference description of the Linux build settings, key by key: a remote
      build deletes a non-empty run-from-package key and, on a dedicated plan,
      sets each build key to its required value; without a remote build a
      dedicated plan deletes each non-empty build key; nothing else changes. */
  function LinuxBuildValue(m: Settings, k: string, doRemoteBuild: bool, isConsumption: bool): Maybe<string> {
    if doRemoteBuild && k in RunFromKeys && TruthyAt(m, k) then Undefined
    else if doRemoteBuild && !isConsumption && DedicatedValue(k).Defined? then DedicatedValue(k)
    else if !doRemoteBuild && !isConsumption && DedicatedValue(k).Defined? && TruthyAt(m, k) then Undefined
    else Lookup(m, k)
  }

  /** The list of dedicated build settings gives each key the value
      `DedicatedValue` names. */
  lemma DedicatedSettingsValues(k: string)
    ensures ValueFor(DedicatedBuildSettings, k) == DedicatedValue(k)
    ensures k in KeysOf(DedicatedBuildSettings) <==> DedicatedValue(k).Defined?
    ensures k in RunFromKeys ==> DedicatedValue(k) == Undefined
  {
    var p := DedicatedBuildSettings;
    var p1, p2, p3 := [p[0]], [p[0], p[1]], [p[0], p[1], p[2]];
    assert p[..3] == p3 && p3[..2] == p2 && p2[..1] == p1 && p1[..0] == [];
    assert ValueFor(p, k) == if p[3].0 == k then Defined(p[3].1) else ValueFor(p3, k);
    assert ValueFor(p3, k) == if p[2].0 == k then Defined(p[2].1) else ValueFor(p2, k);
    assert ValueFor(p2, k) == if p[1].0 == k then Defined(p[1].1) else ValueFor(p1, k);
    assert ValueFor(p1, k) == if p[0].0 == k then Defined(p[0].1) else ValueFor([], k);
    assert KeysOf(p) == [p[0].0, p[1].0, p[2].0, p[3].0];
  }

  /** Which keys the deletion loop visits. */
  lemma KeysToRemoveMembers(doRemoteBuild: Maybe<bool>, isConsumption: bool, k: string)
    ensures k in KeysToRemove(doRemoteBuild, isConsumption) <==>
      (IsSet(doRemoteBuild) && k in RunFromKeys) || (!isConsumption && !IsSet(doRemoteBuild) && DedicatedValue(k).Defined?)
  {
    DedicatedSettingsValues(k);
  }

  /** The dedicated-settings loop, run only on a remote build for a
      dedicated plan. */
  function WrittenBuildSettings(m: Settings, doRemoteBuild: Maybe<bool>, isConsumption: bool): Change {
    if !isConsumption && IsSet(doRemoteBuild) then SetAll(m, DedicatedBuildSettings) else Change(m, false)
  }

  /** After the dedicated-settings loop each build key holds its required
      value on a remote build for a dedicated plan; every other key is as
      before. */
  lemma WrittenBuildValue(m: Settings, doRemoteBuild: Maybe<bool>, isConsumption: bool, k: string)
    ensures Lookup(WrittenBuildSettings(m, doRemoteBuild, isConsumption).settings, k) ==
      if !isConsumption && IsSet(doRemoteBuild) && DedicatedValue(k).Defined? then DedicatedValue(k) else Lookup(m, k)
  {
    DedicatedSettingsValues(k);
    SetAllMeaning(m, DedicatedBuildSettings);
  }

  /** `verifyLinuxRemoteBuildSettings` as a function of the dictionary it
      starts from; `doRemoteBuild` undefined counts as false. */
  function LinuxRemoteBuild(m: Settings, doRemoteBuild: Maybe<bool>, isConsumption: bool): (r: Change)
    ensures forall k :: Lookup(r.settings, k) == LinuxBuildValue(m, k, IsSet(doRemoteBuild), isConsumption)
    ensures SameExcept(r.settings, m, LinuxBuildKeys)
    ensures r.changed <==> r.settings != m
  {
    var written := WrittenBuildSettings(m, doRemoteBuild, isConsumption);
    var removed := RemoveAll(written.settings, KeysToRemove(doRemoteBuild, isConsumption));
    LinuxBuildValues(m, doRemoteBuild, isConsumption);
    LinuxRemoteBuildChanged(m, doRemoteBuild, isConsumption);
    Change(removed.settings, written.changed || removed.changed)
  }

  /** The two loops together give `LinuxBuildValue` key by key, and touch
      only the six build keys. */
  lemma LinuxBuildValues(m: Settings, doRemoteBuild: Maybe<bool>, isConsumption: bool)
    ensures var removed := RemoveAll(WrittenBuildSettings(m, doRemoteBuild, isConsumption).settings, KeysToRemove(doRemoteBuild, isConsumption));
      && (forall k :: Lookup(removed.settings, k) == LinuxBuildValue(m, k, IsSet(doRemoteBuild), isConsumption))
      && SameExcept(removed.settings, m, LinuxBuildKeys)
  {
    var written := WrittenBuildSettings(m, doRemoteBuild, isConsumption);
    var removed := RemoveAll(written.settings, KeysToRemove(doRemoteBuild, isConsumption));
    RemoveAllMeaning(written.settings, KeysToRemove(doRemoteBuild, isConsumption));
    forall k
      ensures Lookup(removed.settings, k) == LinuxBuildValue(m, k, IsSet(doRemoteBuild), isConsumption)
      ensures k !in LinuxBuildKeys ==> Lookup(removed.settings, k) == Lookup(m, k)
    {
      DedicatedSettingsValues(k);
      KeysToRemoveMembers(doRemoteBuild, isConsumption, k);
      WrittenBuildValue(m, doRemoteBuild, isConsumption, k);
    }
  }

  /** The two loops report a change exactly when the dictionary differs
      afterwards. */
  lemma LinuxRemoteBuildChanged(m: Settings, doRemoteBuild: Maybe<bool>, isConsumption: bool)
    ensures var written := WrittenBuildSettings(m, doRemoteBuild, isConsumption);
      var removed := RemoveAll(written.settings, KeysToRemove(doRemoteBuild, isConsumption));
      written.changed || removed.changed <==> removed.settings != m
  {
    var d := IsSet(doRemoteBuild);
    var written := WrittenBuildSettings(m, doRemoteBuild, isConsumption);
    var keys := KeysToRemove(doRemoteBuild, isConsumption);
    var removed := RemoveAll(written.settings, keys);
    LinuxBuildValues(m, doRemoteBuild, isConsumption);
    SetAllMeaning(m, DedicatedBuildSettings);
    RemoveAllMeaning(written.settings, keys);
    if written.changed {
      // some build key was given a value it did not have, and no build key
      // is deleted afterwards
      if removed.settings == m {
        forall k | DedicatedValue(k).Defined?
          ensures Lookup(m, k) == DedicatedValue(k)
        {
          assert Lookup(removed.settings, k) == LinuxBuildValue(m, k, d, isConsumption);
        }
        var p := DedicatedBuildSettings;
        assert DedicatedValue(p[0].0).Defined? && DedicatedValue(p[1].0).Defined?;
        assert DedicatedValue(p[2].0).Defined? && DedicatedValue(p[3].0).Defined?;
        SetAllUnchanged(m, p);
        assert false;
      }
    } else if removed.changed {
      var i :| 0 <= i < |keys| && TruthyAt(written.settings, keys[i]);
      assert Lookup(removed.settings, keys[i]) == Undefined;
    } else {
      SettingsExtensionality(removed.settings, m);
    }
  }

  /** Setting keys to values they already hold changes nothing. */
  lemma {:induction false} SetAllUnchanged(m: Settings, pairs: seq<(string, string)>)
    requires forall i :: 0 <= i < |pairs| ==> Lookup(m, pairs[i].0) == Defined(pairs[i].1)
    ensures SetAll(m, pairs) == Change(m, false)
  {
    if pairs != [] {
      var init := pairs[..|pairs| - 1];
      assert forall i :: 0 <= i < |init| ==> init[i] == pairs[i];
      SetAllUnchanged(m, init);
    }
  }

  /** One more pair of the dedicated-settings loop. */
  lemma SetAllStep(m: Settings, pairs: seq<(string, string)>, i: nat)
    requires i < |pairs|
    ensures var prev := SetAll(m, pairs[..i]);
      SetAll(m, pairs[..i + 1]) ==
        if Lookup(prev.settings, pairs[i].0) != Defined(pairs[i].1) then Change(prev.settings[pairs[i].0 := pairs[i].1], true)
        else prev
  {
    assert pairs[..i + 1][..i] == pairs[..i];
  }

  /** One more key of the deletion loop. */
  lemma RemoveAllStep(m: Settings, keys: seq<string>, j: nat)
    requires j < |keys|
    ensures var prev := RemoveAll(m, keys[..j]);
      RemoveAll(m, keys[..j + 1]) ==
        if TruthyAt(prev.settings, keys[j]) then Change(prev.settings - {keys[j]}, true) else prev
  {
    assert keys[..j + 1][..j] == keys[..j];
  }

  /** The first loop of `verifyLinuxRemoteBuildSettings`: on a dedicated
      plan a remote build assigns each build setting that differs, and
      without a remote build each build key is queued for deletion after the
      run-from keys a remote build queues. */
  method WriteDedicatedBuildSettings(remote: RemoteProperties, doRemoteBuild: Maybe<bool>, isConsumption: bool)
    returns (hasChanged: bool, keysToRemove: seq<string>)
    modifies remote
    ensures Change(remote.properties, hasChanged) == WrittenBuildSettings(old(remote.properties), doRemoteBuild, isConsumption)
    ensures keysToRemove == KeysToRemove(doRemoteBuild, isConsumption)
  {
    ghost var m := remote.properties;
    hasChanged := false;
    keysToRemove := [];
    if IsSet(doRemoteBuild) {
      keysToRemove := keysToRemove + RunFromKeys;
    }
    ghost var setting := !isConsumption && IsSet(doRemoteBuild);
    if !isConsumption {
      var dedicatedBuildSettings := DedicatedBuildSettings;
      for i := 0 to |dedicatedBuildSettings|
        invariant setting ==> Change(remote.properties, hasChanged) == SetAll(m, dedicatedBuildSettings[..i])
        invariant !setting ==> remote.properties == m && !hasChanged
        invariant keysToRemove ==
          (if IsSet(doRemoteBuild) then RunFromKeys else []) + (if !IsSet(doRemoteBuild) then KeysOf(dedicatedBuildSettings[..i]) else [])
      {
        var key := dedicatedBuildSettings[i].0;
        var value := dedicatedBuildSettings[i].1;
        SetAllStep(m, dedicatedBuildSettings, i);
        if !IsSet(doRemoteBuild) {
          assert KeysOf(dedicatedBuildSettings[..i + 1]) == KeysOf(dedicatedBuildSettings[..i]) + [key];
          keysToRemove := keysToRemove + [key];
        } else if Lookup(remote.properties, key) != Defined(value) {
          remote.properties := remote.properties[key := value];
          hasChanged := true;
        }
      }
      assert dedicatedBuildSettings[..|dedicatedBuildSettings|] == DedicatedBuildSettings;
    }
  }

  /** The second loop of `verifyLinuxRemoteBuildSettings`: each queued key
      holding a truthy value is deleted. */
  method RemoveQueuedKeys(remote: RemoteProperties, keysToRemove: seq<string>) returns (hasChanged: bool)
    modifies remote
    ensures Change(remote.properties, hasChanged) == RemoveAll(old(remote.properties), keysToRemove)
  {
    ghost var m := remote.properties;
    hasChanged := false;
    for j := 0 to |keysToRemove|
      invariant Change(remote.properties, hasChanged) == RemoveAll(m, keysToRemove[..j])
    {
      var key := keysToRemove[j];
      RemoveAllStep(m, keysToRemove, j);
      if TruthyAt(remote.properties, key) {
        remote.properties := remote.properties - {key};
        hasChanged := true;
      }
    }
    assert keysToRemove[..|keysToRemove|] == keysToRemove;
  }

  /** `verifyLinuxRemoteBuildSettings`, editing the dictionary in place with
      the source's two loops. */
  method VerifyLinuxRemoteBuildSettings(remote: RemoteProperties, doRemoteBuild: Maybe<bool>, isConsumption: bool)
    returns (hasChanged: bool)
    modifies remote
    ensures Change(remote.properties, hasChanged) == LinuxRemoteBuild(old(remote.properties), doRemoteBuild, isConsumption)
  {
    var keysToRemove;
    hasChanged, keysToRemove := WriteDedicatedBuildSettings(remote, doRemoteBuild, isConsumption);
    var removed := RemoveQueuedKeys(remote, keysToRemove);
    hasChanged := hasChanged || removed;
  }

  /** A second call on what the first call left changes nothing and reports
      no change. */
  lemma {:induction false} LinuxRemoteBuildIdempotent(m: Settings, doRemoteBuild: Maybe<bool>, isConsumption: bool)
    ensures var once := LinuxRemoteBuild(m, doRemoteBuild, isConsumption).settings;
      LinuxRemoteBuild(once, doRemoteBuild, isConsumption) == Change(once, false)
  {
    var d := IsSet(doRemoteBuild);
    var once := LinuxRemoteBuild(m, doRemoteBuild, isConsumption).settings;
    var twice := LinuxRemoteBuild(once, doRemoteBuild, isConsumption).settings;
    forall k
      ensures Lookup(twice, k) == Lookup(once, k)
    {
      DedicatedSettingsValues(k);
      assert Lookup(once, k) == LinuxBuildValue(m, k, d, isConsumption);
      assert Lookup(twice, k) == LinuxBuildValue(once, k, d, isConsumption);
    }
    SettingsExtensionality(twice, once);
  }

  /** On a remote build for a dedicated plan the run-from-package keys end
      without a value and the four build keys end with their required
      values. */
  lemma RemoteBuildOnDedicatedPlan(m: Settings)
    ensures var r := LinuxRemoteBuild(m, Defined(true), false).settings;
      && !TruthyAt(r, "WEBSITE_RUN_FROM_ZIP") && !TruthyAt(r, "WEBSITE_RUN_FROM_PACKAGE")
      && Lookup(r, "ENABLE_ORYX_BUILD") == Defined("true")
      && Lookup(r, "SCM_DO_BUILD_DURING_DEPLOYMENT") == Defined("1")
      && Lookup(r, "BUILD_FLAGS") == Defined("UseExpressBuild")
      && Lookup(r, "XDG_CACHE_HOME") == Defined("/tmp/.cache")
  {
    var r := LinuxRemoteBuild(m, Defined(true), false).settings;
    assert Lookup(r, "WEBSITE_RUN_FROM_ZIP") == LinuxBuildValue(m, "WEBSITE_RUN_FROM_ZIP", true, false);
    assert Lookup(r, "WEBSITE_RUN_FROM_PACKAGE") == LinuxBuildValue(m, "WEBSITE_RUN_FROM_PACKAGE", true, false);
    assert Lookup(r, "ENABLE_ORYX_BUILD") == LinuxBuildValue(m, "ENABLE_ORYX_BUILD", true, false);
    assert Lookup(r, "SCM_DO_BUILD_DURING_DEPLOYMENT") == LinuxBuildValue(m, "SCM_DO_BUILD_DURING_DEPLOYMENT", true, false);
    assert Lookup(r, "BUILD_FLAGS") == LinuxBuildValue(m, "BUILD_FLAGS", true, false);
    assert Lookup(r, "XDG_CACHE_HOME") == LinuxBuildValue(m, "XDG_CACHE_HOME", true, false);
  }

  /** Without a remote build, a key holding the empty string is never
      deleted. */
  lemma EmptyValuesKept(m: Settings, doRemoteBuild: Maybe<bool>, isConsumption: bool, k: string)
    requires Lookup(m, k) == Defined("")
    requires !IsSet(doRemoteBuild)
    ensures Lookup(LinuxRemoteBuild(m, doRemoteBuild, isConsumption).settings, k) == Defined("")
  {
    assert Lookup(LinuxRemoteBuild(m, doRemoteBuild, isConsumption).settings, k) == LinuxBuildValue(m, k, false, isConsumption);
  }

  /** On a consumption plan without a remote build, nothing is touched. */
  lemma ConsumptionWithoutRemoteBuildIsIdentity(m: Settings, doRemoteBuild: Maybe<bool>)
    requires !IsSet(doRemoteBuild)
    ensures LinuxRemoteBuild(m, doRemoteBuild, true) == Change(m, false)
  {
    var r := LinuxRemoteBuild(m, doRemoteBuild, true).settings;
    forall k
      ensures Lookup(r, k) == Lookup(m, k)
    {
      assert Lookup(r, k) == LinuxBuildValue(m, k, false, true);
    }
    SettingsExtensionality(r, m);
  }

  // ---------------------------------------------------------------------
  // verifyVersionAndLanguage

  /** Why a deployment stops: the runtimes are incompatible, or the user
      dismissed a modal warning. */
  datatype DeployError = IncompatibleRuntime | UserCancelled

  /** The helpers of the settings and version modules this code calls:
      `isKnownWorkerRuntime`, `promptToUpdateDotnetRuntime` and
      `tryParseFuncVersion`. */
  datatype RuntimeHelpers = RuntimeHelpers(
    isKnownWorkerRuntime: Maybe<string> -> bool,
    promptToUpdateDotnetRuntime: (Maybe<string>, Maybe<string>) -> bool,
    tryParseFuncVersion: Maybe<string> -> Maybe<FuncVersion>)

  /** The user's answers to the modal dialogs of a deployment. */
  datatype DeployChoices = DeployChoices(
    overwrite: OverwriteAnswer,
    updateAndDeploy: bool,
    deployAnyway: bool)

  /** A step that edits the dictionary and may throw. */
  datatype Checked = Checked(settings: Settings, error: Maybe<DeployError>)

  /** The remote and local worker runtimes are both known and differ, for a
      project on a runtime version other than 1. */
  predicate RuntimeMismatch(m: Settings, hc: HostConstants, localVersion: FuncVersion, localRuntime: Maybe<string>, h: RuntimeHelpers) {
    var azureRuntime := Lookup(m, hc.workerRuntimeKey);
    localVersion != V1 && h.isKnownWorkerRuntime(azureRuntime) && h.isKnownWorkerRuntime(localRuntime) && azureRuntime != localRuntime
  }

  /** `verifyVersionAndLanguage`: a runtime mismatch either throws, or, for a
      dotnet runtime update the user accepts, rewrites the remote runtime to
      the local one; a set remote version that differs from the local one
      asks the user to deploy anyway. */
  function VersionAndLanguage(m: Settings, hc: HostConstants, localVersion: FuncVersion, localRuntime: Maybe<string>, h: RuntimeHelpers, choices: DeployChoices): (r: Checked)
    ensures SameExcept(r.settings, m, {hc.workerRuntimeKey})
    ensures r.settings != m ==> RuntimeMismatch(m, hc, localVersion, localRuntime, h) && Lookup(r.settings, hc.workerRuntimeKey) == localRuntime
    ensures Lookup(r.settings, hc.workerRuntimeKey) != Lookup(m, hc.workerRuntimeKey) <==>
      RuntimeMismatch(m, hc, localVersion, localRuntime, h)
      && h.promptToUpdateDotnetRuntime(Lookup(m, hc.workerRuntimeKey), localRuntime) && choices.updateAndDeploy
    ensures r.error == Defined(IncompatibleRuntime) <==>
      RuntimeMismatch(m, hc, localVersion, localRuntime, h) && !h.promptToUpdateDotnetRuntime(Lookup(m, hc.workerRuntimeKey), localRuntime)
    ensures r.error == Defined(IncompatibleRuntime) ==> r.settings == m
  {
    var azureRuntime := Lookup(m, hc.workerRuntimeKey);
    var rawAzureVersion := Lookup(m, hc.extensionVersionKey);
    var mismatch := RuntimeMismatch(m, hc, localVersion, localRuntime, h);
    if mismatch && !h.promptToUpdateDotnetRuntime(azureRuntime, localRuntime) then
      Checked(m, Defined(IncompatibleRuntime))
    else if mismatch && !choices.updateAndDeploy then
      Checked(m, Defined(UserCancelled))
    else
      var updated := if mismatch then Assign(m, hc.workerRuntimeKey, localRuntime) else m;
      if Truthy(rawAzureVersion) && h.tryParseFuncVersion(rawAzureVersion) != Defined(localVersion) && !choices.deployAnyway then
        Checked(updated, Defined(UserCancelled))
      else
        Checked(updated, Undefined)
  }

  /** `verifyVersionAndLanguage`, editing the dictionary in place. */
  method VerifyVersionAndLanguage(remote: RemoteProperties, hc: HostConstants, localVersion: FuncVersion, localRuntime: Maybe<string>, h: RuntimeHelpers, choices: DeployChoices)
    returns (error: Maybe<DeployError>)
    modifies remote
    ensures Checked(remote.properties, error) == VersionAndLanguage(old(remote.properties), hc, localVersion, localRuntime, h, choices)
  {
    var rawAzureVersion := Lookup(remote.properties, hc.extensionVersionKey);
    var azureVersion := h.tryParseFuncVersion(rawAzureVersion);
    var azureWorkerRuntime := Lookup(remote.properties, hc.workerRuntimeKey);
    if localVersion != V1 && h.isKnownWorkerRuntime(azureWorkerRuntime) && h.isKnownWorkerRuntime(localRuntime) && azureWorkerRuntime != localRuntime {
      if h.promptToUpdateDotnetRuntime(azureWorkerRuntime, localRuntime) {
        if !choices.updateAndDeploy {
          return Defined(UserCancelled);
        }
        remote.properties := Assign(remote.properties, hc.workerRuntimeKey, localRuntime);
      } else {
        return Defined(IncompatibleRuntime);
      }
    }
    if Truthy(rawAzureVersion) && azureVersion != Defined(localVersion) && !choices.deployAnyway {
      return Defined(UserCancelled);
    }
    return Undefined;
  }

  // ---------------------------------------------------------------------
  // verifyAppSettings

  /** The plan flags of a deployment. */
  datatype BuildFlags = BuildFlags(doRemoteBuild: Maybe<bool>, isConsumption: bool)

  /** Everything a deployment knows besides the remote dictionary. */
  datatype Deployment = Deployment(
    isLinux: bool,
    bools: BuildFlags,
    durable: Maybe<DurableBackend>,
    localVersion: FuncVersion,
    localRuntime: Maybe<string>,
    local: LocalConnections,
    choices: DeployChoices,
    hc: HostConstants,
    h: RuntimeHelpers)

  /** What `verifyAppSettings` leaves: the edited dictionary, whether it was
      sent back to the app, and the error it threw, if any. */
  datatype Reconciled = Reconciled(settings: Settings, pushed: bool, error: Maybe<DeployError>)

  /** `verifyAppSettings` on the listed dictionary: version and runtime
      first; a changed runtime counts as a change; then the Linux build
      settings (always evaluated) or run-from-package; then the connection
      strings, whose local-or-remote question stops the deployment when it
      is dismissed; each `||=` skips its right side once a change is known,
      and with it that question. */
  function Reconcile(m: Settings, d: Deployment): (r: Reconciled)
    ensures r.pushed ==> r.error == Undefined
    ensures r.error == Defined(IncompatibleRuntime) ==> r.settings == m
  {
    var v := VersionAndLanguage(m, d.hc, d.localVersion, d.localRuntime, d.h, d.choices);
    if v.error.Defined? then Reconciled(v.settings, false, v.error)
    else
      var runtimeChanged := Lookup(v.settings, d.hc.workerRuntimeKey) != Lookup(m, d.hc.workerRuntimeKey);
      var platform :=
        if d.isLinux then
          var linux := LinuxRemoteBuild(v.settings, d.bools.doRemoteBuild, d.bools.isConsumption);
          Change(linux.settings, runtimeChanged || linux.changed)
        else if runtimeChanged then Change(v.settings, true)
        else RunFromPackage(v.settings, d.hc.runFromPackageKey);
      if platform.changed then Reconciled(platform.settings, true, Undefined)
      else if d.choices.overwrite == Dismissed then Reconciled(platform.settings, false, Defined(UserCancelled))
      else
        var final := ConnectionStrings(platform.settings, d.durable, d.choices.overwrite == LocalAnswer, d.local, d.hc);
        Reconciled(final.settings, final.changed, Undefined)
  }

  /** `verifyAppSettings`: `remote` is null when the listing has no
      properties, and then nothing happens. */
  method VerifyAppSettingsOf(remote: RemoteProperties?, d: Deployment)
    returns (pushed: bool, error: Maybe<DeployError>)
    modifies remote
    ensures remote == null ==> !pushed && error == Undefined
    ensures remote != null ==> Reconciled(remote.properties, pushed, error) == Reconcile(old(remote.properties), d)
  {
    pushed, error := false, Undefined;
    if remote != null {
      var remoteRuntime := Lookup(remote.properties, d.hc.workerRuntimeKey);
      error := VerifyVersionAndLanguage(remote, d.hc, d.localVersion, d.localRuntime, d.h, d.choices);
      if error.Defined? {
        return;
      }
      var updateAppSettings := Lookup(remote.properties, d.hc.workerRuntimeKey) != remoteRuntime;
      if d.isLinux {
        var remoteBuildSettingsChanged := VerifyLinuxRemoteBuildSettings(remote, d.bools.doRemoteBuild, d.bools.isConsumption);
        updateAppSettings := updateAppSettings || remoteBuildSettingsChanged;
      } else if !updateAppSettings {
        updateAppSettings := VerifyRunFromPackage(remote, d.hc.runFromPackageKey);
      }
      if !updateAppSettings {
        updateAppSettings, error := VerifyConnectionStrings(remote, d.durable, d.choices.overwrite, d.local, d.hc);
      }
      pushed := updateAppSettings;
    }
  }

  /** Settings are left exactly as listed whenever they are not sent back
      and no error stopped the deployment. */
  lemma NotPushedMeansUnchanged(m: Settings, d: Deployment)
    requires var r := Reconcile(m, d); !r.pushed && r.error == Undefined
    ensures Reconcile(m, d).settings == m
  {
    var v := VersionAndLanguage(m, d.hc, d.localVersion, d.localRuntime, d.h, d.choices);
    assert Lookup(v.settings, d.hc.workerRuntimeKey) == Lookup(m, d.hc.workerRuntimeKey);
    forall k
      ensures Lookup(v.settings, k) == Lookup(m, k)
    {
    }
    SettingsExtensionality(v.settings, m);
  }

  /** Dismissing the local-or-remote question ends a deployment that got
      past the version check either with a push, when an earlier step had
      already changed something and the question was never asked, or with
      `UserCancelled` and nothing pushed. */
  lemma DismissedOverwriteStops(m: Settings, d: Deployment)
    requires d.choices.overwrite == Dismissed
    ensures var r := Reconcile(m, d); r.pushed <==> r.error == Undefined
    ensures var r := Reconcile(m, d);
      VersionAndLanguage(m, d.hc, d.localVersion, d.localRuntime, d.h, d.choices).error == Undefined && !r.pushed ==>
        r.error == Defined(UserCancelled)
  {
  }

  /** A local storage connection equal to the emulator's is never pushed:
      whatever else changes, the remote storage connection keeps its value. */
  lemma EmulatorNeverPushed(m: Settings, d: Deployment)
    requires d.hc.DistinctKeys()
    requires d.local.storage == Defined(d.hc.localStorageEmulatorConnectionString)
    ensures Lookup(Reconcile(m, d).settings, StorageConnectionKey) == Lookup(m, StorageConnectionKey)
  {
    var v := VersionAndLanguage(m, d.hc, d.localVersion, d.localRuntime, d.h, d.choices);
    assert Lookup(v.settings, StorageConnectionKey) == Lookup(m, StorageConnectionKey);
    if v.error == Undefined {
      var linux := LinuxRemoteBuild(v.settings, d.bools.doRemoteBuild, d.bools.isConsumption);
      assert StorageConnectionKey !in LinuxBuildKeys;
      assert Lookup(linux.settings, StorageConnectionKey) == Lookup(m, StorageConnectionKey);
      var rfp := RunFromPackage(v.settings, d.hc.runFromPackageKey);
      assert Lookup(rfp.settings, StorageConnectionKey) == Lookup(m, StorageConnectionKey);
      EmulatorStorageNeverPushed(linux.settings, d.durable, d.choices.overwrite == LocalAnswer, d.local, d.hc);
      EmulatorStorageNeverPushed(rfp.settings, d.durable, d.choices.overwrite == LocalAnswer, d.local, d.hc);
      EmulatorStorageNeverPushed(v.settings, d.durable, d.choices.overwrite == LocalAnswer, d.local, d.hc);
    }
  }

  /** Once the runtime has been rewritten, the `||=` chain skips
      run-from-package and the connection strings on a Windows app: only the
      runtime setting differs, and the settings are pushed. */
  lemma RuntimeChangeSkipsRest(m: Settings, d: Deployment)
    requires !d.isLinux
    requires var v := VersionAndLanguage(m, d.hc, d.localVersion, d.localRuntime, d.h, d.choices);
      v.error == Undefined && Lookup(v.settings, d.hc.workerRuntimeKey) != Lookup(m, d.hc.workerRuntimeKey)
    ensures var r := Reconcile(m, d);
      && r.pushed
      && SameExcept(r.settings, m, {d.hc.workerRuntimeKey})
      && Lookup(r.settings, d.hc.workerRuntimeKey) == d.localRuntime
  {
  }

  /** A deployment pushes only settings that differ from the listed ones in
      the runtime, the six Linux build keys, run-from-package and the two
      connection keys. */
  lemma OnlyKnownKeysChange(m: Settings, d: Deployment)
    ensures SameExcept(Reconcile(m, d).settings, m,
      LinuxBuildKeys + {d.hc.workerRuntimeKey, d.hc.runFromPackageKey, EventHubConnectionKey, StorageConnectionKey})
  {
  }
}
