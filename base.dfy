/** Values shared by every part of the model: JavaScript's optional values and
    truthiness, the enumerations of the constants module, JSON documents and
    file paths. */
module Base {

  /** A JavaScript value that may be `undefined`. */
  datatype Maybe<+T> = Undefined | Defined(value: T) {
    function GetOr(default: T): T {
      if Defined? then value else default
    }
  }

  /** `a ?? b`: the first value unless it is undefined. */
  function Coalesce<T>(a: Maybe<T>, b: Maybe<T>): Maybe<T> {
    if a.Defined? then a else b
  }

  /** `!!s` for an optional string: set and not the empty string. */
  predicate Truthy(s: Maybe<string>) {
    s.Defined? && s.value != ""
  }

  /** `!!n` for an optional number: set and not 0. */
  predicate TruthyNumber(n: Maybe<int>) {
    n.Defined? && n.value != 0
  }

  /** Reading `m[k]` from a dictionary. */
  function Lookup<K, V>(m: map<K, V>, k: K): Maybe<V> {
    if k in m then Defined(m[k]) else Undefined
  }

  /** `!!m[k]` for a dictionary of strings. */
  predicate TruthyAt(m: map<string, string>, k: string) {
    k in m && m[k] != ""
  }

  /** Writing `m[k] = v` where `v` may be undefined: an undefined value is
      dropped when the object is serialised, so it is modelled as an absent key. */
  function Assign<V>(m: map<string, V>, k: string, v: Maybe<V>): (r: map<string, V>)
    ensures Lookup(r, k) == v
    ensures forall other :: other != k ==> Lookup(r, other) == Lookup(m, other)
  {
    if v.Defined? then m[k := v.value] else m - {k}
  }

  /** ConnectionType of the constants module. Its five values are distinct,
      non-empty strings, so a set value is always truthy. */
  datatype ConnectionType = Azure | NonAzure | Emulator | None | Skip

  /** DurableBackend of the constants module. */
  datatype DurableBackend = Storage | Netherite | SQL

  /** The value a backend has in host.json's `storageProvider.type`. The
      Netherite and SQL values are the literals FunctionCreateStepBase.ts writes;
      the Storage value only needs to differ from them. */
  function BackendTypeName(b: DurableBackend): (r: string)
    ensures b == Netherite <==> r == "Netherite"
    ensures b == SQL <==> r == "mssql"
  {
    match b
    case Storage => "AzureStorage"
    case Netherite => "Netherite"
    case SQL => "mssql"
  }

  /** ProjectLanguage of the constants module; `OtherLanguage` is every other value. */
  datatype ProjectLanguage =
    | CSharp | CSharpScript | FSharp | FSharpScript
    | JavaScript | TypeScript | PowerShell | Python | OtherLanguage

  /** FuncVersion, the Functions runtime versions. */
  datatype FuncVersion = V1 | V2 | V3 | V4

  /** Well-known setting names of `ConnectionKey` (local.settings.json and the
      remote application settings). */
  const StorageConnectionKey: string := "AzureWebJobsStorage"
  const EventHubConnectionKey: string := "EventHubsConnection"
  const SqlConnectionKey: string := "SQLDB_Connection"

  /** Constants whose values are not part of this model: the three remote
      setting names and the emulator connection strings of the constants
      module (the source imports two differently spelled event-hub emulator
      constants), and the event-hubs setting name of the local-settings
      module. */
  datatype HostConstants = HostConstants(
    workerRuntimeKey: string,
    extensionVersionKey: string,
    runFromPackageKey: string,
    localStorageEmulatorConnectionString: string,
    localEventHubsEmulatorConnectionString: string,
    localEventHubEmulatorConnectionString: string,
    eventHubsConnectionKey: string)
  {
    /** The remote setting names differ from each other and from the
        connection keys, as the real constants do. */
    predicate DistinctKeys() {
      && workerRuntimeKey != extensionVersionKey
      && workerRuntimeKey != runFromPackageKey
      && extensionVersionKey != runFromPackageKey
      && workerRuntimeKey !in {StorageConnectionKey, EventHubConnectionKey, SqlConnectionKey}
      && runFromPackageKey !in {StorageConnectionKey, EventHubConnectionKey, SqlConnectionKey}
    }
  }

  /** A parsed JSON document. */
  datatype Json =
    | JNull
    | JBool(b: bool)
    | JNumber(n: int)
    | JString(s: string)
    | JArray(items: seq<Json>)
    | JObject(members: map<string, Json>)

  /** JavaScript truthiness of a JSON value. */
  predicate JsonTruthy(j: Json) {
    match j
    case JNull => false
    case JBool(b) => b
    case JNumber(n) => n != 0
    case JString(s) => s != ""
    case JArray(_) => true
    case JObject(_) => true
  }

  /** `!!v` for a value that may be undefined. */
  predicate MaybeJsonTruthy(v: Maybe<Json>) {
    v.Defined? && JsonTruthy(v.value)
  }

  /** Optional chaining `v?.key`: undefined unless `v` is an object holding `key`. */
  function Member(v: Maybe<Json>, key: string): (r: Maybe<Json>)
    ensures r.Defined? ==> v.Defined? && v.value.JObject? && key in v.value.members
  {
    if v.Defined? && v.value.JObject? then Lookup(v.value.members, key) else Undefined
  }

  /** An Azure resource as the management SDK returns it (namespace, resource
      group, server, database); `id` and `name` are optional there. */
  datatype Resource = Resource(id: Maybe<string>, name: Maybe<string>)

  /** The name of an optional resource, `r?.name`. */
  function NameOf(r: Maybe<Resource>): Maybe<string> {
    if r.Defined? then r.value.name else Undefined
  }

  /** A file path built by `path.join`. */
  datatype FsPath = Dir(path: string) | Join(parent: FsPath, name: string)

  /** A child process command line, run in `workingDirectory`. */
  datatype Command = Command(workingDirectory: string, program: string, args: seq<string>)

  /** Why an operation threw: an empty workspace, a value `nonNullProp` or
      `nonNullValue` found missing, or a document that could not be read or
      edited. */
  datatype Failure = EmptyWorkspace | MissingValue(property: string) | Unreadable

  /** The outcome of an operation that may throw. */
  datatype Outcome<+T> = Ok(value: T) | Thrown(failure: Failure)

  /** A quick-pick entry; `data` is what `showQuickPick` hands back. */
  datatype QuickPick<T> = QuickPick(id: Maybe<string>, caption: Maybe<string>, description: Maybe<string>, data: T)
}
