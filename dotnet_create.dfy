/** DotnetFunctionCreateStep: the `dotnet new` arguments built from the
    prompted binding settings, the NuGet installs for a new durable backend,
    and the path of the created file. */
module DotnetCreation {
  import opened Base
  import opened Text
  import opened FunctionCreation

  /** The argument pair for one prompted setting: none when its value reads
      as undefined (an empty string still counts). */
  function SettingPair(bindings: map<string, BindingValue>, setting: BindingSetting, quote: BindingValue -> string): seq<string> {
    var value := ReadBinding(bindings, setting);
    if value.Defined? then ["--arg:" + setting.name, quote(value.value)] else []
  }

  /** The number of settings whose value reads as defined. */
  function DefinedCount(bindings: map<string, BindingValue>, settings: seq<BindingSetting>): nat {
    if settings == [] then 0
    else DefinedCount(bindings, settings[..|settings| - 1])
         + (if ReadBinding(bindings, settings[|settings| - 1]).Defined? then 1 else 0)
  }

  /** The arguments the settings loop appends, in setting order. */
  function SettingArgs(bindings: map<string, BindingValue>, settings: seq<BindingSetting>, quote: BindingValue -> string): (r: seq<string>)
    ensures |r| == 2 * DefinedCount(bindings, settings)
  {
    if settings == [] then []
    else SettingArgs(bindings, settings[..|settings| - 1], quote) + SettingPair(bindings, settings[|settings| - 1], quote)
  }

  /** Every required setting contributes its pair, so with only required
      settings there are exactly two arguments per setting. */
  lemma {:induction false} RequiredSettingsAllPassed(bindings: map<string, BindingValue>, settings: seq<BindingSetting>)
    requires forall i :: 0 <= i < |settings| ==> settings[i].required
    ensures DefinedCount(bindings, settings) == |settings|
  {
    if settings != [] {
      RequiredSettingsAllPassed(bindings, settings[..|settings| - 1]);
    }
  }

  /** The arguments of the first `n` settings are a prefix of the arguments
      of all settings: later settings only append. */
  lemma {:induction false} SettingArgsPrefix(bindings: map<string, BindingValue>, settings: seq<BindingSetting>, n: nat, quote: BindingValue -> string)
    requires n <= |settings|
    ensures SettingArgs(bindings, settings[..n], quote) <= SettingArgs(bindings, settings, quote)
    decreases |settings|
  {
    if n < |settings| {
      var front := settings[..|settings| - 1];
      assert settings[..n] == front[..n];
      SettingArgsPrefix(bindings, front, n, quote);
    } else {
      assert settings[..n] == settings;
    }
  }

  /** The leading name and namespace arguments. */
  function NameArgs(functionName: string, namespace: string, quote: BindingValue -> string): seq<string> {
    ["--arg:name", quote(BString(functionName)), "--arg:namespace", quote(BString(namespace))]
  }

  /** One `executeDotnetTemplateCommand` call. */
  datatype TemplateCommand = TemplateCommand(
    version: FuncVersion, projectTemplateKey: string, workingDirectory: string, args: seq<string>)

  /** What `executeCore` does on success: the template command, the install
      commands issued, and the path it returns. */
  datatype DotnetRun = DotnetRun(templateCommand: TemplateCommand, installCommands: seq<Command>, newFilePath: FsPath)

  /** The install commands for a new durable backend: the Netherite package
      first for Netherite, then the durable-task extension for any backend;
      none without a new backend. */
  function DotnetInstallCommands(projectPath: string, newBackend: Maybe<DurableBackend>): (r: seq<Command>)
    ensures newBackend.Undefined? <==> r == []
    ensures r != [] ==> r[|r| - 1] == Command(projectPath, "dotnet", ["add", "package", "Microsoft.Azure.WebJobs.Extensions.DurableTask"])
    ensures |r| == 2 <==> newBackend == Defined(Netherite)
  {
    if newBackend.Undefined? then []
    else
      (if newBackend.value == Netherite
       then [Command(projectPath, "dotnet", ["add", "package", "Microsoft.Azure.DurableTask.Netherite.AzureFunctions"])]
       else [])
      + [Command(projectPath, "dotnet", ["add", "package", "Microsoft.Azure.WebJobs.Extensions.DurableTask"])]
  }

  /** DotnetFunctionCreateStep. */
  class DotnetFunctionCreateStep {
    constructor () {}

    /** The settings loop of `executeCore`. */
    method AppendSettingArgs(ctx: FunctionWizardContext, settings: seq<BindingSetting>, quote: BindingValue -> string, front: seq<string>)
      returns (args: seq<string>)
      ensures args == front + SettingArgs(ctx.bindingSettings, settings, quote)
    {
      args := front;
      for i := 0 to |settings|
        invariant args == front + SettingArgs(ctx.bindingSettings, settings[..i], quote)
      {
        var value := ctx.GetBindingSetting(settings[i]);
        if value.Defined? {
          args := args + ["--arg:" + settings[i].name];
          args := args + [quote(value.value)];
        }
        assert settings[..i + 1][..i] == settings[..i];
      }
      assert settings[..|settings|] == settings;
    }

    /** `_installDependenciesIfNeeded`: the commands run one after another
        until one fails, and a failure is only logged. `fails` says which
        commands fail. */
    method InstallDependenciesIfNeeded(ctx: FunctionWizardContext, fails: Command -> bool) returns (issued: seq<Command>)
      ensures issued == IssuedUntilFailure(DotnetInstallCommands(ctx.projectPath, ctx.newDurableStorageType), fails)
    {
      issued := [];
      if ctx.newDurableStorageType.Defined? {
        if ctx.newDurableStorageType.value == Netherite {
          var netherite := Command(ctx.projectPath, "dotnet", ["add", "package", "Microsoft.Azure.DurableTask.Netherite.AzureFunctions"]);
          issued := issued + [netherite];
          if fails(netherite) {
            return;
          }
        }
        var extension := Command(ctx.projectPath, "dotnet", ["add", "package", "Microsoft.Azure.WebJobs.Extensions.DurableTask"]);
        issued := issued + [extension];
      }
    }

    /** `executeCore`. The template, the function name, the namespace and the
        version must be set, in that order, and the language too when the
        context has no truthy project template key (then `providerKey`, the
        template provider's answer, is used). The template command is
        `create --identity <id>` with the name, namespace and setting
        arguments; the returned path is the project path joined with the
        function name and `fileExtension`. */
    method ExecuteCore(ctx: FunctionWizardContext, quote: BindingValue -> string,
                       providerKey: (string, ProjectLanguage, Maybe<FuncVersion>) -> string,
                       fileExtension: string, fails: Command -> bool)
      returns (r: Outcome<DotnetRun>)
      ensures ctx.functionTemplate.Undefined? ==> r == Thrown(MissingValue("functionTemplate"))
      ensures ctx.functionTemplate.Defined? && ctx.functionName.Undefined? ==> r == Thrown(MissingValue("functionName"))
      ensures ctx.functionTemplate.Defined? && ctx.functionName.Defined? && ctx.namespace.Undefined? ==>
        r == Thrown(MissingValue("namespace"))
      ensures ctx.functionTemplate.Defined? && ctx.functionName.Defined? && ctx.namespace.Defined? && ctx.version.Undefined? ==>
        r == Thrown(MissingValue("version"))
      ensures r.Ok? <==>
        ctx.functionTemplate.Defined? && ctx.functionName.Defined? && ctx.namespace.Defined? && ctx.version.Defined?
        && (Truthy(ctx.projectTemplateKey) || ctx.language.Defined?)
      ensures r.Thrown? && ctx.version.Defined? && ctx.namespace.Defined? && ctx.functionName.Defined? && ctx.functionTemplate.Defined? ==>
        r == Thrown(MissingValue("language"))
      ensures r.Ok? ==>
        var key := if Truthy(ctx.projectTemplateKey) then ctx.projectTemplateKey.value
                   else providerKey(ctx.projectPath, ctx.language.value, ctx.version);
        && r.value.templateCommand == TemplateCommand(ctx.version.value, key, ctx.projectPath,
             ["create", "--identity", ctx.functionTemplate.value.id]
             + NameArgs(ctx.functionName.value, ctx.namespace.value, quote)
             + SettingArgs(ctx.bindingSettings, ctx.functionTemplate.value.userPromptedSettings, quote))
        && r.value.installCommands == IssuedUntilFailure(DotnetInstallCommands(ctx.projectPath, ctx.newDurableStorageType), fails)
        && r.value.newFilePath == Join(Dir(ctx.projectPath), ctx.functionName.value + fileExtension)
    {
      if ctx.functionTemplate.Undefined? {
        return Thrown(MissingValue("functionTemplate"));
      }
      var template := ctx.functionTemplate.value;
      if ctx.functionName.Undefined? {
        return Thrown(MissingValue("functionName"));
      }
      var functionName := ctx.functionName.value;
      var args: seq<string> := [];
      args := args + ["--arg:name"];
      args := args + [quote(BString(functionName))];
      args := args + ["--arg:namespace"];
      if ctx.namespace.Undefined? {
        return Thrown(MissingValue("namespace"));
      }
      args := args + [quote(BString(ctx.namespace.value))];
      assert args == NameArgs(functionName, ctx.namespace.value, quote);
      args := AppendSettingArgs(ctx, template.userPromptedSettings, quote, args);
      if ctx.version.Undefined? {
        return Thrown(MissingValue("version"));
      }
      var key := ctx.projectTemplateKey;
      if !Truthy(key) {
        if ctx.language.Undefined? {
          return Thrown(MissingValue("language"));
        }
        key := Defined(providerKey(ctx.projectPath, ctx.language.value, ctx.version));
      }
      var command := TemplateCommand(ctx.version.value, key.value, ctx.projectPath, ["create", "--identity", template.id] + args);
      var installed := InstallDependenciesIfNeeded(ctx, fails);
      r := Ok(DotnetRun(command, installed, Join(Dir(ctx.projectPath), functionName + fileExtension)));
    }
  }

  /** With no durable backend chosen nothing is installed; with Netherite the
      extension package is installed only when the Netherite package
      succeeded. */
  lemma InstallsFollowBackend(projectPath: string, newBackend: Maybe<DurableBackend>, fails: Command -> bool)
    ensures newBackend.Undefined? ==> IssuedUntilFailure(DotnetInstallCommands(projectPath, newBackend), fails) == []
    ensures newBackend == Defined(Netherite) ==>
      var cmds := DotnetInstallCommands(projectPath, newBackend);
      |IssuedUntilFailure(cmds, fails)| == 2 <==> !fails(cmds[0])
    ensures newBackend.Defined? && newBackend != Defined(Netherite) ==>
      IssuedUntilFailure(DotnetInstallCommands(projectPath, newBackend), fails)
        == [Command(projectPath, "dotnet", ["add", "package", "Microsoft.Azure.WebJobs.Extensions.DurableTask"])]
  {
    var cmds := DotnetInstallCommands(projectPath, newBackend);
    if newBackend == Defined(Netherite) {
      assert cmds[1..] == [cmds[1]];
    }
  }
}
