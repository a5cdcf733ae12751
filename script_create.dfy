/** ScriptFunctionCreateStep: the script file each language opens, the
    trigger binding filled from the prompted settings, the files written,
    and the npm install for a new durable backend. */
module ScriptCreation {
  import opened Base
  import opened FunctionCreation

  /** `getScriptFileNameFromLanguage`. */
  function ScriptFileName(language: ProjectLanguage): (r: Maybe<string>)
    ensures r.Undefined? <==> language == CSharp || language == FSharp || language == OtherLanguage
    ensures r.Defined? ==> |r.value| > 0
  {
    match language
    case CSharpScript => Defined("run.csx")
    case FSharpScript => Defined("run.fsx")
    case JavaScript => Defined("index.js")
    case PowerShell => Defined("run.ps1")
    case Python => Defined("__init__.py")
    case TypeScript => Defined("index.ts")
    case _ => Undefined
  }

  /** No two languages share a script file. */
  lemma ScriptFileNamesDistinct(a: ProjectLanguage, b: ProjectLanguage)
    requires ScriptFileName(a).Defined? && ScriptFileName(a) == ScriptFileName(b)
    ensures a == b
  {
    var n := ScriptFileName(a).value;
    assert n[|n| - 1] == '1' ==> n == "run.ps1";
  }

  /** The trigger binding of a template, when the index names a binding. */
  function TriggerBinding(template: FunctionTemplate): (r: Maybe<map<string, Json>>)
    ensures r.Defined? <==>
      template.functionJson.triggerIndex.Defined? && template.functionJson.triggerIndex.value < |template.functionJson.data.bindings|
  {
    var index := template.functionJson.triggerIndex;
    if index.Defined? && index.value < |template.functionJson.data.bindings|
    then Defined(template.functionJson.data.bindings[index.value])
    else Undefined
  }

  /** The settings loop over the trigger binding: each setting in turn
      writes its value under its own (not lower-cased) name; an undefined
      value leaves no key, as in the JSON written out. */
  function FillBinding(binding: map<string, Json>, settings: seq<BindingSetting>, bindings: map<string, BindingValue>)
    : map<string, Json>
  {
    if settings == [] then binding
    else
      var last := settings[|settings| - 1];
      Assign(FillBinding(binding, settings[..|settings| - 1], bindings), last.name, BindingJson(ReadBinding(bindings, last)))
  }

  /** Whether no two settings share a name. */
  predicate DistinctNames(settings: seq<BindingSetting>) {
    forall i, j :: 0 <= i < j < |settings| ==> settings[i].name != settings[j].name
  }

  /** After the loop each setting's key holds that setting's value, and keys
      that name no setting are as the template had them. */
  lemma {:induction false} FillBindingMeaning(binding: map<string, Json>, settings: seq<BindingSetting>, bindings: map<string, BindingValue>)
    requires DistinctNames(settings)
    ensures forall i :: 0 <= i < |settings| ==>
      Lookup(FillBinding(binding, settings, bindings), settings[i].name) == BindingJson(ReadBinding(bindings, settings[i]))
    ensures forall k :: (forall i :: 0 <= i < |settings| ==> settings[i].name != k) ==>
      Lookup(FillBinding(binding, settings, bindings), k) == Lookup(binding, k)
  {
    if settings != [] {
      var front := settings[..|settings| - 1];
      assert DistinctNames(front) by {
        forall i, j | 0 <= i < j < |front| ensures front[i].name != front[j].name {
          assert front[i] == settings[i] && front[j] == settings[j];
        }
      }
      FillBindingMeaning(binding, front, bindings);
      forall i | 0 <= i < |settings| - 1
        ensures Lookup(FillBinding(binding, settings, bindings), settings[i].name) == BindingJson(ReadBinding(bindings, settings[i]))
      {
        assert front[i] == settings[i];
      }
      forall k | forall i :: 0 <= i < |settings| ==> settings[i].name != k
        ensures Lookup(FillBinding(binding, settings, bindings), k) == Lookup(binding, k)
      {
        forall i | 0 <= i < |front| ensures front[i].name != k {
          assert front[i] == settings[i];
        }
      }
    }
  }

  /** The function.json written: the template's, with the trigger binding
      filled in. */
  function FilledFunctionJson(template: FunctionTemplate, bindings: map<string, BindingValue>): (r: FunctionJson)
    requires TriggerBinding(template).Defined?
    ensures r.others == template.functionJson.data.others
    ensures |r.bindings| == |template.functionJson.data.bindings|
    ensures forall i :: 0 <= i < |r.bindings| && i != template.functionJson.triggerIndex.value ==>
      r.bindings[i] == template.functionJson.data.bindings[i]
    ensures r.bindings[template.functionJson.triggerIndex.value] ==
      FillBinding(TriggerBinding(template).value, template.userPromptedSettings, bindings)
  {
    var data := template.functionJson.data;
    var index := template.functionJson.triggerIndex.value;
    data.(bindings := data.bindings[index := FillBinding(data.bindings[index], template.userPromptedSettings, bindings)])
  }

  /** A file the step writes. */
  datatype WrittenFile = TextFile(text: string) | FunctionJsonFile(json: FunctionJson)

  /** The template files, each under the function folder. */
  function TemplateFiles(functionPath: FsPath, files: map<string, string>): (r: map<FsPath, WrittenFile>)
    ensures forall f :: f in files ==> Join(functionPath, f) in r && r[Join(functionPath, f)] == TextFile(files[f])
    ensures forall p :: p in r ==> p.Join? && p.parent == functionPath && p.name in files
  {
    map f | f in files :: Join(functionPath, f) := TextFile(files[f])
  }

  /** The install commands for a new durable backend. */
  function ScriptInstallCommands(projectPath: string, newBackend: Maybe<DurableBackend>): (r: seq<Command>)
    ensures newBackend.Undefined? <==> r == []
    ensures r != [] ==> r == [Command(projectPath, "npm", ["install", "durable-functions"])]
  {
    if newBackend.Defined? then [Command(projectPath, "npm", ["install", "durable-functions"])] else []
  }

  /** ScriptFunctionCreateStep. */
  class ScriptFunctionCreateStep {
    constructor () {}

    /** The settings loop of `executeCore`. */
    method FillTriggerBinding(ctx: FunctionWizardContext, binding: map<string, Json>, settings: seq<BindingSetting>)
      returns (filled: map<string, Json>)
      ensures filled == FillBinding(binding, settings, ctx.bindingSettings)
    {
      filled := binding;
      for i := 0 to |settings|
        invariant filled == FillBinding(binding, settings[..i], ctx.bindingSettings)
      {
        var value := ctx.GetBindingSetting(settings[i]);
        filled := Assign(filled, settings[i].name, BindingJson(value));
        assert settings[..i + 1][..i] == settings[..i];
      }
      assert settings[..|settings|] == settings;
    }

    /** `_installDependenciesIfNeeded`: a failure is only logged. */
    method InstallDependenciesIfNeeded(ctx: FunctionWizardContext) returns (issued: seq<Command>)
      ensures issued == ScriptInstallCommands(ctx.projectPath, ctx.newDurableStorageType)
    {
      issued := [];
      if ctx.newDurableStorageType.Defined? {
        issued := issued + [Command(ctx.projectPath, "npm", ["install", "durable-functions"])];
      }
    }

    /** `executeCore`. The function name and the template must be set (before
        anything is written); the template files are written into the
        function folder; a missing trigger binding throws after that; then
        function.json (named `functionJsonFileName`) is written with the
        trigger binding filled in, the install runs, and only then must the
        language be set. The result is the language's script file in the
        function folder, or function.json when the language has none. */
    method ExecuteCore(ctx: FunctionWizardContext, functionJsonFileName: string)
      returns (written: map<FsPath, WrittenFile>, installed: seq<Command>, r: Outcome<FsPath>)
      ensures ctx.functionName.Undefined? ==> r == Thrown(MissingValue("functionName")) && written == map[] && installed == []
      ensures ctx.functionName.Defined? && ctx.functionTemplate.Undefined? ==>
        r == Thrown(MissingValue("functionTemplate")) && written == map[] && installed == []
      ensures ctx.functionName.Defined? && ctx.functionTemplate.Defined? ==>
        var functionPath := Join(Dir(ctx.projectPath), ctx.functionName.value);
        var template := ctx.functionTemplate.value;
        var jsonPath := Join(functionPath, functionJsonFileName);
        && (TriggerBinding(template).Undefined? ==>
              r == Thrown(MissingValue("triggerBinding")) && written == TemplateFiles(functionPath, template.templateFiles)
              && installed == [])
        && (TriggerBinding(template).Defined? ==>
              && written == TemplateFiles(functionPath, template.templateFiles)[jsonPath := FunctionJsonFile(FilledFunctionJson(template, ctx.bindingSettings))]
              && installed == ScriptInstallCommands(ctx.projectPath, ctx.newDurableStorageType)
              && r == if ctx.language.Undefined? then Thrown(MissingValue("language"))
                      else if ScriptFileName(ctx.language.value).Defined? then Ok(Join(functionPath, ScriptFileName(ctx.language.value).value))
                      else Ok(jsonPath))
      ensures r.Ok? ==> r.value.Join? && r.value.parent == Join(Dir(ctx.projectPath), ctx.functionName.value)
    {
      written, installed := map[], [];
      if ctx.functionName.Undefined? {
        return written, installed, Thrown(MissingValue("functionName"));
      }
      var functionPath := Join(Dir(ctx.projectPath), ctx.functionName.value);
      if ctx.functionTemplate.Undefined? {
        return written, installed, Thrown(MissingValue("functionTemplate"));
      }
      var template := ctx.functionTemplate.value;
      written := TemplateFiles(functionPath, template.templateFiles);
      var trigger := TriggerBinding(template);
      if trigger.Undefined? {
        return written, installed, Thrown(MissingValue("triggerBinding"));
      }
      var filled := FillTriggerBinding(ctx, trigger.value, template.userPromptedSettings);
      var data := template.functionJson.data;
      var functionJson := data.(bindings := data.bindings[template.functionJson.triggerIndex.value := filled]);
      assert functionJson == FilledFunctionJson(template, ctx.bindingSettings);
      var jsonPath := Join(functionPath, functionJsonFileName);
      written := written[jsonPath := FunctionJsonFile(functionJson)];
      installed := InstallDependenciesIfNeeded(ctx);
      if ctx.language.Undefined? {
        return written, installed, Thrown(MissingValue("language"));
      }
      var fileName := ScriptFileName(ctx.language.value);
      if fileName.Defined? {
        r := Ok(Join(functionPath, fileName.value));
      } else {
        r := Ok(jsonPath);
      }
    }
  }
}
