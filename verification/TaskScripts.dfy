/** The script a task runs: the inline file chosen for it, and the files put into the generation's config map. */
module TaskScripts {
  import opened Wrappers
  import opened Tasks

  /** What a task option says about scripts, and the tasks it is for. A script that is not given is empty. */
  datatype TaskOption = TaskOption(tasks: seq<TaskName>, inline: string, source: string,
      configMap: Option<(string, string)>)

  datatype Flavour = Terraform | Tofu

  function DefaultFile(flavour: Flavour): string {
    match flavour
    case Terraform => "default-tf.sh"
    case Tofu => "default-tofu.sh"
  }

  const SETUP_FILE := "default-setup.sh"
  const NOOP_FILE := "default-noop.sh"

  function InlineFile(task: TaskName): string { "inline-" + (task.Text() + ".sh") }

  lemma InlineFileTellsApart(t: TaskName, u: TaskName)
    requires InlineFile(t) == InlineFile(u)
    ensures t == u
  {
    assert InlineFile(t)[7..] == t.Text() + ".sh" && InlineFile(u)[7..] == u.Text() + ".sh";
    assert (t.Text() + ".sh")[..|t.Text()|] == t.Text();
    assert |t.Text()| == |u.Text()|;
    TextTellsApart(t, u);
  }

  // ---------------------------------------------------------------------------------------------
  // Choosing the file

  /** The script settings gathered from the options read so far. */
  datatype Script = Script(source: string, configMapName: string, configMapKey: string, file: string)

  function Gather(options: seq<TaskOption>, task: TaskName): Script {
    if options == [] then Script("", "", "", "")
    else
      var before, o := Gather(options[..|options| - 1], task), options[|options| - 1];
      if task !in o.tasks then before
      else
        Script(o.source,
               if o.configMap.Some? then o.configMap.value.0 else before.configMapName,
               if o.configMap.Some? then o.configMap.value.1 else before.configMapKey,
               if o.inline != "" then InlineFile(task) else before.file)
  }

  predicate RunsTool(t: TaskName) {
    t.RunInit? || t.RunInitDelete? || t.RunPlan? || t.RunPlanDelete? || t.RunApply? || t.RunApplyDelete?
  }

  predicate IsSetup(t: TaskName) { t.RunSetup? || t.RunSetupDelete? }

  function DefaultFor(flavour: Flavour, task: TaskName): string {
    if RunsTool(task) then DefaultFile(flavour)
    else if IsSetup(task) then SETUP_FILE
    else if IsWorkflowTask(task) then NOOP_FILE
    else ""
  }

  function ChosenFile(flavour: Flavour, options: seq<TaskOption>, task: TaskName): string {
    var s := Gather(options, task);
    if s.file == "" && s.source == "" && (s.configMapKey == "" || s.configMapName == "")
    then DefaultFor(flavour, task)
    else s.file
  }

  const TOOL_TASKS: seq<TaskName> := [RunInit, RunInitDelete, RunPlan, RunPlanDelete, RunApply, RunApplyDelete]
  const SETUP_TASKS: seq<TaskName> := [RunSetup, RunSetupDelete]
  const SCRIPT_TASKS: seq<TaskName> := [
    RunPreInit, RunPreInitDelete, RunPostInit, RunPostInitDelete, RunPrePlan, RunPrePlanDelete,
    RunPostPlan, RunPostPlanDelete, RunPreApply, RunPreApplyDelete, RunPostApply, RunPostApplyDelete
  ]

  lemma ToolTasks(t: TaskName)
    ensures t in TOOL_TASKS <==> RunsTool(t)
  {
  }

  lemma SetupTasks(t: TaskName)
    ensures t in SETUP_TASKS <==> IsSetup(t)
  {
  }

  predicate RunsScript(t: TaskName) { IsWorkflowTask(t) && !RunsTool(t) && !IsSetup(t) }

  lemma ScriptTaskAt(k: nat)
    requires k < 12
    ensures |SCRIPT_TASKS| == 12 && RunsScript(SCRIPT_TASKS[k])
  {
    var i: int := k;
    if i < 6 {
      if i == 0 {} else if i == 1 {} else if i == 2 {} else if i == 3 {} else if i == 4 {} else {}
    } else {
      if i == 6 {} else if i == 7 {} else if i == 8 {} else if i == 9 {} else if i == 10 {} else {}
    }
  }

  lemma ScriptTaskListed(t: TaskName)
    requires RunsScript(t)
    ensures t in SCRIPT_TASKS
  {
    assert SCRIPT_TASKS[0] == RunPreInit && SCRIPT_TASKS[1] == RunPreInitDelete && SCRIPT_TASKS[2] == RunPostInit;
    assert SCRIPT_TASKS[3] == RunPostInitDelete && SCRIPT_TASKS[4] == RunPrePlan && SCRIPT_TASKS[5] == RunPrePlanDelete;
    assert SCRIPT_TASKS[6] == RunPostPlan && SCRIPT_TASKS[7] == RunPostPlanDelete && SCRIPT_TASKS[8] == RunPreApply;
    assert SCRIPT_TASKS[9] == RunPreApplyDelete && SCRIPT_TASKS[10] == RunPostApply
      && SCRIPT_TASKS[11] == RunPostApplyDelete;
  }

  lemma ScriptTasks(t: TaskName)
    ensures t in SCRIPT_TASKS <==> RunsScript(t)
  {
    if t in SCRIPT_TASKS {
      var k :| 0 <= k < |SCRIPT_TASKS| && SCRIPT_TASKS[k] == t;
      ScriptTaskAt(k);
    }
    if RunsScript(t) {
      ScriptTaskListed(t);
    }
  }

  method ChooseFile(flavour: Flavour, options: seq<TaskOption>, task: TaskName) returns (file: string)
    ensures file == ChosenFile(flavour, options, task)
  {
    var source, configMapName, configMapKey := "", "", "";
    file := "";
    for i := 0 to |options|
      invariant Script(source, configMapName, configMapKey, file) == Gather(options[..i], task)
    {
      assert options[..i + 1][..i] == options[..i];
      var option := options[i];
      var named := ListContainsTask(option.tasks, task);
      if named {
        source := option.source;
        if option.configMap.Some? {
          configMapName, configMapKey := option.configMap.value.0, option.configMap.value.1;
        }
        if option.inline != "" {
          file := InlineFile(task);
        }
      }
    }
    assert options[..|options|] == options;
    if file == "" && source == "" && (configMapKey == "" || configMapName == "") {
      file := ChooseDefault(flavour, task);
    }
  }

  method ChooseDefault(flavour: Flavour, task: TaskName) returns (file: string)
    ensures file == DefaultFor(flavour, task)
  {
    ToolTasks(task);
    SetupTasks(task);
    ScriptTasks(task);
    var tool := ListContainsTask(TOOL_TASKS, task);
    if tool {
      return DefaultFile(flavour);
    }
    var script := ListContainsTask(SCRIPT_TASKS, task);
    if script {
      return NOOP_FILE;
    }
    var setup := ListContainsTask(SETUP_TASKS, task);
    if setup {
      return SETUP_FILE;
    }
    return "";
  }

  // ---------------------------------------------------------------------------------------------
  // Filling the config map

  function PutInline(data: map<string, string>, tasks: seq<TaskName>, inline: string): map<string, string> {
    if tasks == [] then data
    else
      var before, t := PutInline(data, tasks[..|tasks| - 1], inline), tasks[|tasks| - 1];
      if t == WILDCARD then before else before[InlineFile(t) := inline]
  }

  function PutOptions(data: map<string, string>, options: seq<TaskOption>): map<string, string> {
    if options == [] then data
    else
      var before, o := PutOptions(data, options[..|options| - 1]), options[|options| - 1];
      if o.inline == "" then before else PutInline(before, o.tasks, o.inline)
  }

  /** The contents of the three default scripts. */
  datatype Defaults = Defaults(tool: string, setup: string, noop: string)

  function WithDefaults(flavour: Flavour, data: map<string, string>, defaults: Defaults): map<string, string> {
    data[DefaultFile(flavour) := defaults.tool][SETUP_FILE := defaults.setup][NOOP_FILE := defaults.noop]
  }

  /** Puts one inline script into the data for each of its tasks. */
  method PutScript(before: map<string, string>, tasks: seq<TaskName>, inline: string)
    returns (data: map<string, string>)
    ensures data == PutInline(before, tasks, inline)
  {
    data := before;
    for j := 0 to |tasks|
      invariant data == PutInline(before, tasks[..j], inline)
    {
      assert tasks[..j + 1][..j] == tasks[..j];
      if tasks[j] == WILDCARD {
        continue;
      }
      data := data[InlineFile(tasks[j]) := inline];
    }
    assert tasks[..|tasks|] == tasks;
  }

  const DOWNLOADS_KEY := ".__INFRAKUBE__ResourceDownloads.json"
  const BACKEND_KEY := "backend_override.tf"

  /** What is written last for a changed generation: the downloads and the backend. */
  function WithSetup(data: map<string, string>, downloads: string, backend: string): map<string, string> {
    data[DOWNLOADS_KEY := downloads][BACKEND_KEY := backend]
  }

  /** All data of a changed generation, on top of what it holds for the module. */
  function ConfigMapData(flavour: Flavour, moduleData: map<string, string>, defaults: Defaults,
      options: seq<TaskOption>, downloads: string, backend: string): map<string, string>
  {
    WithSetup(PutOptions(WithDefaults(flavour, moduleData, defaults), options), downloads, backend)
  }

  method FillConfigMap(flavour: Flavour, moduleData: map<string, string>, defaults: Defaults, options: seq<TaskOption>,
      downloads: string, backend: string) returns (data: map<string, string>)
    ensures data == ConfigMapData(flavour, moduleData, defaults, options, downloads, backend)
  {
    data := moduleData;
    data := data[DefaultFile(flavour) := defaults.tool];
    data := data[SETUP_FILE := defaults.setup];
    data := data[NOOP_FILE := defaults.noop];
    ghost var first := data;
    for i := 0 to |options|
      invariant data == PutOptions(first, options[..i])
    {
      assert options[..i + 1][..i] == options[..i];
      if options[i].inline != "" {
        data := PutScript(data, options[i].tasks, options[i].inline);
      }
    }
    assert options[..|options|] == options;
    data := data[DOWNLOADS_KEY := downloads];
    data := data[BACKEND_KEY := backend];
  }

  // ---------------------------------------------------------------------------------------------
  // Files resolve

  predicate GivesInline(o: TaskOption, t: TaskName) { t in o.tasks && o.inline != "" }

  /** The last option with an inline script for the task is the one at `i`. */
  ghost predicate IsLastInline(options: seq<TaskOption>, t: TaskName, i: nat) {
    i < |options| && GivesInline(options[i], t) && forall j :: i < j < |options| ==> !GivesInline(options[j], t)
  }

  lemma {:induction false} PutInlineMeaning(data: map<string, string>, tasks: seq<TaskName>, inline: string)
    ensures var after := PutInline(data, tasks, inline);
      && data.Keys <= after.Keys
      && (forall t :: t in tasks && t != WILDCARD ==> InlineFile(t) in after && after[InlineFile(t)] == inline)
      && forall k :: k in after && (forall t :: t in tasks && t != WILDCARD ==> InlineFile(t) != k) ==>
           k in data && after[k] == data[k]
  {
    if tasks != [] {
      var before, last := tasks[..|tasks| - 1], tasks[|tasks| - 1];
      assert tasks == before + [last];
      PutInlineMeaning(data, before, inline);
    }
  }

  /** What an inline file holds when only `data` and the options can have put it there. */
  ghost predicate Holds(after: map<string, string>, data: map<string, string>, options: seq<TaskOption>, t: TaskName) {
    var key := InlineFile(t);
    && (key in after <==> key in data || exists i: nat :: IsLastInline(options, t, i))
    && forall i: nat :: IsLastInline(options, t, i) ==> key in after && after[key] == options[i].inline
  }

  lemma LastInlinePush(options: seq<TaskOption>, o: TaskOption, t: TaskName, i: nat)
    ensures IsLastInline(options + [o], t, i) <==>
      if GivesInline(o, t) then i == |options| else IsLastInline(options, t, i)
  {
    var all := options + [o];
    assert all[|options|] == o && forall j :: 0 <= j < |options| ==> all[j] == options[j];
  }

  lemma {:induction false} PutOptionsHolds(data: map<string, string>, options: seq<TaskOption>, t: TaskName)
    requires t != WILDCARD
    ensures Holds(PutOptions(data, options), data, options, t)
    ensures data.Keys <= PutOptions(data, options).Keys
  {
    if options != [] {
      var before, o := options[..|options| - 1], options[|options| - 1];
      assert options == before + [o];
      PutOptionsHolds(data, before, t);
      forall i: nat
        ensures IsLastInline(options, t, i) <==> if GivesInline(o, t) then i == |before| else IsLastInline(before, t, i)
      {
        LastInlinePush(before, o, t, i);
      }
      if o.inline != "" {
        PutInlineMeaning(PutOptions(data, before), o.tasks, o.inline);
        forall u | u in o.tasks && InlineFile(u) == InlineFile(t) ensures u == t {
          InlineFileTellsApart(u, t);
        }
      }
      if GivesInline(o, t) {
        assert IsLastInline(options, t, |before|);
      }
    }
  }

  lemma {:induction false} PutOptionsSkipsWildcard(data: map<string, string>, options: seq<TaskOption>)
    ensures InlineFile(WILDCARD) in PutOptions(data, options) <==> InlineFile(WILDCARD) in data
  {
    if options != [] {
      var before, o := options[..|options| - 1], options[|options| - 1];
      PutOptionsSkipsWildcard(data, before);
      PutInlineMeaning(PutOptions(data, before), o.tasks, o.inline);
      forall u | u in o.tasks && InlineFile(u) == InlineFile(WILDCARD) ensures u == WILDCARD {
        InlineFileTellsApart(u, WILDCARD);
      }
    }
  }

  /** The data of the module holds no script for a task. */
  ghost predicate IsModuleData(data: map<string, string>) {
    forall t: TaskName :: InlineFile(t) !in data
  }

  lemma DefaultsAreNotInline(flavour: Flavour, data: map<string, string>, defaults: Defaults)
    requires IsModuleData(data)
    ensures IsModuleData(WithDefaults(flavour, data, defaults))
  {
    forall t: TaskName ensures InlineFile(t) !in WithDefaults(flavour, data, defaults) {
      assert InlineFile(t)[0] == 'i' && DefaultFile(flavour)[0] == 'd' && SETUP_FILE[0] == 'd' && NOOP_FILE[0] == 'd';
    }
  }

  /** The downloads and the backend are kept under names no script has. */
  lemma SetupKeepsScripts(data: map<string, string>, downloads: string, backend: string, key: string)
    requires key != "" && (key[0] == 'i' || key[0] == 'd')
    ensures key in WithSetup(data, downloads, backend) <==> key in data
    ensures key in data ==> WithSetup(data, downloads, backend)[key] == data[key]
  {
    assert DOWNLOADS_KEY[0] == '.' && BACKEND_KEY[0] == 'b';
  }

  /** The inline file of a task is in the config map exactly if some option gives the task an inline script, and it
      holds the script of the last such option. */
  lemma InlineFileHoldsLast(flavour: Flavour, data: map<string, string>, defaults: Defaults, options: seq<TaskOption>,
      downloads: string, backend: string, t: TaskName)
    requires IsModuleData(data) && t != WILDCARD
    ensures var files := ConfigMapData(flavour, data, defaults, options, downloads, backend);
      && (InlineFile(t) in files <==> exists i: nat :: IsLastInline(options, t, i))
      && forall i: nat :: IsLastInline(options, t, i) ==> files[InlineFile(t)] == options[i].inline
  {
    DefaultsAreNotInline(flavour, data, defaults);
    PutOptionsHolds(WithDefaults(flavour, data, defaults), options, t);
    var scripts := PutOptions(WithDefaults(flavour, data, defaults), options);
    assert Holds(scripts, WithDefaults(flavour, data, defaults), options, t);
    SetupKeepsScripts(scripts, downloads, backend, InlineFile(t));
  }

  lemma {:induction false} GatheredFile(options: seq<TaskOption>, task: TaskName)
    ensures Gather(options, task).file == "" || Gather(options, task).file == InlineFile(task)
    ensures Gather(options, task).file != "" <==> exists i: nat :: IsLastInline(options, task, i)
  {
    if options != [] {
      var before, o := options[..|options| - 1], options[|options| - 1];
      assert options == before + [o];
      GatheredFile(before, task);
      forall i: nat
        ensures IsLastInline(options, task, i) <==>
          if GivesInline(o, task) then i == |before| else IsLastInline(before, task, i)
      {
        LastInlinePush(before, o, task, i);
      }
      if GivesInline(o, task) {
        assert IsLastInline(options, task, |before|);
      }
    }
  }

  lemma DefaultIsKept(flavour: Flavour, data: map<string, string>, defaults: Defaults, options: seq<TaskOption>,
      task: TaskName)
    requires DefaultFor(flavour, task) != ""
    ensures DefaultFor(flavour, task) in PutOptions(WithDefaults(flavour, data, defaults), options)
    ensures DefaultFor(flavour, task)[0] == 'd'
  {
    PutOptionsHolds(WithDefaults(flavour, data, defaults), options, RunNil);
  }

  /** A file chosen for a task is in the config map of a changed generation unless the task is the wildcard, which
      only a plugin could be named. */
  lemma ChosenFileResolvesIff(flavour: Flavour, data: map<string, string>, defaults: Defaults, options: seq<TaskOption>,
      downloads: string, backend: string, task: TaskName)
    requires IsModuleData(data) && ChosenFile(flavour, options, task) != ""
    ensures ChosenFile(flavour, options, task) in ConfigMapData(flavour, data, defaults, options, downloads, backend)
       <==> task != WILDCARD
  {
    GatheredFile(options, task);
    var scripts := PutOptions(WithDefaults(flavour, data, defaults), options);
    if Gather(options, task).file == "" {
      DefaultIsKept(flavour, data, defaults, options, task);
    } else if task != WILDCARD {
      InlineFileHoldsLast(flavour, data, defaults, options, downloads, backend, task);
    } else {
      DefaultsAreNotInline(flavour, data, defaults);
      PutOptionsSkipsWildcard(WithDefaults(flavour, data, defaults), options);
    }
    SetupKeepsScripts(scripts, downloads, backend, ChosenFile(flavour, options, task));
  }

  // ---------------------------------------------------------------------------------------------
  // What a task runs

  /** The last option that is for the task is the one at `i`. */
  ghost predicate IsLastFor(options: seq<TaskOption>, t: TaskName, i: nat) {
    i < |options| && t in options[i].tasks && forall j :: i < j < |options| ==> t !in options[j].tasks
  }

  /** The last option for the task that names a config map is the one at `i`. */
  ghost predicate IsLastMap(options: seq<TaskOption>, t: TaskName, i: nat) {
    && i < |options| && t in options[i].tasks && options[i].configMap.Some?
    && forall j :: i < j < |options| && t in options[j].tasks ==> options[j].configMap.None?
  }

  /** The options give the task a script from a URL, in the last of them, or from a config map, in the last of them that
      names one at all. */
  ghost predicate HasScriptElsewhere(options: seq<TaskOption>, t: TaskName) {
    || (exists i: nat :: IsLastFor(options, t, i) && options[i].source != "")
    || (exists i: nat :: IsLastMap(options, t, i)
          && options[i].configMap.value.0 != "" && options[i].configMap.value.1 != "")
  }

  lemma LastForPush(options: seq<TaskOption>, o: TaskOption, t: TaskName, i: nat)
    ensures IsLastFor(options + [o], t, i) <==> if t in o.tasks then i == |options| else IsLastFor(options, t, i)
  {
    var all := options + [o];
    assert all[|options|] == o && forall j :: 0 <= j < |options| ==> all[j] == options[j];
  }

  lemma LastMapPush(options: seq<TaskOption>, o: TaskOption, t: TaskName, i: nat)
    ensures IsLastMap(options + [o], t, i) <==>
      if t in o.tasks && o.configMap.Some? then i == |options| else IsLastMap(options, t, i)
  {
    var all := options + [o];
    assert all[|options|] == o && forall j :: 0 <= j < |options| ==> all[j] == options[j];
  }

  /** The gathered URL is that of the last option for the task. */
  lemma {:induction false} GatheredSource(options: seq<TaskOption>, t: TaskName)
    ensures forall i: nat :: IsLastFor(options, t, i) ==> Gather(options, t).source == options[i].source
    ensures (forall i: nat :: !IsLastFor(options, t, i)) ==> Gather(options, t).source == ""
  {
    if options != [] {
      var before, o := options[..|options| - 1], options[|options| - 1];
      assert options == before + [o];
      GatheredSource(before, t);
      forall i: nat
        ensures IsLastFor(options, t, i) <==> if t in o.tasks then i == |before| else IsLastFor(before, t, i)
      {
        LastForPush(before, o, t, i);
      }
      assert t in o.tasks ==> IsLastFor(options, t, |before|);
    }
  }

  /** The gathered config map is that of the last option for the task that names one. */
  lemma {:induction false} GatheredMap(options: seq<TaskOption>, t: TaskName)
    ensures forall i: nat :: IsLastMap(options, t, i) ==>
      Some((Gather(options, t).configMapName, Gather(options, t).configMapKey)) == options[i].configMap
    ensures (forall i: nat :: !IsLastMap(options, t, i)) ==>
      Gather(options, t).configMapName == "" && Gather(options, t).configMapKey == ""
  {
    if options != [] {
      var before, o := options[..|options| - 1], options[|options| - 1];
      assert options == before + [o];
      GatheredMap(before, t);
      forall i: nat
        ensures IsLastMap(options, t, i) <==>
          if t in o.tasks && o.configMap.Some? then i == |before| else IsLastMap(before, t, i)
      {
        LastMapPush(before, o, t, i);
      }
      assert t in o.tasks && o.configMap.Some? ==> IsLastMap(options, t, |before|);
    }
  }

  lemma ElsewhereIff(options: seq<TaskOption>, t: TaskName)
    ensures var s := Gather(options, t);
      HasScriptElsewhere(options, t) <==> s.source != "" || (s.configMapName != "" && s.configMapKey != "")
  {
    GatheredSource(options, t);
    GatheredMap(options, t);
  }

  /** The inline file if some option gives the task an inline script; otherwise none if the options give it one from
      elsewhere, and else the default file: the tool's for init, plan and apply, setup's for setup, the empty script's
      for all other tasks of the workflow, for both chains. */
  lemma ChosenFileIs(flavour: Flavour, options: seq<TaskOption>, t: TaskName)
    ensures ChosenFile(flavour, options, t) ==
      if exists i: nat :: IsLastInline(options, t, i) then "inline-" + (t.Text() + ".sh")
      else if HasScriptElsewhere(options, t) then ""
      else if t.Text() in {"init", "plan", "apply", "init-delete", "plan-delete", "apply-delete"}
      then (if flavour == Terraform then "default-tf.sh" else "default-tofu.sh")
      else if t.Text() in {"setup", "setup-delete"} then "default-setup.sh"
      else if IsWorkflowTask(t) then "default-noop.sh" else ""
  {
    GatheredFile(options, t);
    ElsewhereIff(options, t);
    KindByText(t);
  }

  lemma KindByText(t: TaskName)
    ensures RunsTool(t) <==> t.Text() in {"init", "plan", "apply", "init-delete", "plan-delete", "apply-delete"}
    ensures IsSetup(t) <==> t.Text() in {"setup", "setup-delete"}
  {
  }

  lemma {:induction false} PutOptionsSpares(data: map<string, string>, options: seq<TaskOption>, key: string)
    requires forall t: TaskName :: InlineFile(t) != key
    ensures key in PutOptions(data, options) <==> key in data
    ensures key in data ==> PutOptions(data, options)[key] == data[key]
  {
    if options != [] {
      var before, o := options[..|options| - 1], options[|options| - 1];
      PutOptionsSpares(data, before, key);
      PutInlineMeaning(PutOptions(data, before), o.tasks, o.inline);
    }
  }

  lemma NotInline(key: string)
    requires key != "" && key[0] != 'i'
    ensures forall t: TaskName :: InlineFile(t) != key
  {
    forall t: TaskName ensures InlineFile(t) != key {
      assert InlineFile(t)[0] == 'i';
    }
  }

  /** Whatever the options say, the default scripts, the downloads and the backend are each under their own name, and
      data of the module under any other name that is no inline file is left as it was. */
  lemma FilesHold(flavour: Flavour, data: map<string, string>, defaults: Defaults, options: seq<TaskOption>,
      downloads: string, backend: string, key: string)
    ensures var files := ConfigMapData(flavour, data, defaults, options, downloads, backend);
      var tool := if flavour == Terraform then "default-tf.sh" else "default-tofu.sh";
      && tool in files && files[tool] == defaults.tool
      && "default-setup.sh" in files && files["default-setup.sh"] == defaults.setup
      && "default-noop.sh" in files && files["default-noop.sh"] == defaults.noop
      && ".__INFRAKUBE__ResourceDownloads.json" in files && files[".__INFRAKUBE__ResourceDownloads.json"] == downloads
      && "backend_override.tf" in files && files["backend_override.tf"] == backend
      && (key !in {tool, "default-setup.sh", "default-noop.sh", ".__INFRAKUBE__ResourceDownloads.json",
                   "backend_override.tf"} && (forall t: TaskName :: InlineFile(t) != key) ==>
            (key in files <==> key in data) && (key in data ==> files[key] == data[key]))
  {
    DefaultHolds(flavour, data, defaults, options, downloads, backend, DefaultFile(flavour), defaults.tool);
    DefaultHolds(flavour, data, defaults, options, downloads, backend, SETUP_FILE, defaults.setup);
    DefaultHolds(flavour, data, defaults, options, downloads, backend, NOOP_FILE, defaults.noop);
    LastFilesHold(PutOptions(WithDefaults(flavour, data, defaults), options), downloads, backend);
    if key !in {DefaultFile(flavour), SETUP_FILE, NOOP_FILE, DOWNLOADS_KEY, BACKEND_KEY}
      && forall t: TaskName :: InlineFile(t) != key {
      PutOptionsSpares(WithDefaults(flavour, data, defaults), options, key);
    }
  }

  lemma DefaultHolds(flavour: Flavour, data: map<string, string>, defaults: Defaults, options: seq<TaskOption>,
      downloads: string, backend: string, key: string, script: string)
    requires key != "" && key[0] == 'd'
    requires key in WithDefaults(flavour, data, defaults) && WithDefaults(flavour, data, defaults)[key] == script
    ensures var files := ConfigMapData(flavour, data, defaults, options, downloads, backend);
      key in files && files[key] == script
  {
    NotInline(key);
    PutOptionsSpares(WithDefaults(flavour, data, defaults), options, key);
    SetupKeepsScripts(PutOptions(WithDefaults(flavour, data, defaults), options), downloads, backend, key);
  }

  lemma LastFilesHold(data: map<string, string>, downloads: string, backend: string)
    ensures var files := WithSetup(data, downloads, backend);
      && DOWNLOADS_KEY in files && files[DOWNLOADS_KEY] == downloads
      && BACKEND_KEY in files && files[BACKEND_KEY] == backend
  {
    assert DOWNLOADS_KEY[0] == '.' && BACKEND_KEY[0] == 'b';
  }

  /** What a task of the workflow runs from the config map: its last inline script, or the default script of its kind
      unless its script comes from elsewhere. */
  lemma TaskRuns(flavour: Flavour, data: map<string, string>, defaults: Defaults, options: seq<TaskOption>,
      downloads: string, backend: string, t: TaskName)
    requires IsModuleData(data) && IsWorkflowTask(t)
    ensures var files := ConfigMapData(flavour, data, defaults, options, downloads, backend);
      var file := ChosenFile(flavour, options, t);
      if exists i: nat :: IsLastInline(options, t, i) then
        file in files && forall i: nat :: IsLastInline(options, t, i) ==> files[file] == options[i].inline
      else if HasScriptElsewhere(options, t) then file == ""
      else
        && file in files
        && files[file] == (
             if t.Text() in {"init", "plan", "apply", "init-delete", "plan-delete", "apply-delete"} then defaults.tool
             else if t.Text() in {"setup", "setup-delete"} then defaults.setup else defaults.noop)
  {
    ChosenFileIs(flavour, options, t);
    FilesHold(flavour, data, defaults, options, downloads, backend, "");
    InlineFileHoldsLast(flavour, data, defaults, options, downloads, backend, t);
  }
}
