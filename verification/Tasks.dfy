/** The tasks of a workflow, the order in which they run, and the tasks a resource configures. */
module Tasks {

  /** A task name. The source keeps these as strings; a name that is not one of the workflow's own
      is a Custom one, such as the name of a plugin or the wildcard "*". */
  datatype Task =
    | RunNil
    | RunSetup | RunPreInit | RunInit | RunPostInit | RunPrePlan
    | RunPlan | RunPostPlan | RunPreApply | RunApply | RunPostApply
    | RunSetupDelete | RunPreInitDelete | RunInitDelete | RunPostInitDelete | RunPrePlanDelete
    | RunPlanDelete | RunPostPlanDelete | RunPreApplyDelete | RunApplyDelete | RunPostApplyDelete
    | Custom(name: string)
  {
    function Text(): string {
      match this
      case RunNil => ""
      case RunSetup => "setup"
      case RunPreInit => "preinit"
      case RunInit => "init"
      case RunPostInit => "postinit"
      case RunPrePlan => "preplan"
      case RunPlan => "plan"
      case RunPostPlan => "postplan"
      case RunPreApply => "preapply"
      case RunApply => "apply"
      case RunPostApply => "postapply"
      case RunSetupDelete => "setup-delete"
      case RunPreInitDelete => "preinit-delete"
      case RunInitDelete => "init-delete"
      case RunPostInitDelete => "postinit-delete"
      case RunPrePlanDelete => "preplan-delete"
      case RunPlanDelete => "plan-delete"
      case RunPostPlanDelete => "postplan-delete"
      case RunPreApplyDelete => "preapply-delete"
      case RunApplyDelete => "apply-delete"
      case RunPostApplyDelete => "postapply-delete"
      case Custom(name) => name
    }

    function Id(): int {
      match this
      case RunNil => -1
      case RunSetup => 1
      case RunPreInit => 2
      case RunInit => 3
      case RunPostInit => 4
      case RunPrePlan => 5
      case RunPlan => 6
      case RunPostPlan => 7
      case RunPreApply => 8
      case RunApply => 9
      case RunPostApply => 10
      case RunSetupDelete => 101
      case RunPreInitDelete => 102
      case RunInitDelete => 103
      case RunPostInitDelete => 104
      case RunPrePlanDelete => 105
      case RunPlanDelete => 106
      case RunPostPlanDelete => 107
      case RunPreApplyDelete => 108
      case RunApplyDelete => 109
      case RunPostApplyDelete => 110
      case Custom(_) => -2
    }
  }

  const WORKFLOW_NAMES: set<string> := {
    "", "setup", "preinit", "init", "postinit", "preplan", "plan", "postplan", "preapply", "apply", "postapply",
    "setup-delete", "preinit-delete", "init-delete", "postinit-delete", "preplan-delete", "plan-delete",
    "postplan-delete", "preapply-delete", "apply-delete", "postapply-delete"
  }

  /** Equality of task names is equality of their text. */
  type TaskName = t: Task | t.Custom? ==> t.name !in WORKFLOW_NAMES witness RunNil

  /** Task names are the same if their texts are. */
  lemma TextTellsApart(t: TaskName, u: TaskName)
    requires t.Text() == u.Text()
    ensures t == u
  {
  }

  const WILDCARD: TaskName := Custom("*")

  datatype Chain = CreateChain | DeleteChain

  const CREATE_ORDER: seq<TaskName> := [
    RunSetup, RunPreInit, RunInit, RunPostInit, RunPrePlan,
    RunPlan, RunPostPlan, RunPreApply, RunApply, RunPostApply
  ]

  const DELETE_ORDER: seq<TaskName> := [
    RunSetupDelete, RunPreInitDelete, RunInitDelete, RunPostInitDelete, RunPrePlanDelete,
    RunPlanDelete, RunPostPlanDelete, RunPreApplyDelete, RunApplyDelete, RunPostApplyDelete
  ]

  const BASE_TASKS: seq<TaskName> := [
    RunSetup, RunInit, RunPlan, RunApply,
    RunSetupDelete, RunInitDelete, RunPlanDelete, RunApplyDelete
  ]

  function Order(chain: Chain): seq<TaskName> {
    match chain
    case CreateChain => CREATE_ORDER
    case DeleteChain => DELETE_ORDER
  }

  predicate IsCreateTask(t: TaskName) { 1 <= t.Id() <= 10 }

  predicate IsDeleteTask(t: TaskName) { 101 <= t.Id() <= 110 }

  predicate IsWorkflowTask(t: TaskName) { IsCreateTask(t) || IsDeleteTask(t) }

  predicate InChain(chain: Chain, t: TaskName) {
    match chain
    case CreateChain => IsCreateTask(t)
    case DeleteChain => IsDeleteTask(t)
  }

  function ChainOf(t: TaskName): Chain
    requires IsWorkflowTask(t)
  {
    if IsCreateTask(t) then CreateChain else DeleteChain
  }

  /** The identifier of the task before the first of a chain. */
  function ChainBase(chain: Chain): int {
    match chain
    case CreateChain => 0
    case DeleteChain => 100
  }

  lemma OrderIds(chain: Chain, k: nat)
    requires k < 10
    ensures |Order(chain)| == 10
    ensures Order(chain)[k].Id() == ChainBase(chain) + k + 1
  {
  }

  /** The tasks of the create chain in their order. */
  lemma CreateTexts(k: nat)
    requires k < 10
    ensures |CREATE_ORDER| == 10
    ensures CREATE_ORDER[k].Text() == match k
              case 0 => "setup" case 1 => "preinit" case 2 => "init" case 3 => "postinit" case 4 => "preplan"
              case 5 => "plan" case 6 => "postplan" case 7 => "preapply" case 8 => "apply" case _ => "postapply"
  {
    var i: int := k;
    if i < 5 {
      if i == 0 {} else if i == 1 {} else if i == 2 {} else if i == 3 {} else {}
    } else {
      if i == 5 {} else if i == 6 {} else if i == 7 {} else if i == 8 {} else {}
    }
  }

  /** The delete chain has the counterpart of each in the same place. */
  lemma DeleteTexts(k: nat)
    requires k < 10
    ensures |DELETE_ORDER| == 10
    ensures DELETE_ORDER[k].Text() == match k
              case 0 => "setup-delete" case 1 => "preinit-delete" case 2 => "init-delete" case 3 => "postinit-delete"
              case 4 => "preplan-delete" case 5 => "plan-delete" case 6 => "postplan-delete"
              case 7 => "preapply-delete" case 8 => "apply-delete" case _ => "postapply-delete"
  {
    var i: int := k;
    if i < 5 {
      if i == 0 {} else if i == 1 {} else if i == 2 {} else if i == 3 {} else {}
    } else {
      if i == 5 {} else if i == 6 {} else if i == 7 {} else if i == 8 {} else {}
    }
  }

  lemma OrderIsOrder(chain: Chain)
    ensures IsOrder(Order(chain), ChainBase(chain))
  {
    forall k | 0 <= k < 10 ensures |Order(chain)| == 10 && Order(chain)[k].Id() == ChainBase(chain) + k + 1 {
      OrderIds(chain, k);
    }
  }

  /** A workflow task stands in its chain at the place its identifier says. */
  lemma OrderAt(chain: Chain, t: TaskName)
    ensures |Order(chain)| == 10
    ensures InChain(chain, t) ==> Order(chain)[t.Id() - ChainBase(chain) - 1] == t
    ensures InChain(chain, t) <==> t in Order(chain)
  {
    if t in Order(chain) {
      var k :| 0 <= k < |Order(chain)| && Order(chain)[k] == t;
      OrderIds(chain, k);
    }
  }

  // ---------------------------------------------------------------------------------------------
  // Configured tasks

  predicate NoDuplicates<T(==)>(s: seq<T>) {
    forall i, j :: 0 <= i < j < |s| ==> s[i] != s[j]
  }

  method ListContainsTask(list: seq<TaskName>, item: TaskName) returns (found: bool)
    ensures found <==> item in list
  {
    for i := 0 to |list|
      invariant item !in list[..i]
    {
      if list[i] == item {
        return true;
      }
    }
    assert list[..|list|] == list;
    return false;
  }

  /** The tasks named by the options before the wildcard is dropped. */
  ghost predicate Named(options: seq<seq<TaskName>>, t: TaskName) {
    exists o :: o in options && t in o
  }

  /** One element per option: the tasks that option is for. */
  method GetConfiguredTasks(options: seq<seq<TaskName>>) returns (tasks: seq<TaskName>)
    ensures tasks == ConfiguredTasks(options)
  {
    tasks := BASE_TASKS;
    for i := 0 to |options|
      invariant AddOptions(tasks, options[i..]) == ConfiguredTasks(options)
    {
      var option := options[i];
      ghost var before := tasks;
      for j := 0 to |option|
        invariant AddTasks(tasks, option[j..]) == AddTasks(before, option)
      {
        var affected := option[j];
        assert option[j..][1..] == option[j + 1..];
        if affected == WILDCARD {
          continue;
        }
        var known := ListContainsTask(tasks, affected);
        if !known {
          tasks := tasks + [affected];
        }
      }
      assert option[|option|..] == [];
      assert options[i..][1..] == options[i + 1..];
    }
    assert options[|options|..] == [];
  }

  function AddTasks(tasks: seq<TaskName>, option: seq<TaskName>): seq<TaskName>
    decreases option
  {
    if option == [] then tasks
    else if option[0] == WILDCARD || option[0] in tasks then AddTasks(tasks, option[1..])
    else AddTasks(tasks + [option[0]], option[1..])
  }

  function AddOptions(tasks: seq<TaskName>, options: seq<seq<TaskName>>): seq<TaskName>
    decreases options
  {
    if options == [] then tasks else AddOptions(AddTasks(tasks, options[0]), options[1..])
  }

  function ConfiguredTasks(options: seq<seq<TaskName>>): seq<TaskName> {
    AddOptions(BASE_TASKS, options)
  }

  lemma {:induction false} AddTasksMeaning(tasks: seq<TaskName>, option: seq<TaskName>)
    requires NoDuplicates(tasks)
    ensures NoDuplicates(AddTasks(tasks, option))
    ensures forall t :: t in AddTasks(tasks, option) <==> t in tasks || (t in option && t != WILDCARD)
    ensures tasks <= AddTasks(tasks, option)
    decreases option
  {
    if option != [] {
      assert option == [option[0]] + option[1..];
      if option[0] == WILDCARD || option[0] in tasks {
        AddTasksMeaning(tasks, option[1..]);
      } else {
        AddTasksMeaning(tasks + [option[0]], option[1..]);
      }
    }
  }

  lemma {:induction false} AddOptionsMeaning(tasks: seq<TaskName>, options: seq<seq<TaskName>>)
    requires NoDuplicates(tasks)
    ensures NoDuplicates(AddOptions(tasks, options))
    ensures forall t :: t in AddOptions(tasks, options) <==> t in tasks || (Named(options, t) && t != WILDCARD)
    decreases options
  {
    if options != [] {
      assert options == [options[0]] + options[1..];
      AddTasksMeaning(tasks, options[0]);
      AddOptionsMeaning(AddTasks(tasks, options[0]), options[1..]);
      forall t
        ensures Named(options, t) <==> t in options[0] || Named(options[1..], t)
      {
        if Named(options[1..], t) {
          var o :| o in options[1..] && t in o;
          assert o in options;
        }
      }
    }
  }

  /** The tasks that every workflow has. */
  predicate IsBaseTask(t: TaskName) {
    || t.RunSetup? || t.RunInit? || t.RunPlan? || t.RunApply?
    || t.RunSetupDelete? || t.RunInitDelete? || t.RunPlanDelete? || t.RunApplyDelete?
  }

  lemma BaseTasksAreBase(t: TaskName)
    ensures t in BASE_TASKS <==> IsBaseTask(t)
  {
    if t in BASE_TASKS {
      var k :| 0 <= k < |BASE_TASKS| && BASE_TASKS[k] == t;
      BaseTaskAt(k);
    }
  }

  lemma BaseTaskAt(k: nat)
    requires k < 8
    ensures |BASE_TASKS| == 8 && IsBaseTask(BASE_TASKS[k])
  {
    var i: int := k;
    if i < 4 {
      if i == 0 {} else if i == 1 {} else if i == 2 {} else {}
    } else {
      if i == 4 {} else if i == 5 {} else if i == 6 {} else {}
    }
  }

  /** The configured tasks are the eight base tasks and every named task but the wildcard, each once. */
  lemma ConfiguredTasksMeaning(options: seq<seq<TaskName>>)
    ensures NoDuplicates(ConfiguredTasks(options))
    ensures forall t :: t in ConfiguredTasks(options) <==> IsBaseTask(t) || (Named(options, t) && t.Text() != "*")
  {
    AddOptionsMeaning(BASE_TASKS, options);
    forall t ensures t in BASE_TASKS <==> IsBaseTask(t) {
      BaseTasksAreBase(t);
    }
  }

  // ---------------------------------------------------------------------------------------------
  // The next task

  /** What nextTask promises: the first configured task after `t` in the order of its chain, if any. */
  ghost predicate IsNextTask(t: TaskName, configured: seq<TaskName>, next: TaskName) {
    if next == RunNil then
      forall later: TaskName :: SameChain(t, later) && t.Id() < later.Id() ==> later !in configured
    else
      && SameChain(t, next)
      && t.Id() < next.Id()
      && next in configured
      && forall between: TaskName :: SameChain(t, between) && t.Id() < between.Id() < next.Id() ==>
         between !in configured
  }

  predicate SameChain(t: TaskName, u: TaskName) {
    (IsCreateTask(t) && IsCreateTask(u)) || (IsDeleteTask(t) && IsDeleteTask(u))
  }

  function FirstConfigured(tasks: seq<TaskName>, configured: seq<TaskName>): TaskName {
    if tasks == [] then RunNil
    else if tasks[0] in configured then tasks[0]
    else FirstConfigured(tasks[1..], configured)
  }

  function After(t: TaskName, order: seq<TaskName>): seq<TaskName> {
    if order == [] then [] else if order[0] == t then order[1..] else After(t, order[1..])
  }

  function NextTask(t: TaskName, configured: seq<TaskName>): TaskName {
    if IsWorkflowTask(t) then FirstConfigured(After(t, Order(ChainOf(t))), configured) else RunNil
  }

  lemma OrderRepeatsNothing(chain: Chain)
    ensures NoDuplicates(Order(chain))
  {
  }

  method FindNextTask(currentTask: TaskName, configuredTasks: seq<TaskName>) returns (next: TaskName)
    ensures next == NextTask(currentTask, configuredTasks)
  {
    OrderAt(CreateChain, currentTask);
    OrderAt(DeleteChain, currentTask);
    next := RunNil;
    var createOrder, deleteOrder := Order(CreateChain), Order(DeleteChain);
    var inCreate := ListContainsTask(createOrder, currentTask);
    if inCreate {
      OrderRepeatsNothing(CreateChain);
      next := ScanOrder(createOrder, currentTask, configuredTasks);
    } else {
      var inDelete := ListContainsTask(deleteOrder, currentTask);
      if inDelete {
        OrderRepeatsNothing(DeleteChain);
        next := ScanOrder(deleteOrder, currentTask, configuredTasks);
      }
    }
  }

  /** The loop that nextTask writes once per chain. */
  method ScanOrder(order: seq<TaskName>, currentTask: TaskName, configuredTasks: seq<TaskName>) returns (next: TaskName)
    requires NoDuplicates(order)
    ensures next == FirstConfigured(After(currentTask, order), configuredTasks)
  {
    next := RunNil;
    var isUpNext := false;
    for i := 0 to |order|
      invariant next == RunNil
      invariant isUpNext <==> currentTask in order[..i]
      invariant FirstConfigured(After(currentTask, order), configuredTasks)
             == FirstConfigured(if isUpNext then order[i..] else After(currentTask, order[i..]), configuredTasks)
    {
      var task := order[i];
      assert order[i..][1..] == order[i + 1..];
      assert order[..i + 1] == order[..i] + [task];
      if task == currentTask {
        isUpNext := true;
        continue;
      }
      if isUpNext {
        var configured := ListContainsTask(configuredTasks, task);
        if configured {
          return task;
        }
      }
    }
    assert order[|order|..] == [];
  }

  lemma {:induction false} AfterIsSuffix(chain: Chain, k: nat, t: TaskName)
    requires k <= 10 && InChain(chain, t) && k <= t.Id() - ChainBase(chain) - 1
    ensures |Order(chain)| == 10
    ensures After(t, Order(chain)[k..]) == Order(chain)[t.Id() - ChainBase(chain)..]
    decreases 10 - k
  {
    OrderAt(chain, t);
    var o := Order(chain);
    OrderIds(chain, k);
    if o[k] == t {
      assert o[k..][1..] == o[k + 1..];
    } else {
      AfterIsSuffix(chain, k + 1, t);
      assert o[k..][1..] == o[k + 1..];
    }
  }

  lemma {:induction false} FirstConfiguredMeaning(tasks: seq<TaskName>, configured: seq<TaskName>)
    requires RunNil !in tasks
    ensures var f := FirstConfigured(tasks, configured);
      if f == RunNil then forall i :: 0 <= i < |tasks| ==> tasks[i] !in configured
      else exists k :: 0 <= k < |tasks| && tasks[k] == f && f in configured
                       && forall i :: 0 <= i < k ==> tasks[i] !in configured
  {
    if tasks != [] && tasks[0] !in configured {
      FirstConfiguredMeaning(tasks[1..], configured);
      var f := FirstConfigured(tasks[1..], configured);
      if f != RunNil {
        var k :| 0 <= k < |tasks[1..]| && tasks[1..][k] == f && forall i :: 0 <= i < k ==> tasks[1..][i] !in configured;
        assert tasks[k + 1] == f;
        forall i | 0 <= i < k + 1 ensures tasks[i] !in configured {
          if i > 0 { assert tasks[i] == tasks[1..][i - 1]; }
        }
      } else {
        forall i | 0 <= i < |tasks| ensures tasks[i] !in configured {
          if i > 0 { assert tasks[i] == tasks[1..][i - 1]; }
        }
      }
    }
  }

  lemma NextTaskIsFirstConfigured(t: TaskName)
    requires IsWorkflowTask(t)
    ensures |Order(ChainOf(t))| == 10
    ensures forall configured ::
      NextTask(t, configured) == FirstConfigured(Order(ChainOf(t))[t.Id() - ChainBase(ChainOf(t))..], configured)
  {
    OrderAt(CreateChain, t);
    OrderAt(DeleteChain, t);
    AfterIsSuffix(ChainOf(t), 0, t);
    assert Order(ChainOf(t))[0..] == Order(ChainOf(t));
  }

  /** A chain's order, told by its identifiers alone. */
  ghost predicate IsOrder(order: seq<TaskName>, base: int) {
    |order| == 10 && forall k :: 0 <= k < 10 ==> order[k].Id() == base + k + 1
  }

  lemma SameIdSameTask(t: TaskName, u: TaskName)
    requires IsWorkflowTask(t) && t.Id() == u.Id()
    ensures t == u
  {
  }

  /** `rest` is what comes after `t` in its chain. */
  ghost predicate IsRest(rest: seq<TaskName>, t: TaskName) {
    && (forall i :: 0 <= i < |rest| ==> SameChain(t, rest[i]) && rest[i].Id() == t.Id() + 1 + i)
    && forall u: TaskName :: SameChain(t, u) && t.Id() < u.Id() ==> u.Id() - t.Id() - 1 < |rest|
  }

  lemma OrderRest(t: TaskName, order: seq<TaskName>, base: int)
    requires IsOrder(order, base) && base in {0, 100} && base < t.Id() <= base + 10
    ensures IsRest(order[t.Id() - base..], t)
  {
  }

  lemma RestHolds(rest: seq<TaskName>, t: TaskName, u: TaskName)
    requires IsRest(rest, t) && SameChain(t, u) && t.Id() < u.Id()
    ensures 0 <= u.Id() - t.Id() - 1 < |rest| && rest[u.Id() - t.Id() - 1] == u
  {
  }

  lemma FirstConfiguredIsNext(t: TaskName, configured: seq<TaskName>, rest: seq<TaskName>)
    requires IsRest(rest, t)
    ensures IsNextTask(t, configured, FirstConfigured(rest, configured))
  {
    FirstConfiguredMeaning(rest, configured);
    forall later: TaskName | SameChain(t, later) && t.Id() < later.Id()
      ensures 0 <= later.Id() - t.Id() - 1 < |rest| && rest[later.Id() - t.Id() - 1] == later
    {
      RestHolds(rest, t, later);
    }
  }

  /** nextTask returns the next configured task of the same chain. */
  lemma NextTaskMeaning(t: TaskName, configured: seq<TaskName>)
    requires IsWorkflowTask(t)
    ensures IsNextTask(t, configured, NextTask(t, configured))
  {
    var chain := ChainOf(t);
    NextTaskIsFirstConfigured(t);
    OrderIsOrder(chain);
    OrderRest(t, Order(chain), ChainBase(chain));
    FirstConfiguredIsNext(t, configured, Order(chain)[t.Id() - ChainBase(chain)..]);
  }

  /** Only one task can be next. */
  lemma NextTaskUnique(t: TaskName, configured: seq<TaskName>, a: TaskName, b: TaskName)
    requires IsWorkflowTask(t) && IsNextTask(t, configured, a) && IsNextTask(t, configured, b)
    ensures a == b
  {
    if a != RunNil && b != RunNil {
      NotPassedOver(t, configured, a, b);
      NotPassedOver(t, configured, b, a);
      SameIdSameTask(a, b);
    } else if a != RunNil {
      NotPassedOver(t, configured, b, a);
    } else if b != RunNil {
      NotPassedOver(t, configured, a, b);
    }
  }

  ghost predicate HasBaseTasks(configured: seq<TaskName>) {
    forall t :: IsBaseTask(t) ==> t in configured
  }

  lemma ConfiguredHasBaseTasks(options: seq<seq<TaskName>>)
    ensures HasBaseTasks(ConfiguredTasks(options))
  {
    ConfiguredTasksMeaning(options);
  }

  lemma NotPassedOver(t: TaskName, configured: seq<TaskName>, next: TaskName, base: TaskName)
    requires IsWorkflowTask(t) && IsNextTask(t, configured, next) && base in configured && SameChain(t, base)
    ensures t.Id() < base.Id() ==> next != RunNil && next.Id() <= base.Id()
  {
  }

  /** From `t` on, no task is entered past the n-th of the chain before the n-th itself. */
  predicate StopsAt(t: TaskName, next: TaskName, n: nat)
    requires IsWorkflowTask(t)
  {
    t.Id() - ChainBase(ChainOf(t)) < n ==> next != RunNil && next.Id() - ChainBase(ChainOf(t)) <= n
  }

  /** The base task that is the n-th of its chain. */
  function BaseTask(chain: Chain, n: nat): (t: TaskName)
    requires n == 3 || n == 6 || n == 9
    ensures IsBaseTask(t) && InChain(chain, t) && t.Id() == ChainBase(chain) + n
  {
    match chain
    case CreateChain => if n == 3 then RunInit else if n == 6 then RunPlan else RunApply
    case DeleteChain => if n == 3 then RunInitDelete else if n == 6 then RunPlanDelete else RunApplyDelete
  }

  lemma NextBefore(t: TaskName, configured: seq<TaskName>, next: TaskName, base: TaskName, n: nat)
    requires IsWorkflowTask(t) && IsNextTask(t, configured, next) && base in configured
    requires InChain(ChainOf(t), base) && base.Id() == ChainBase(ChainOf(t)) + n
    ensures StopsAt(t, next, n)
  {
  }

  /** No base task is ever passed over. */
  lemma NextBaseTask(t: TaskName, configured: seq<TaskName>, next: TaskName)
    requires IsWorkflowTask(t) && HasBaseTasks(configured) && IsNextTask(t, configured, next)
    ensures StopsAt(t, next, 3) && StopsAt(t, next, 6) && StopsAt(t, next, 9)
  {
    NextBefore(t, configured, next, BaseTask(ChainOf(t), 3), 3);
    NextBefore(t, configured, next, BaseTask(ChainOf(t), 6), 6);
    NextBefore(t, configured, next, BaseTask(ChainOf(t), 9), 9);
  }

  lemma NextIsEither(point: TaskName, configured: seq<TaskName>, next: TaskName, pre: TaskName, plan: TaskName)
    requires IsWorkflowTask(point) && SameChain(point, pre) && SameChain(point, plan) && plan in configured
    requires pre.Id() == point.Id() + 1 && plan.Id() == point.Id() + 2
    requires IsNextTask(point, configured, next)
    ensures next == if pre in configured then pre else plan
  {
  }

  lemma NextAfterPostInit(point: TaskName, configured: seq<TaskName>, next: TaskName)
    requires (point.RunPostInit? || point.RunPostInitDelete?) && HasBaseTasks(configured)
    requires IsNextTask(point, configured, next)
    ensures point.RunPostInit? ==> next == if RunPrePlan in configured then RunPrePlan else RunPlan
    ensures point.RunPostInitDelete? ==>
      next == if RunPrePlanDelete in configured then RunPrePlanDelete else RunPlanDelete
  {
    assert IsBaseTask(RunPlan) && IsBaseTask(RunPlanDelete);
    if point.RunPostInit? {
      NextIsEither(point, configured, next, RunPrePlan, RunPlan);
    } else {
      NextIsEither(point, configured, next, RunPrePlanDelete, RunPlanDelete);
    }
  }

  /** A restart of the workflow lands on the pre-plan or the plan task, never on the end of the workflow. */
  lemma RestartLandsOnPlan(options: seq<seq<TaskName>>, point: TaskName)
    requires point.RunPostInit? || point.RunPostInitDelete?
    ensures var configured := ConfiguredTasks(options);
      NextTask(point, configured)
      == if point.RunPostInit? then (if RunPrePlan in configured then RunPrePlan else RunPlan)
         else if RunPrePlanDelete in configured then RunPrePlanDelete else RunPlanDelete
  {
    var configured := ConfiguredTasks(options);
    ConfiguredHasBaseTasks(options);
    NextTaskMeaning(point, configured);
    NextAfterPostInit(point, configured, NextTask(point, configured));
  }

  // ---------------------------------------------------------------------------------------------
  // A whole chain

  /** How many tasks of its chain come after `t`. */
  function Ahead(t: TaskName): nat {
    if IsWorkflowTask(t) then ChainBase(ChainOf(t)) + 10 - t.Id() else 0
  }

  /** The tasks visited by asking for the next task again and again, `t` included. */
  function Walk(t: TaskName, configured: seq<TaskName>): seq<TaskName>
    decreases Ahead(t), if t == RunNil then 0 else 1
  {
    if !IsWorkflowTask(t) then []
    else
      NextTaskMeaning(t, configured);
      [t] + Walk(NextTask(t, configured), configured)
  }

  function Keep(tasks: seq<TaskName>, configured: seq<TaskName>): seq<TaskName> {
    if tasks == [] then []
    else if tasks[0] in configured then [tasks[0]] + Keep(tasks[1..], configured)
    else Keep(tasks[1..], configured)
  }

  lemma {:induction false} KeepSkips(tasks: seq<TaskName>, configured: seq<TaskName>, k: nat)
    requires k <= |tasks| && forall i :: 0 <= i < k ==> tasks[i] !in configured
    ensures Keep(tasks, configured) == Keep(tasks[k..], configured)
    decreases k
  {
    if k > 0 {
      assert tasks[1..][k - 1..] == tasks[k..];
      KeepSkips(tasks[1..], configured, k - 1);
    } else {
      assert tasks[0..] == tasks;
    }
  }

  lemma NextSkips(t: TaskName, configured: seq<TaskName>, next: TaskName, rest: seq<TaskName>, k: nat)
    requires IsRest(rest, t) && k <= |rest| && IsNextTask(t, configured, next)
    requires next != RunNil ==> k == next.Id() - t.Id() - 1
    ensures forall i :: 0 <= i < k ==> rest[i] !in configured
  {
  }

  lemma KeepFromNext(t: TaskName, configured: seq<TaskName>, next: TaskName, order: seq<TaskName>, base: int)
    requires IsOrder(order, base) && base in {0, 100} && base < t.Id() <= base + 10
    requires IsNextTask(t, configured, next)
    ensures next == RunNil ==> Keep(order[t.Id() - base..], configured) == []
    ensures next != RunNil ==> base < next.Id() <= base + 10
    ensures next != RunNil ==>
      Keep(order[t.Id() - base..], configured) == Keep(order[next.Id() - base - 1..], configured)
  {
    var n := t.Id() - base;
    var stop := if next == RunNil then 10 else next.Id() - base - 1;
    OrderRest(t, order, base);
    NextSkips(t, configured, next, order[n..], stop - n);
    KeepSkips(order[n..], configured, stop - n);
    assert order[n..][stop - n..] == order[stop..];
  }

  /** From any configured task on, the walk is the rest of the canonical order with the unconfigured tasks left out. */
  lemma {:induction false} WalkIsOrder(t: TaskName, configured: seq<TaskName>, order: seq<TaskName>, base: int)
    requires IsOrder(order, base) && base in {0, 100} && base < t.Id() <= base + 10
    requires t in configured
    ensures Walk(t, configured) == Keep(order[t.Id() - base - 1..], configured)
    decreases Ahead(t)
  {
    var n := t.Id() - base;
    var next := NextTask(t, configured);
    NextTaskMeaning(t, configured);
    KeepFromNext(t, configured, next, order, base);
    SameIdSameTask(t, order[n - 1]);
    assert order[n - 1..][1..] == order[n..];
    if next != RunNil {
      WalkIsOrder(next, configured, order, base);
    }
  }

  /** Walking a chain from its setup task visits exactly its configured tasks, once each, in canonical order. */
  lemma WalkVisitsConfigured(options: seq<seq<TaskName>>, chain: Chain)
    ensures Walk(Order(chain)[0], ConfiguredTasks(options)) == Keep(Order(chain), ConfiguredTasks(options))
  {
    ConfiguredHasBaseTasks(options);
    assert IsBaseTask(RunSetup) && IsBaseTask(RunSetupDelete);
    OrderIds(chain, 0);
    OrderIsOrder(chain);
    WalkIsOrder(Order(chain)[0], ConfiguredTasks(options), Order(chain), ChainBase(chain));
    assert Order(chain)[0..] == Order(chain);
  }
}
