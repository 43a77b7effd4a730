/** Which stages an edit of the spec cannot interrupt. */
module Interrupts {
  import opened Wrappers
  import opened Tasks
  import opened Workflow
  import opened WorkflowFacts
  import opened Entries
  import opened LostPods

  /** Init, plan and apply, of either chain. */
  predicate IsKept(t: TaskName) {
    t.RunInit? || t.RunPlan? || t.RunApply? || t.RunInitDelete? || t.RunPlanDelete? || t.RunApplyDelete?
  }

  /** What may be interrupted: all but the six, the very first setup, and the setup of a delete chain of which the flag
      alone tells. */
  predicate IsFree(stage: Stage) {
    if stage.task == RunSetupDelete then stage.interruptible
    else !IsKept(stage.task) && !(stage.task == RunSetup && stage.reason == ResourceCreated)
  }

  ghost predicate FlagIsRight(w: World) {
    w.resource.Some? && w.resource.value.status.stage.generation != 0 ==>
      (w.resource.value.status.stage.interruptible <==> IsFree(w.resource.value.status.stage))
  }

  /** A label that leads to setup spells no reason of the controller's own. */
  lemma SetupLabelIsPlain(text: string)
    requires HasSetupSuffix(text)
    ensures ReasonOfLabel(text) == ChangeCause(text)
  {
  }

  /** The flag of a stage that is no setup follows its task. */
  lemma TaskFlag(stage: Stage)
    requires stage.task != RunSetup && stage.task != RunSetupDelete
    requires stage.interruptible == !Uninterruptible(stage.task)
    ensures stage.interruptible <==> IsFree(stage)
  {
  }

  lemma RetryFlag(r: Resource, text: string, task: TaskName)
    requires task == RunSetup || task == RunSetupDelete ==> HasSetupSuffix(text)
    ensures var stage := NewStage(r.generation, task, ReasonOfLabel(text), !Uninterruptible(task), StateInitializing);
      stage.interruptible <==> IsFree(stage)
  {
    if HasSetupSuffix(text) {
      SetupLabelIsPlain(text);
    }
  }

  lemma LaterIsNoSetup(t: TaskName, next: TaskName)
    requires SameChain(t, next) && t.Id() < next.Id()
    ensures next != RunSetup && next != RunSetupDelete
  {
  }

  lemma NextIsNoSetup(t: TaskName, configured: seq<TaskName>)
    requires IsWorkflowTask(t)
    ensures NextTask(t, configured) != RunSetup && NextTask(t, configured) != RunSetupDelete
  {
    NextTaskMeaning(t, configured);
    if NextTask(t, configured) != RunNil {
      LaterIsNoSetup(t, NextTask(t, configured));
    }
  }

  lemma RestartFlag(r: Resource, point: TaskName, reason: Reason, m: Move)
    requires IsWorkflowTask(point) && m == RestartAfter(r, point, reason)
    ensures m.Enter? && (m.stage.interruptible <==> IsFree(m.stage))
  {
    NextIsNoSetup(point, ConfiguredTasks(r.spec.optionTasks));
    TaskFlag(m.stage);
  }

  lemma DecidedFlag(r: Resource, s: Status, isRetry: bool, pods: seq<Pod>, c: Choice)
    requires isRetry ==> s.retryReason.Some?
    ensures var m := CheckSetNewStage(r, s, isRetry, pods, c);
      m.Enter? ==> (m.stage.interruptible <==> IsFree(m.stage))
  {
    var m, configured := CheckSetNewStage(r, s, isRetry, pods, c), ConfiguredTasks(r.spec.optionTasks);
    if m.Enter? {
      match m.cause
      case Retry => RetryFlag(r, s.retryReason.value, m.stage.task);
      case Advance =>
        AdvanceIs(r, s, isRetry, pods, c);
        if IsWorkflowTask(s.stage.task) {
          NextIsNoSetup(s.stage.task, configured);
        }
        TaskFlag(m.stage);
      case Restart =>
        RestartIsAfter(r, s, isRetry, pods, c);
        if s.stage.task == RunApply {
          RestartFlag(r, RunPostInit, RestartedWorkflow, m);
        } else {
          RestartFlag(r, RunPostInitDelete, RestartedDeleteWorkflow, m);
        }
      case _ =>
    }
  }

  lemma EnteringFlag(w: World, c: Choice)
    requires WellStagedWorld(w) && FlagIsRight(w) && KindOf(w, c).Entering?
    ensures FlagIsRight(Pass(w, c))
  {
    var r := w.resource.value;
    EnteringNeedsStage(w, c);
    NoticedKeeps(r, w.clock);
    EnteringOutcome(w, c);
    DecidedFlag(r, Noticed(r, w.clock), RetryPending(r), w.pods, c);
    EnteredFlag(w, Pass(w, c), KindOf(w, c).stage, KindOf(w, c).cause, c.WriteOk(0));
  }

  lemma EnteredFlag(w: World, w': World, stage: Stage, cause: Cause, stored: bool)
    requires FlagIsRight(w) && EntersInto(w, w', stage, cause, stored) && (stage.interruptible <==> IsFree(stage))
    ensures FlagIsRight(w')
  {
  }

  lemma WorkingFlag(w: World, c: Choice)
    requires WellStagedWorld(w) && FlagIsRight(w) && KindOf(w, c) == Working
    ensures FlagIsRight(Pass(w, c))
  {
    var r := w.resource.value;
    NoticedKeeps(r, w.clock);
    var t, events := WorkingPass(w, c);
    WorkedFlag(w, Pass(w, c), r, Noticed(r, w.clock), t, events);
  }

  /** Work leaves task, reason and flag of a stage alone. */
  lemma WorkedFlag(w: World, w': World, r: Resource, s: Status, t: Status, events: seq<Event>)
    requires FlagIsRight(w) && w.resource == Some(r) && s.stage == r.status.stage
    requires WorkEffect(r, s, t, events) && WorkStores(w, w', r, t, events)
    ensures FlagIsRight(w')
  {
  }

  lemma SavingFlag(w: World, c: Choice)
    requires WellStagedWorld(w) && FlagIsRight(w) && !KindOf(w, c).Entering? && KindOf(w, c) != Working
    ensures FlagIsRight(Pass(w, c))
  {
    if KindOf(w, c) == Finalizers {
      var f := FinalizerPass(w, c);
    }
  }

  lemma NextFlag(w: World, step: Step)
    requires WellStagedWorld(w) && FlagIsRight(w)
    ensures FlagIsRight(Next(w, step))
  {
    match step
    case Environment(e) =>
    case Controller(c) =>
      if KindOf(w, c).Entering? {
        EnteringFlag(w, c);
      } else if KindOf(w, c) == Working {
        WorkingFlag(w, c);
      } else {
        SavingFlag(w, c);
      }
  }

  ghost predicate StagedRight(w: World) { WellStagedWorld(w) && FlagIsRight(w) }

  /** In every reachable state a stage of any task but setup-delete may be interrupted if and only if it is not for
      init, plan or apply or their counterparts of the delete chain, nor the setup of a newly created resource. */
  lemma InterruptibleIff(w: World)
    requires Reachable(w) && w.resource.Some? && w.resource.value.status.stage.generation != 0
    ensures var stage := w.resource.value.status.stage;
      stage.task != RunSetupDelete ==>
        (stage.interruptible <==>
         !IsKept(stage.task) && !(stage.task == RunSetup && stage.reason == ResourceCreated))
  {
    var w0, steps :| IsFresh(w0) && w == Run(w0, steps);
    forall v, step | StagedRight(v) ensures StagedRight(Next(v, step)) {
      NextKeepsWellStaged(v, step);
      NextFlag(v, step);
    }
    RunInduction(v => StagedRight(v), w0, steps);
  }

  // ---------------------------------------------------------------------------------------------
  // An edit while a stage is in progress

  lemma EditIsReachable(w: World, e: Edit)
    requires Reachable(w)
    ensures Reachable(EnvNext(w, EditResource(e)))
  {
    var w0, steps :| IsFresh(w0) && w == Run(w0, steps);
    assert (steps + [Environment(EditResource(e))])[..|steps|] == steps;
    assert EnvNext(w, EditResource(e)) == Run(w0, steps + [Environment(EditResource(e))]);
  }

  /** When the spec is edited while a stage is in progress, a pass that comes through starts the new generation if and
      only if the stage is none of those; otherwise the stage stays the resource's until its pod was seen. */
  lemma EditLeavesIff(w: World, spec: Spec, c: Choice)
    requires Reachable(w) && w.resource.Some? && spec != w.resource.value.spec
    requires w.resource.value.status.stage.state == StateInProgress
    requires w.resource.value.status.stage.task != RunSetupDelete && c.WriteOk(0)
    requires ComesThrough(EnvNext(w, EditResource(EditSpec(spec))), c)
    ensures var edited, stage := EnvNext(w, EditResource(EditSpec(spec))), w.resource.value.status.stage;
      StoresEntry(edited, Pass(edited, c), NewGeneration) <==>
        !IsKept(stage.task) && !(stage.task == RunSetup && stage.reason == ResourceCreated)
    ensures var edited, stage := EnvNext(w, EditResource(EditSpec(spec))), w.resource.value.status.stage;
      StoresEntry(edited, Pass(edited, c), NewGeneration) || KeepsStage(stage, Pass(edited, c))
  {
    var edited := EnvNext(w, EditResource(EditSpec(spec)));
    EditIsReachable(w, EditSpec(spec));
    EditedIsNew(w, spec);
    NewGenerationIff(edited, c);
    InterruptibleIff(w);
    if !StoresEntry(edited, Pass(edited, c), NewGeneration) {
      InProgressIsKept(edited, c);
    }
  }

  /** The stage is still the one for this task and generation. */
  ghost predicate KeepsStage(stage: Stage, w': World) {
    && w'.resource.Some? && w'.resource.value.status.stage.task == stage.task
    && w'.resource.value.status.stage.generation == stage.generation
  }

  lemma EditedIsNew(w: World, spec: Spec)
    requires Reachable(w) && w.resource.Some? && spec != w.resource.value.spec
    ensures var edited := EnvNext(w, EditResource(EditSpec(spec)));
      edited.resource.Some? ==>
        && edited.resource.value.status == w.resource.value.status
        && edited.resource.value.status.stage.generation != edited.resource.value.generation
  {
    ReachableIsWellStaged(w);
  }

  lemma InProgressIsKept(w: World, c: Choice)
    requires Reachable(w) && ComesThrough(w, c) && c.WriteOk(0)
    requires w.resource.value.status.stage.state == StateInProgress
    requires w.resource.value.status.stage.generation != w.resource.value.generation
    requires !StoresEntry(w, Pass(w, c), NewGeneration)
    ensures KeepsStage(w.resource.value.status.stage, Pass(w, c))
  {
    ReachableIsWellStaged(w);
    NewGenerationIff(w, c);
    ComesThroughIff(w, c);
    NoticedKeeps(w.resource.value, w.clock);
    DecidesNewGenerationIff(w, c);
    if KindOf(w, c) == Working {
      var t, events := WorkingPass(w, c);
    }
  }

  // ---------------------------------------------------------------------------------------------
  // A label on top of the edit

  /** The spec was edited while a stage in progress must not be interrupted, and a label pends. All pods are from before
      this second. */
  ghost predicate EditedAndLabelled(w: World) {
    && w.resource.Some? && LabelPends(w.resource.value)
    && var stage := w.resource.value.status.stage;
    && stage.state == StateInProgress && !stage.interruptible && stage.generation != w.resource.value.generation
    && forall p :: p in w.pods ==> p.created < w.clock.second
  }

  /** The pass that takes the label in no longer finds the stage's pod, and takes the stage back; the next one leaves
      the stage, which was not to be interrupted, while its pod is as it was. */
  lemma LabelUnguards(w: World, c: Choice, c': Choice)
    requires Reachable(w) && EditedAndLabelled(w) && ComesThrough(w, c) && c.listOk && c.WriteOk(0)
    requires c'.readOk && c'.WriteOk(0)
    ensures Pass(w, c).pods == w.pods && TakesBack(w, Pass(w, c))
    ensures StoresEntry(Pass(w, c), Pass(Pass(w, c), c'), NewGeneration) && Pass(Pass(w, c), c').pods == w.pods
  {
    LostPodIff(w, c);
    PassIsReachable(w, c);
    TakenBackComesThrough(w, c, c');
    NewGenerationIff(Pass(w, c), c');
    NewGenerationKeepsPods(Pass(w, c), c');
  }

  lemma PassIsReachable(w: World, c: Choice)
    requires Reachable(w)
    ensures Reachable(Pass(w, c))
  {
    var w0, steps :| IsFresh(w0) && w == Run(w0, steps);
    assert (steps + [Controller(c)])[..|steps|] == steps;
    assert Pass(w, c) == Run(w0, steps + [Controller(c)]);
  }

  lemma TakenBackComesThrough(w: World, c: Choice, c': Choice)
    requires Reachable(w) && ComesThrough(w, c) && TakesBack(w, Pass(w, c)) && c'.readOk
    requires w.resource.value.status.stage.state == StateInProgress
    ensures ComesThrough(Pass(w, c), c') && Pass(w, c).resource.value.generation == w.resource.value.generation
  {
    ReachableIsWellStaged(w);
    LostPodIff(w, c);
    DecidesToLook(w, c);
    NoticedKeeps(w.resource.value, w.clock);
    var t, events := WorkingPass(w, c);
  }

  lemma NewGenerationKeepsPods(w: World, c: Choice)
    requires Reachable(w) && StoresEntry(w, Pass(w, c), NewGeneration)
    ensures Pass(w, c).pods == w.pods
  {
    ReachableIsWellStaged(w);
    StoresEntryIff(w, c, NewGeneration);
    EnteringPass(w, c);
  }
}
