/** Which stage a pass enters, told by the stored resource alone. */
module Entries {
  import opened Wrappers
  import opened Tasks
  import opened Workflow
  import opened WorkflowFacts
  import Lists

  /** The pass gets past the finalizers, the name and the first stage. */
  ghost predicate ComesThrough(w: World, c: Choice) {
    && w.resource.Some? && c.readOk
    && var r := w.resource.value;
    && r.status.phase != PhaseDeleted && (TF_FINALIZER in r.finalizers <==> !r.spec.ignoreDelete)
    && r.status.prefix.Some? && r.status.stage.generation != 0
  }

  lemma ComesThroughIff(w: World, c: Choice)
    ensures ComesThrough(w, c) <==> KindOf(w, c).Entering? || KindOf(w, c) == Working
  {
  }

  /** A label asks for a retry that no stored status has taken in. */
  predicate LabelPends(r: Resource) {
    r.changeCause.Some? && (r.status.retryReason.None? || r.status.retryReason.value != r.changeCause.value)
  }

  /** The first event the step adds to the trail, if it adds any. */
  ghost function FirstAdded(w: World, w': World): Option<Event> {
    if |w'.trail| > |w.trail| then Some(w'.trail[|w.trail|]) else None
  }

  /** The step stores a stage entered for the cause. */
  ghost predicate StoresEntry(w: World, w': World, cause: Cause) {
    FirstAdded(w, w').Some? && FirstAdded(w, w').value.Entered? && FirstAdded(w, w').value.cause == cause
  }

  lemma AddedIs(w: World, w': World, events: seq<Event>)
    requires w'.trail == w.trail + events
    ensures FirstAdded(w, w') == if events == [] then None else Some(events[0])
  {
  }

  lemma WorkAddsNoEntry(w: World, c: Choice)
    requires KindOf(w, c) == Working
    ensures FirstAdded(w, Pass(w, c)).Some? ==> !FirstAdded(w, Pass(w, c)).value.Entered?
  {
    var t, events := WorkingPass(w, c);
    AddedIs(w, Pass(w, c), events);
    assert events != [] ==> events[0] in events;
  }

  lemma SavingAddsFirstOnly(w: World, c: Choice)
    requires !KindOf(w, c).Entering? && KindOf(w, c) != Working
    ensures FirstAdded(w, Pass(w, c)).Some? && FirstAdded(w, Pass(w, c)).value.Entered? ==>
      FirstAdded(w, Pass(w, c)).value.cause == FirstStage
  {
    if KindOf(w, c) == Finalizers {
      var f := FinalizerPass(w, c);
    }
  }

  /** A pass stores an entry for a cause other than the first stage exactly if it decides for it and the write is
      stored. */
  lemma StoresEntryIff(w: World, c: Choice, cause: Cause)
    requires WellStagedWorld(w) && cause != FirstStage
    ensures StoresEntry(w, Pass(w, c), cause) <==>
      KindOf(w, c).Entering? && KindOf(w, c).cause == cause && c.WriteOk(0)
    ensures StoresEntry(w, Pass(w, c), cause) ==> EntersInto(w, Pass(w, c), KindOf(w, c).stage, cause, true)
  {
    var kind := KindOf(w, c);
    if kind.Entering? {
      EnteringOutcome(w, c);
      var entry := Entered(kind.stage.generation, kind.stage.task, kind.cause);
      AddedIs(w, Pass(w, c), if c.WriteOk(0) then [entry] + ResetEvents(kind.stage) else []);
    } else if kind == Working {
      WorkAddsNoEntry(w, c);
    } else {
      SavingAddsFirstOnly(w, c);
    }
  }

  // ---------------------------------------------------------------------------------------------
  // Restarts

  /** The stage of the current generation is an apply that failed, its pod was looked for, and it is gone. */
  ghost predicate FailedForGood(w: World, c: Choice)
    requires w.resource.Some?
  {
    var r, stage := w.resource.value, w.resource.value.status.stage;
    && stage.generation == r.generation && stage.state == StateFailed
    && (stage.task == RunApply || stage.task == RunApplyDelete)
    && c.podGetOk && stage.podName.Some? && forall p :: p in w.pods ==> p.name != stage.podName.value
  }

  lemma NamesApart(pods: seq<Pod>, name: nat)
    ensures (forall i :: 0 <= i < |pods| ==> pods[i].name != name) <==> forall p :: p in pods ==> p.name != name
  {
    if forall p :: p in pods ==> p.name != name {
      forall i | 0 <= i < |pods| ensures pods[i].name != name {
        assert pods[i] in pods;
      }
    }
  }

  lemma DecidesRestartIff(w: World, c: Choice)
    requires WellStagedWorld(w) && ComesThrough(w, c)
    ensures KindOf(w, c).Entering? && KindOf(w, c).cause == Restart <==>
      !LabelPends(w.resource.value) && FailedForGood(w, c)
  {
    var r := w.resource.value;
    NoticedKeeps(r, w.clock);
    if r.status.stage.podName.Some? {
      NamesApart(w.pods, r.status.stage.podName.value);
    }
  }

  /** The task a restart of an apply leads to. */
  predicate IsRestartOf(apply: TaskName, task: TaskName, configured: seq<TaskName>) {
    if apply == RunApply then task == if RunPrePlan in configured then RunPrePlan else RunPlan
    else task == if RunPrePlanDelete in configured then RunPrePlanDelete else RunPlanDelete
  }

  /** In every reachable state a pass stores a restart if and only if no retry is pending, the stage is a failed apply
      of the resource's generation, the Get for its pod answered and the pod is not there, the pass gets that far and
      the write is stored; the restart is then of plan, or of pre-plan if that is configured, in the same chain. */
  lemma RestartIff(w: World, c: Choice)
    requires Reachable(w)
    ensures StoresEntry(w, Pass(w, c), Restart) <==>
      ComesThrough(w, c) && c.WriteOk(0) && !LabelPends(w.resource.value) && FailedForGood(w, c)
    ensures StoresEntry(w, Pass(w, c), Restart) ==>
      var r := w.resource.value;
      && FirstAdded(w, Pass(w, c)).value.generation == r.generation
      && IsRestartOf(r.status.stage.task, FirstAdded(w, Pass(w, c)).value.task, ConfiguredTasks(r.spec.optionTasks))
  {
    ReachableIsWellStaged(w);
    StoresEntryIff(w, c, Restart);
    ComesThroughIff(w, c);
    if ComesThrough(w, c) {
      DecidesRestartIff(w, c);
    }
    if StoresEntry(w, Pass(w, c), Restart) {
      RestartTaskIs(w, c);
    }
  }

  lemma RestartTaskIs(w: World, c: Choice)
    requires WellStagedWorld(w) && KindOf(w, c).Entering? && KindOf(w, c).cause == Restart
    ensures var r := w.resource.value;
      && KindOf(w, c).stage.generation == r.generation
      && IsRestartOf(r.status.stage.task, KindOf(w, c).stage.task, ConfiguredTasks(r.spec.optionTasks))
  {
    var r := w.resource.value;
    NoticedKeeps(r, w.clock);
    RestartIsAfter(r, Noticed(r, w.clock), RetryPending(r), w.pods, c);
    RestartAfterIs(r, RunPostInit, RestartedWorkflow);
    RestartAfterIs(r, RunPostInitDelete, RestartedDeleteWorkflow);
  }

  lemma RestartIsAfter(r: Resource, s: Status, isRetry: bool, pods: seq<Pod>, c: Choice)
    requires isRetry ==> s.retryReason.Some?
    ensures var m := CheckSetNewStage(r, s, isRetry, pods, c);
      m.Enter? && m.cause == Restart ==>
        if s.stage.task == RunApply then m == RestartAfter(r, RunPostInit, RestartedWorkflow)
        else m == RestartAfter(r, RunPostInitDelete, RestartedDeleteWorkflow)
  {
  }

  lemma RestartAfterIs(r: Resource, point: TaskName, reason: Reason)
    requires point == RunPostInit || point == RunPostInitDelete
    ensures var m := RestartAfter(r, point, reason);
      && m.Enter? && m.stage.generation == r.generation
      && IsRestartOf(if point == RunPostInit then RunApply else RunApplyDelete, m.stage.task,
                     ConfiguredTasks(r.spec.optionTasks))
  {
    RestartLandsOnPlan(r.spec.optionTasks, point);
  }

  // ---------------------------------------------------------------------------------------------
  // Retries

  predicate EndsWith(text: string, end: string) { |end| <= |text| && text[|text| - |end|..] == end }

  /** In every reachable state a pass stores a retry if and only if a label pends, the stage is of the resource's
      generation, the pass gets that far and the write is stored. It enters setup if the label ends in ".setup" and init
      otherwise, remembers the label and the second, and is a reason to set up exactly if the label is one of the
      controller's own three texts. */
  lemma RetryIff(w: World, c: Choice)
    requires Reachable(w)
    ensures StoresEntry(w, Pass(w, c), Retry) <==>
      && ComesThrough(w, c) && c.WriteOk(0) && LabelPends(w.resource.value)
      && w.resource.value.status.stage.generation == w.resource.value.generation
    ensures StoresEntry(w, Pass(w, c), Retry) ==>
      && Pass(w, c).resource.Some?
      && var s, text := Pass(w, c).resource.value.status, w.resource.value.changeCause.value;
      && s.stage.task == (if EndsWith(text, ".setup") then RunSetup else RunInit)
      && s.stage.state == StateInitializing && s.phase == PhaseInitializing
      && s.retryReason == Some(text) && s.retryTimestamp == Some(Instant(w.clock.second, false))
      && (SetsUp(s.stage.reason) <==> text in {"GENERATION_CHANGE", "TF_RESOURCE_CREATED", "TF_RESOURCE_DELETED"})
  {
    ReachableIsWellStaged(w);
    StoresEntryIff(w, c, Retry);
    ComesThroughIff(w, c);
    if ComesThrough(w, c) {
      DecidesRetryIff(w, c);
    }
    if StoresEntry(w, Pass(w, c), Retry) {
      RetryStores(w, c);
    }
  }

  lemma DecidesRetryIff(w: World, c: Choice)
    requires ComesThrough(w, c)
    ensures KindOf(w, c).Entering? && KindOf(w, c).cause == Retry <==>
      LabelPends(w.resource.value) && w.resource.value.status.stage.generation == w.resource.value.generation
  {
    NoticedKeeps(w.resource.value, w.clock);
  }

  lemma RetryStores(w: World, c: Choice)
    requires WellStagedWorld(w) && KindOf(w, c).Entering? && KindOf(w, c).cause == Retry && c.WriteOk(0)
    ensures Pass(w, c).resource.Some? && w.resource.value.changeCause.Some?
    ensures var s, text := Pass(w, c).resource.value.status, w.resource.value.changeCause.value;
      && s.stage.task == (if EndsWith(text, ".setup") then RunSetup else RunInit)
      && s.stage.state == StateInitializing && s.phase == PhaseInitializing
      && s.retryReason == Some(text) && s.retryTimestamp == Some(Instant(w.clock.second, false))
      && (SetsUp(s.stage.reason) <==> text in {"GENERATION_CHANGE", "TF_RESOURCE_CREATED", "TF_RESOURCE_DELETED"})
  {
    var r := w.resource.value;
    EnteringOutcome(w, c);
    NoticedKeeps(r, w.clock);
    RetryStage(r, Noticed(r, w.clock), RetryPending(r), w.pods, c);
    LabelIs(r.changeCause.value);
  }

  lemma RetryStage(r: Resource, s: Status, isRetry: bool, pods: seq<Pod>, c: Choice)
    requires isRetry ==> s.retryReason.Some? && s.phase == PhaseInitializing
    ensures var m := CheckSetNewStage(r, s, isRetry, pods, c);
      m.Enter? && m.cause == Retry ==>
        && isRetry && m.stage.reason == ReasonOfLabel(s.retryReason.value) && m.stage.state == StateInitializing
        && m.stage.task == if HasSetupSuffix(s.retryReason.value) then RunSetup else RunInit
  {
  }

  lemma LabelIs(text: string)
    ensures HasSetupSuffix(text) <==> EndsWith(text, ".setup")
    ensures SetsUp(ReasonOfLabel(text)) <==>
      text in {"GENERATION_CHANGE", "TF_RESOURCE_CREATED", "TF_RESOURCE_DELETED"}
  {
  }

  /** The label spells one of the two reasons to restart. */
  predicate SpellsRestart(text: string) { text == "RESTARTED_WORKFLOW" || text == "RESTARTED_DELETE_WORKFLOW" }

  lemma {:induction false} OldPlanKeepsIff(pods: seq<Pod>, generation: nat, reason: Reason)
    requires reason != RestartedWorkflow && reason != RestartedDeleteWorkflow
    ensures forall p :: p in WithoutOldPlan(pods, generation, reason) <==>
      p in pods && (p.generation != generation || p.phase == PodRunning)
  {
    if pods != [] {
      assert pods == [pods[0]] + pods[1..];
      OldPlanKeepsIff(pods[1..], generation, reason);
    }
  }

  /** A retry takes pods away only if its label spells one of the two reasons to restart and the removal goes through;
      then those of the generation that are not running go, unless the stage that is left was itself entered for one
      of them. */
  lemma RetryRemovesIff(w: World, c: Choice)
    requires Reachable(w) && KindOf(w, c).Entering? && KindOf(w, c).cause == Retry
    ensures var r := w.resource.value;
      && LabelPends(r)
      && if SpellsRestart(r.changeCause.value) && c.oldPlanRemoved then
           r.status.stage.reason != RestartedWorkflow && r.status.stage.reason != RestartedDeleteWorkflow ==>
             forall p ::
               p in Pass(w, c).pods <==> p in w.pods && (p.generation != r.generation || p.phase == PodRunning)
         else Pass(w, c).pods == w.pods
  {
    ReachableIsWellStaged(w);
    var r := w.resource.value;
    var s := Noticed(r, w.clock);
    NoticedKeeps(r, w.clock);
    EnteringNeedsStage(w, c);
    EnteringPass(w, c);
    RetryStage(r, s, RetryPending(r), w.pods, c);
    RestartLabelIs(r.changeCause.value);
    if s.stage.reason != RestartedWorkflow && s.stage.reason != RestartedDeleteWorkflow {
      OldPlanKeepsIff(w.pods, r.generation, s.stage.reason);
    }
  }

  lemma RestartLabelIs(text: string)
    ensures ReasonOfLabel(text) == RestartedWorkflow || ReasonOfLabel(text) == RestartedDeleteWorkflow <==>
      SpellsRestart(text)
  {
  }

  // ---------------------------------------------------------------------------------------------
  // New generations

  /** The resource is to be deleted, or already on its way out. */
  predicate IsLeaving(r: Resource) {
    r.deletionRequested || r.status.phase == PhaseInitDelete || r.status.phase == PhaseDeleting
  }

  /** In every reachable state a pass stores the first stage of a new generation if and only if the stage is of another
      generation, may be interrupted or is not in progress, the pass gets that far and the write is stored. The stage is
      the delete chain's if the resource is leaving and no label pends, and otherwise the create chain's, with no plugin
      started. */
  lemma NewGenerationIff(w: World, c: Choice)
    requires Reachable(w)
    ensures StoresEntry(w, Pass(w, c), NewGeneration) <==>
      && ComesThrough(w, c) && c.WriteOk(0)
      && var stage := w.resource.value.status.stage;
      && stage.generation != w.resource.value.generation && (stage.interruptible || stage.state != StateInProgress)
    ensures StoresEntry(w, Pass(w, c), NewGeneration) ==>
      && Pass(w, c).resource.Some?
      && var r, s := w.resource.value, Pass(w, c).resource.value.status;
      && s.stage.generation == r.generation && s.stage.state == StateInitializing
      && if IsLeaving(r) && !LabelPends(r) then
           s.stage.task == RunSetupDelete && IsDeletePhase(s.phase) && s.pluginsStarted == r.status.pluginsStarted
         else s.stage.task == RunSetup && s.phase == PhaseInitializing && s.pluginsStarted == []
  {
    ReachableIsWellStaged(w);
    StoresEntryIff(w, c, NewGeneration);
    ComesThroughIff(w, c);
    if ComesThrough(w, c) {
      DecidesNewGenerationIff(w, c);
    }
    if StoresEntry(w, Pass(w, c), NewGeneration) {
      NewGenerationStores(w, c);
    }
  }

  lemma DecidesNewGenerationIff(w: World, c: Choice)
    requires ComesThrough(w, c)
    ensures var stage := w.resource.value.status.stage;
      KindOf(w, c).Entering? && KindOf(w, c).cause == NewGeneration <==>
        stage.generation != w.resource.value.generation && (stage.interruptible || stage.state != StateInProgress)
  {
    NoticedKeeps(w.resource.value, w.clock);
  }

  lemma NewGenerationStores(w: World, c: Choice)
    requires WellStagedWorld(w) && KindOf(w, c).Entering? && KindOf(w, c).cause == NewGeneration && c.WriteOk(0)
    ensures Pass(w, c).resource.Some?
    ensures var r, s := w.resource.value, Pass(w, c).resource.value.status;
      && s.stage.generation == r.generation && s.stage.state == StateInitializing
      && if IsLeaving(r) && !LabelPends(r) then
           s.stage.task == RunSetupDelete && IsDeletePhase(s.phase) && s.pluginsStarted == r.status.pluginsStarted
         else s.stage.task == RunSetup && s.phase == PhaseInitializing && s.pluginsStarted == []
  {
    var r := w.resource.value;
    EnteringOutcome(w, c);
    EnteringFits(w, c);
    LeavingIff(r, w.clock);
  }

  /** What the pass takes for a delete phase. */
  lemma LeavingIff(r: Resource, clock: Instant)
    requires r.status.phase != PhaseDeleted
    ensures IsDeletePhase(Noticed(r, clock).phase) <==> IsLeaving(r) && !LabelPends(r)
    ensures Noticed(r, clock).pluginsStarted == r.status.pluginsStarted
  {
  }

  // ---------------------------------------------------------------------------------------------
  // Advances

  /** In every reachable state a pass stores the next stage if and only if no label pends, the stage is a completed
      task of the resource's generation, the pass gets that far and the write is stored; the next stage is for the
      first configured task after it in its chain. */
  lemma AdvanceIff(w: World, c: Choice)
    requires Reachable(w)
    ensures StoresEntry(w, Pass(w, c), Advance) <==>
      && ComesThrough(w, c) && c.WriteOk(0) && !LabelPends(w.resource.value)
      && var stage := w.resource.value.status.stage;
      && stage.generation == w.resource.value.generation && stage.state == StateComplete && stage.task != RunNil
    ensures StoresEntry(w, Pass(w, c), Advance) ==>
      && Pass(w, c).resource.Some?
      && var r, s := w.resource.value, Pass(w, c).resource.value.status;
      && s.stage.generation == r.generation
      && IsNextTask(r.status.stage.task, ConfiguredTasks(r.spec.optionTasks), s.stage.task)
      && s.stage.state == (if s.stage.task == RunNil then StateComplete else StateInitializing)
  {
    ReachableIsWellStaged(w);
    StoresEntryIff(w, c, Advance);
    ComesThroughIff(w, c);
    if w.resource.Some? {
      NoticedKeeps(w.resource.value, w.clock);
    }
    if KindOf(w, c).Entering? {
      EnteringFits(w, c);
    }
  }

  // ---------------------------------------------------------------------------------------------
  // The first stage

  /** A pass stores the first stage of all if and only if the resource is named and has none yet, is not deleted, its
      finalizer is as it should be and the write is stored. */
  lemma FirstStageIff(w: World, c: Choice)
    requires Reachable(w)
    ensures StoresEntry(w, Pass(w, c), FirstStage) <==>
      && w.resource.Some? && c.readOk && c.WriteOk(0)
      && var r := w.resource.value;
      && r.status.phase != PhaseDeleted && (TF_FINALIZER in r.finalizers <==> !r.spec.ignoreDelete)
      && r.status.prefix.Some? && r.status.stage.generation == 0
  {
    ReachableIsWellStaged(w);
    if KindOf(w, c).Entering? {
      EnteringOutcome(w, c);
      EnteringFits(w, c);
      var kind := KindOf(w, c);
      var entry := Entered(kind.stage.generation, kind.stage.task, kind.cause);
      AddedIs(w, Pass(w, c), if c.WriteOk(0) then [entry] + ResetEvents(kind.stage) else []);
    } else if KindOf(w, c) == Working {
      WorkAddsNoEntry(w, c);
    } else if KindOf(w, c) == Finalizers {
      var f := FinalizerPass(w, c);
    }
  }

  // ---------------------------------------------------------------------------------------------
  // The finalizer and the name

  lemma SavingDropsIff(w: World, c: Choice)
    requires !KindOf(w, c).Entering? && KindOf(w, c) != Working
    ensures FirstAdded(w, Pass(w, c)) == Some(FinalizerDropped) <==> DropsFinalizer(w, c)
  {
  }

  lemma OtherDropsNothing(w: World, c: Choice)
    requires WellStagedWorld(w) && (KindOf(w, c).Entering? || KindOf(w, c) == Working)
    ensures FirstAdded(w, Pass(w, c)) != Some(FinalizerDropped)
  {
    if KindOf(w, c).Entering? {
      EnteringOutcome(w, c);
    } else {
      var t, events := WorkingPass(w, c);
      AddedIs(w, Pass(w, c), events);
      assert events != [] ==> events[0] in events;
    }
  }

  /** The removal is due and leaves no finalizer of ours. */
  ghost predicate DropsFinalizer(w: World, c: Choice) {
    && w.resource.Some? && c.readOk && c.updateOk
    && var r := w.resource.value;
    && TF_FINALIZER in r.finalizers && (if r.status.phase == PhaseDeleted then c.secretsOk else r.spec.ignoreDelete)
    && var rest := Lists.ListRemove(r.finalizers, TF_FINALIZER);
       rest.Some? && TF_FINALIZER !in rest.value
  }

  /** In every reachable state a pass drops the finalizer if and only if it is there, the resource is in the phase
      deleted and the secrets' own finalizers could be updated, or deletion is ignored, the update is stored, and the
      removal from the list takes every mention out. The resource is then gone if and only if deletion was asked for
      and no other finalizer is left. */
  lemma DropIff(w: World, c: Choice)
    requires Reachable(w)
    ensures FirstAdded(w, Pass(w, c)) == Some(FinalizerDropped) <==> DropsFinalizer(w, c)
    ensures DropsFinalizer(w, c) ==>
      var r, rest := w.resource.value, Lists.ListRemove(w.resource.value.finalizers, TF_FINALIZER).value;
      Pass(w, c).resource
      == if r.deletionRequested && rest == [] then None else Some(r.(finalizers := rest))
  {
    ReachableIsWellStaged(w);
    if KindOf(w, c).Entering? || KindOf(w, c) == Working {
      OtherDropsNothing(w, c);
    } else {
      SavingDropsIff(w, c);
    }
  }

  /** The step leaves the name alone. */
  ghost predicate SameName(w: World, w': World) {
    w.resource.Some? && w'.resource.Some? ==> w'.resource.value.status.prefix == w.resource.value.status.prefix
  }

  lemma EnteringKeepsName(w: World, c: Choice)
    requires WellStagedWorld(w) && KindOf(w, c).Entering?
    ensures SameName(w, Pass(w, c))
  {
    NoticedKeeps(w.resource.value, w.clock);
    EnteringOutcome(w, c);
  }

  lemma WorkingKeepsName(w: World, c: Choice)
    requires KindOf(w, c) == Working
    ensures SameName(w, Pass(w, c))
  {
    NoticedKeeps(w.resource.value, w.clock);
    var t, events := WorkingPass(w, c);
  }

  lemma SavingName(w: World, c: Choice)
    requires !KindOf(w, c).Entering? && KindOf(w, c) != Working
    requires w.resource.Some? && Pass(w, c).resource.Some?
    ensures var name, name' := w.resource.value.status.prefix, Pass(w, c).resource.value.status.prefix;
      name' == name || (name.None? && name' == Some(c.prefix))
  {
  }

  /** A pass gives a resource the name under which its pods are made exactly once, and no later step changes it. */
  lemma NameStays(w: World, step: Step)
    requires Reachable(w) && w.resource.Some? && Next(w, step).resource.Some?
    ensures var name, name' := w.resource.value.status.prefix, Next(w, step).resource.value.status.prefix;
      name' == name || (name.None? && step.Controller? && name' == Some(step.choice.prefix))
  {
    ReachableIsWellStaged(w);
    if step.Controller? {
      var c := step.choice;
      if KindOf(w, c).Entering? {
        EnteringKeepsName(w, c);
      } else if KindOf(w, c) == Working {
        WorkingKeepsName(w, c);
      } else {
        SavingName(w, c);
      }
    }
  }
}
