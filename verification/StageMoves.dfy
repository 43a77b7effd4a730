/** Where a stage may lead, against what the guards of the source read like. */
module StageMoves {
  import opened Wrappers
  import opened Tasks
  import opened Workflow
  import opened WorkflowFacts
  import Entries

  // ---------------------------------------------------------------------------------------------
  // What a retry enters

  /** Remark: a retry overwrites the phase, so it leads into the create chain even for a resource that is being deleted:
      the branch that would restart the destroy is never taken. */
  lemma RetryCreates(w: World, c: Choice)
    requires WellStagedWorld(w) && KindOf(w, c).Entering? && KindOf(w, c).cause == Retry
    ensures KindOf(w, c).stage.task == RunSetup || KindOf(w, c).stage.task == RunInit
  {
  }

  /** Every stage that was entered for a retry is setup or init. */
  ghost predicate RetriesCreate(trail: seq<Event>) {
    forall e :: e in trail && e.Entered? && e.cause == Retry ==> e.task == RunSetup || e.task == RunInit
  }

  lemma EnterRetriesCreate(w: World, w': World, c: Choice, stage: Stage, cause: Cause, stored: bool)
    requires RetriesCreate(w.trail) && EntersInto(w, w', stage, cause, stored)
    requires MoveFits(w.resource.value, Noticed(w.resource.value, w.clock), RetryPending(w.resource.value), w.pods, c,
               stage, cause)
    ensures RetriesCreate(w'.trail)
  {
  }

  lemma WorkRetriesCreate(w: World, w': World, r: Resource, s: Status, t: Status, events: seq<Event>)
    requires RetriesCreate(w.trail) && WorkEffect(r, s, t, events) && WorkStores(w, w', r, t, events)
    ensures RetriesCreate(w'.trail)
  {
  }

  lemma SaveRetriesCreate(w: World, c: Choice)
    requires RetriesCreate(w.trail) && !KindOf(w, c).Entering? && KindOf(w, c) != Working
    ensures RetriesCreate(Pass(w, c).trail)
  {
  }

  lemma NextRetriesCreate(w: World, step: Step)
    requires WellStagedWorld(w) && RetriesCreate(w.trail)
    ensures RetriesCreate(Next(w, step).trail)
  {
    if step.Controller? {
      var c := step.choice;
      if KindOf(w, c).Entering? {
        var stage, cause := EnteringFacts(w, c);
        EnterRetriesCreate(w, Pass(w, c), c, stage, cause, c.WriteOk(0));
      } else if KindOf(w, c) == Working {
        var t, events := WorkingPass(w, c);
        WorkRetriesCreate(w, Pass(w, c), w.resource.value, Noticed(w.resource.value, w.clock), t, events);
      } else {
        SaveRetriesCreate(w, c);
      }
    }
  }

  /** In every run each stage entered for a retry is setup or init: a retry never restarts a destroy. */
  lemma RetriesNeverDestroy(w: World)
    requires Reachable(w)
    ensures forall e :: e in w.trail && e.Entered? && e.cause == Retry ==> e.task == RunSetup || e.task == RunInit
  {
    var w0, steps :| IsFresh(w0) && w == Run(w0, steps);
    forall v, step | WellStagedWorld(v) && RetriesCreate(v.trail)
      ensures WellStagedWorld(Next(v, step)) && RetriesCreate(Next(v, step).trail)
    {
      NextKeepsWellStaged(v, step);
      NextRetriesCreate(v, step);
    }
    RunInduction(v => WellStagedWorld(v) && RetriesCreate(v.trail), w0, steps);
  }

  // ---------------------------------------------------------------------------------------------
  // The guard of uninterruptible stages

  /** The pass gets as far as deciding about the stage. */
  ghost predicate Decides(w: World, c: Choice) {
    KindOf(w, c).Entering? || KindOf(w, c) == Working
  }

  /** Remark: while the generation is new, and no retry asks for more, exactly an uninterruptible stage whose state is
      in-progress is not left. */
  lemma StageIsGuardedIff(w: World, c: Choice)
    requires Decides(w, c) && w.resource.value.status.stage.generation != w.resource.value.generation
    requires !RetryPending(w.resource.value)
    ensures KindOf(w, c) == Working <==>
      !w.resource.value.status.stage.interruptible && w.resource.value.status.stage.state == StateInProgress
  {
  }

  /** Remark: once a pass has seen the pod of a stage run, the stage's state is the pod's phase and the guard is gone: a
      pass after an edit of the spec leaves the stage, interruptible or not, while its pod runs. */
  lemma SeenRunningIsLeft(w: World, c: Choice, spec: Spec, c': Choice)
    requires KindOf(w, c) == Working && c.listOk && c.WriteOk(0)
    requires w.resource.value.status.stage.task != RunNil && !RetryPending(w.resource.value)
    requires w.resource.value.status.stage.generation == w.resource.value.generation
    requires var found := Lookup(w.pods, Noticed(w.resource.value, w.clock));
      found != [] && found[0].phase == PodRunning
    requires spec != w.resource.value.spec && spec.ignoreDelete == w.resource.value.spec.ignoreDelete && c'.readOk
    ensures var edited := EnvNext(Pass(w, c), EditResource(EditSpec(spec)));
      edited.resource.Some? ==> KindOf(edited, c').Entering? && KindOf(edited, c').cause == NewGeneration
  {
    var r := w.resource.value;
    NoticedKeeps(r, w.clock);
    var s := Noticed(r, w.clock);
    var pod := Lookup(w.pods, s)[0];
    assert Pass(w, c) == Observe(w, r, s, pod, c);
    SeenRunning(w, r, s, pod, c);
    var seen := Pass(w, c);
    var edited := EnvNext(seen, EditResource(EditSpec(spec)));
    if edited.resource.Some? {
      LeftAfterEdit(edited, c');
    }
  }

  lemma SeenRunning(w: World, r: Resource, s: Status, pod: Pod, c: Choice)
    requires pod.phase == PodRunning && c.WriteOk(0) && w.resource == Some(r)
    ensures var w' := Observe(w, r, s, pod, c);
      && w'.resource.Some? && w'.resource.value.(status := r.status) == r
      && w'.resource.value.status.stage == s.stage.(
           podName := Some(pod.name), message := PodMessage(pod.name, pod.phase), state := StateOfPod(PodRunning))
      && w'.resource.value.status == Stored(s).(stage := w'.resource.value.status.stage)
  {
  }

  lemma LeftAfterEdit(w: World, c: Choice)
    requires w.resource.Some? && c.readOk
    requires var r := w.resource.value;
      && r.status.phase != PhaseDeleted
      && UpdatedFinalizers(r.status.phase, r.spec.ignoreDelete, r.finalizers) == Unchanged
      && r.status.prefix.Some? && r.status.stage.generation != 0 && !RetryPending(r)
      && r.status.stage.generation != r.generation && r.status.stage.state == StateOfPod(PodRunning)
    ensures KindOf(w, c).Entering? && KindOf(w, c).cause == NewGeneration
  {
  }

  // ---------------------------------------------------------------------------------------------
  // What a restart removes

  /** An apply stage, of either chain, was entered from a completed one. */
  ghost predicate ApplyFollows(w: World) {
    && WellStagedWorld(w)
    && (w.resource.Some?
        && (w.resource.value.status.stage.task == RunApply || w.resource.value.status.stage.task == RunApplyDelete) ==>
          w.resource.value.status.stage.reason.CompletedTask?)
  }

  lemma EnterApplyFollows(w: World, w': World, pods: seq<Pod>, c: Choice, stage: Stage, cause: Cause, stored: bool)
    requires ApplyFollows(w) && WellStagedWorld(w') && EntersInto(w, w', stage, cause, stored)
    requires MoveFits(w.resource.value, Noticed(w.resource.value, w.clock), RetryPending(w.resource.value), pods, c,
               stage, cause)
    ensures ApplyFollows(w')
  {
  }

  lemma WorkApplyFollows(w: World, w': World, t: Status, events: seq<Event>)
    requires ApplyFollows(w) && WellStagedWorld(w') && w.resource.Some?
    requires var r := w.resource.value; WorkEffect(r, Noticed(r, w.clock), t, events) && WorkStores(w, w', r, t, events)
    ensures ApplyFollows(w')
  {
  }

  lemma SaveApplyFollows(w: World, c: Choice)
    requires ApplyFollows(w) && !KindOf(w, c).Entering? && KindOf(w, c) != Working && WellStagedWorld(Pass(w, c))
    ensures ApplyFollows(Pass(w, c))
  {
  }

  lemma PassApplyFollows(w: World, c: Choice)
    requires ApplyFollows(w)
    ensures ApplyFollows(Pass(w, c))
  {
    PassKeepsWellStaged(w, c);
    if KindOf(w, c).Entering? {
      EnteringOutcome(w, c);
      EnteringFits(w, c);
      EnterApplyFollows(w, Pass(w, c), w.pods, c, KindOf(w, c).stage, KindOf(w, c).cause, c.WriteOk(0));
    } else if KindOf(w, c) == Working {
      var t, events := WorkingPass(w, c);
      WorkApplyFollows(w, Pass(w, c), t, events);
    } else {
      SaveApplyFollows(w, c);
    }
  }

  lemma NextApplyFollows(w: World, step: Step)
    requires ApplyFollows(w)
    ensures ApplyFollows(Next(w, step))
  {
    match step
    case Controller(c) => PassApplyFollows(w, c);
    case Environment(e) => NextKeepsWellStaged(w, step);
  }

  lemma ReachableApplyFollows(w: World)
    requires Reachable(w)
    ensures ApplyFollows(w)
  {
    var w0, steps :| IsFresh(w0) && w == Run(w0, steps);
    forall v, step | ApplyFollows(v) ensures ApplyFollows(Next(v, step)) {
      NextApplyFollows(v, step);
    }
    RunInduction(v => ApplyFollows(v), w0, steps);
  }

  /** A restart passes on the reason of the stage it leaves, which is never a restart's own. So the pods of the tasks
      up to postinit are not spared: of the pods of the generation exactly the running ones are left. */
  lemma RestartRemovesAll(w: World, c: Choice)
    requires Reachable(w)
    ensures KindOf(w, c).Entering? && KindOf(w, c).cause == Restart && c.oldPlanRemoved ==>
      w.resource.Some? && OnlyRunningLeft(w.pods, Pass(w, c).pods, w.resource.value.generation)
  {
    ReachableApplyFollows(w);
    if KindOf(w, c).Entering? && KindOf(w, c).cause == Restart && c.oldPlanRemoved {
      EnteringPass(w, c);
      var r := w.resource.value;
      NoticedKeeps(r, w.clock);
      Entries.OldPlanKeepsIff(w.pods, r.generation, r.status.stage.reason);
      RestartPods(w, r, Noticed(r, w.clock), KindOf(w, c).stage, c);
    }
  }

  ghost predicate OnlyRunningLeft(before: seq<Pod>, after: seq<Pod>, generation: nat) {
    forall p :: p in after <==> p in before && (p.generation != generation || p.phase == PodRunning)
  }

  lemma RestartPods(w: World, r: Resource, s: Status, stage: Stage, c: Choice)
    requires (stage.reason == RestartedWorkflow || stage.reason == RestartedDeleteWorkflow) && c.oldPlanRemoved
    ensures EnterStage(w, r, s, stage, Restart, c).pods == WithoutOldPlan(w.pods, r.generation, s.stage.reason)
  {
  }
}
