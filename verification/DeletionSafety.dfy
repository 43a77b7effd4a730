/** A resource whose deletion was asked for is destroyed, in order, before its finalizer goes: when, and when not. */
module DeletionSafety {
  import opened Wrappers
  import opened Tasks
  import opened Workflow
  import opened WorkflowFacts

  // ---------------------------------------------------------------------------------------------
  // The order of the destroy tasks

  /** The k-th of the four tasks every destroy goes through. */
  function DestroyTask(k: nat): TaskName
    requires 1 <= k <= 4
  {
    if k == 1 then RunSetupDelete
    else if k == 2 then RunInitDelete
    else if k == 3 then RunPlanDelete
    else RunApplyDelete
  }

  /** The first `k` of them completed for generation `g`, in that order, among the first `n` events. */
  ghost predicate DoneBy(trail: seq<Event>, n: nat, g: nat, k: nat)
    requires n <= |trail| && k <= 4
    decreases k
  {
    k == 0 || exists j: nat :: j < n && LastDone(trail, j, g, k)
  }

  /** The k-th of them completes at event `j`, and those before it before. */
  ghost predicate LastDone(trail: seq<Event>, j: nat, g: nat, k: nat)
    requires j < |trail| && 1 <= k <= 4
    decreases k, 0
  {
    Completes(trail[j], g, DestroyTask(k)) && DoneBy(trail, j, g, k - 1)
  }

  ghost predicate Done(trail: seq<Event>, g: nat, k: nat)
    requires k <= 4
  {
    DoneBy(trail, |trail|, g, k)
  }

  lemma {:induction false} DoneByStays(trail: seq<Event>, n: nat, all: seq<Event>, m: nat, g: nat, k: nat)
    requires n <= |trail| && n <= m <= |all| && trail <= all && k <= 4 && DoneBy(trail, n, g, k)
    ensures DoneBy(all, m, g, k)
    decreases k
  {
    if k > 0 {
      var j: nat :| j < n && LastDone(trail, j, g, k);
      DoneByStays(trail, j, all, j, g, k - 1);
      assert LastDone(all, j, g, k);
    }
  }

  lemma DoneStays(trail: seq<Event>, more: seq<Event>, g: nat, k: nat)
    requires k <= 4 && Done(trail, g, k)
    ensures Done(trail + more, g, k)
  {
    DoneByStays(trail, |trail|, trail + more, |trail + more|, g, k);
  }

  lemma {:induction false} DoneByBefore(trail: seq<Event>, n: nat, g: nat, k: nat, l: nat)
    requires n <= |trail| && l <= k <= 4 && DoneBy(trail, n, g, k)
    ensures DoneBy(trail, n, g, l)
    decreases k
  {
    if l < k {
      var j: nat :| j < n && LastDone(trail, j, g, k);
      DoneByStays(trail, j, trail, n, g, k - 1);
      DoneByBefore(trail, n, g, k - 1, l);
    }
  }

  lemma DoneBefore(trail: seq<Event>, g: nat, k: nat, l: nat)
    requires l <= k <= 4 && Done(trail, g, k)
    ensures Done(trail, g, l)
  {
    DoneByBefore(trail, |trail|, g, k, l);
  }

  lemma DoneNext(trail: seq<Event>, e: Event, g: nat, k: nat)
    requires k < 4 && Done(trail, g, k) && Completes(e, g, DestroyTask(k + 1))
    ensures Done(trail + [e], g, k + 1)
  {
    var all := trail + [e];
    DoneByStays(trail, |trail|, all, |trail|, g, k);
    assert LastDone(all, |trail|, g, k + 1);
  }

  /** setup-delete, init-delete, plan-delete and apply-delete completed for generation `g` at these events. */
  ghost predicate DestroyedAt(trail: seq<Event>, g: nat, a: nat, b: nat, c: nat, d: nat) {
    && a < b < c < d < |trail|
    && Completes(trail[a], g, RunSetupDelete) && Completes(trail[b], g, RunInitDelete)
    && Completes(trail[c], g, RunPlanDelete) && Completes(trail[d], g, RunApplyDelete)
  }

  /** They completed, in that order. */
  ghost predicate Destroyed(trail: seq<Event>, g: nat) {
    exists a: nat, b: nat, c: nat, d: nat :: DestroyedAt(trail, g, a, b, c, d)
  }

  lemma DoneAt(trail: seq<Event>, n: nat, g: nat, k: nat) returns (j: nat)
    requires n <= |trail| && 1 <= k <= 4 && DoneBy(trail, n, g, k)
    ensures j < n && Completes(trail[j], g, DestroyTask(k)) && DoneBy(trail, j, g, k - 1)
  {
    j :| j < n && LastDone(trail, j, g, k);
  }

  lemma DoneIsDestroyed(trail: seq<Event>, g: nat, k: nat)
    requires k == 4 && Done(trail, g, k)
    ensures Destroyed(trail, g)
  {
    var d := DoneAt(trail, |trail|, g, k);
    var c := DoneAt(trail, d, g, k - 1);
    var b := DoneAt(trail, c, g, k - 2);
    var a := DoneAt(trail, b, g, k - 3);
    assert DestroyedAt(trail, g, a, b, c, d);
  }

  // ---------------------------------------------------------------------------------------------
  // Destroying

  predicate Destroying(t: TaskName) { t == RunNil || IsDeleteTask(t) }

  /** How many of the four tasks lie behind a stage of the delete chain. */
  function Behind(stage: Stage): nat {
    var id := if stage.state == StateComplete then stage.task.Id() else stage.task.Id() - 1;
    if stage.task == RunNil then 4
    else if id < 101 then 0 else if id < 103 then 1 else if id < 106 then 2 else if id < 109 then 3 else 4
  }

  ghost predicate OnTrack(stage: Stage, trail: seq<Event>) {
    Destroying(stage.task) && Done(trail, stage.generation, Behind(stage))
  }

  /** A resource on its way to deletion the way it is meant to be. */
  ghost predicate Safe(r: Resource, trail: seq<Event>) {
    var stage, phase := r.status.stage, r.status.phase;
    && WellStaged(r) && r.deletionRequested && stage.generation != 0
    && (stage.generation == r.generation ==> IsDeletePhase(phase) && OnTrack(stage, trail))
    && (phase == PhaseDeleting || phase == PhaseDeleted ==> OnTrack(stage, trail))
    && (phase == PhaseDeleted ==> stage.task == RunNil)
  }

  /** Nothing asks for a retry, and deletion is not to be ignored. */
  predicate Calm(w: World) {
    w.resource.Some? ==> !RetryPending(w.resource.value) && !w.resource.value.spec.ignoreDelete
  }

  ghost predicate SafeWorld(w: World) {
    w.resource.Some? ==> Safe(w.resource.value, w.trail)
  }

  lemma SafeStays(r: Resource, r': Resource, trail: seq<Event>, more: seq<Event>)
    requires Safe(r, trail) && WellStaged(r') && r'.deletionRequested
    requires r'.status == r.status && r.generation <= r'.generation
    ensures Safe(r', trail + more)
  {
    if OnTrack(r.status.stage, trail) {
      DoneStays(trail, more, r.status.stage.generation, Behind(r.status.stage));
    }
  }

  lemma AdvanceOnTrack(r: Resource, stage: Stage, trail: seq<Event>, more: seq<Event>)
    requires OnTrack(r.status.stage, trail) && FreshStage(r, stage)
    requires r.status.stage.generation == r.generation && r.status.stage.state == StateComplete
    requires IsWorkflowTask(r.status.stage.task)
    requires IsNextTask(r.status.stage.task, ConfiguredTasks(r.spec.optionTasks), stage.task)
    ensures OnTrack(stage, trail + more)
  {
    ConfiguredHasBaseTasks(r.spec.optionTasks);
    NextBaseTask(r.status.stage.task, ConfiguredTasks(r.spec.optionTasks), stage.task);
    assert Behind(stage) <= Behind(r.status.stage);
    DoneBefore(trail, r.generation, Behind(r.status.stage), Behind(stage));
    DoneStays(trail, more, r.generation, Behind(stage));
  }

  lemma EnterIsSafe(r: Resource, clock: Instant, pods: seq<Pod>, c: Choice, stage: Stage, cause: Cause,
      trail: seq<Event>, more: seq<Event>)
    requires Safe(r, trail) && !RetryPending(r) && r.status.phase != PhaseDeleted
    requires FreshStage(r, stage) && MoveFits(r, Noticed(r, clock), RetryPending(r), pods, c, stage, cause)
    ensures IsDeletePhase(Noticed(r, clock).phase) && stage.reason != GenerationChange
    ensures OnTrack(stage, trail + more)
  {
    match cause
    case Advance => AdvanceOnTrack(r, stage, trail, more);
    case Restart =>
      DoneBefore(trail, r.generation, Behind(r.status.stage), 2);
      DoneStays(trail, more, r.generation, 2);
    case _ =>
  }

  lemma EnteringIsSafe(w: World, c: Choice)
    requires KindOf(w, c).Entering? && SafeWorld(w) && Calm(w)
    ensures SafeWorld(Pass(w, c))
  {
    EnteringStores(w, c);
    EnteringFits(w, c);
    PassKeepsWellStaged(w, c);
    var r, m := w.resource.value, KindOf(w, c);
    if c.WriteOk(0) {
      EnterIsSafe(r, w.clock, w.pods, c, m.stage, m.cause, w.trail,
        [Entered(m.stage.generation, m.stage.task, m.cause)] + ResetEvents(m.stage));
    } else {
      SafeStays(r, r, w.trail, []);
    }
  }

  /** A destroy stage that completes has one more of the four tasks behind it, or as many as before. */
  lemma CompletedOnTrack(stage: Stage, done: Stage, trail: seq<Event>, e: Event)
    requires OnTrack(stage, trail) && stage.task != RunNil && StageTask(stage.task)
    requires done == stage.(state := StateComplete, podName := done.podName, message := done.message)
    requires Completes(e, stage.generation, stage.task)
    ensures OnTrack(done, trail + [e])
  {
    var g, k := stage.generation, Behind(stage);
    if k < 4 && stage.task == DestroyTask(k + 1) && stage.state != StateComplete {
      DoneNext(trail, e, g, k);
    } else {
      DoneStays(trail, [e], g, k);
    }
  }

  lemma TouchedOnTrack(stage: Stage, moved: Stage, trail: seq<Event>, events: seq<Event>)
    requires OnTrack(stage, trail) && stage.task != RunNil && moved.state != StateComplete
    requires moved == stage.(state := moved.state, podName := moved.podName, message := moved.message)
    ensures OnTrack(moved, trail + events)
  {
    DoneStays(trail, events, stage.generation, Behind(stage));
    DoneBefore(trail + events, stage.generation, Behind(stage), Behind(moved));
  }

  lemma TouchedIsSafe(r: Resource, clock: Instant, t: Status, events: seq<Event>, trail: seq<Event>)
    requires Safe(r, trail) && !RetryPending(r) && r.status.phase != PhaseDeleted
    requires Noticed(r, clock).stage.task != RunNil && Touched(r, Noticed(r, clock), t) && WellStaged(r.(status := t))
    ensures Safe(r.(status := t), trail + events)
  {
    if OnTrack(r.status.stage, trail) {
      TouchedOnTrack(r.status.stage, t.stage, trail, events);
    }
  }

  lemma CompletedIsSafe(r: Resource, clock: Instant, t: Status, trail: seq<Event>)
    requires Safe(r, trail) && !RetryPending(r) && r.status.phase != PhaseDeleted
    requires CompletedStage(Noticed(r, clock), t) && WellStaged(r.(status := t))
    ensures Safe(r.(status := t), trail + [CompletionOf(t.stage)])
  {
    if OnTrack(r.status.stage, trail) {
      CompletedOnTrack(r.status.stage, t.stage, trail, CompletionOf(t.stage));
    }
  }

  lemma FinishedIsSafe(r: Resource, clock: Instant, t: Status, trail: seq<Event>)
    requires Safe(r, trail) && !RetryPending(r) && r.status.phase != PhaseDeleted
    requires Finished(Noticed(r, clock), t) && WellStaged(r.(status := t))
    ensures Safe(r.(status := t), trail + [])
  {
    if OnTrack(r.status.stage, trail) {
      DoneStays(trail, [], r.status.stage.generation, Behind(r.status.stage));
    }
  }

  lemma WorkIsSafe(r: Resource, clock: Instant, t: Status, events: seq<Event>, trail: seq<Event>)
    requires Safe(r, trail) && !RetryPending(r) && r.status.phase != PhaseDeleted
    requires WorkEffect(r, Noticed(r, clock), t, events) && WellStaged(r.(status := t))
    ensures Safe(r.(status := t), trail + events)
  {
    var s := Noticed(r, clock);
    NoticedKeeps(r, clock);
    if t == r.status {
      SafeStays(r, r.(status := t), trail, events);
    } else if s.stage.task != RunNil && Touched(r, s, t) {
      TouchedIsSafe(r, clock, t, events, trail);
    } else if Finished(s, t) && events == [] {
      FinishedIsSafe(r, clock, t, trail);
    } else {
      CompletedIsSafe(r, clock, t, trail);
    }
  }

  lemma WorkingIsSafe(w: World, c: Choice)
    requires KindOf(w, c) == Working && SafeWorld(w) && Calm(w)
    ensures SafeWorld(Pass(w, c))
  {
    PassKeepsWellStaged(w, c);
    var r := w.resource.value;
    var t, events := WorkingPass(w, c);
    WorkIsSafe(r, w.clock, t, events, w.trail);
  }

  lemma SavingIsSafe(w: World, c: Choice)
    requires !KindOf(w, c).Entering? && KindOf(w, c) != Working && SafeWorld(w)
    ensures SafeWorld(Pass(w, c))
  {
    PassKeepsWellStaged(w, c);
    if KindOf(w, c) == Finalizers {
      var f := FinalizerPass(w, c);
      var w' := Pass(w, c);
      if w' != w && w'.resource.Some? {
        var more := if w'.trail != w.trail then [FinalizerDropped] else [];
        assert w'.trail == w.trail + more;
        SafeStays(w.resource.value, w'.resource.value, w.trail, more);
      }
    }
  }

  lemma PassIsSafe(w: World, c: Choice)
    requires SafeWorld(w) && Calm(w)
    ensures SafeWorld(Pass(w, c))
  {
    if KindOf(w, c).Entering? {
      EnteringIsSafe(w, c);
    } else if KindOf(w, c) == Working {
      WorkingIsSafe(w, c);
    } else {
      SavingIsSafe(w, c);
    }
  }

  lemma EnvIsSafe(w: World, e: EnvStep)
    requires SafeWorld(w)
    ensures SafeWorld(EnvNext(w, e))
  {
    NextKeepsWellStaged(w, Environment(e));
    var w' := EnvNext(w, e);
    if w'.resource.Some? {
      assert w.trail + [] == w.trail;
      SafeStays(w.resource.value, w'.resource.value, w.trail, []);
    }
  }

  /** Every state of the run is calm. */
  ghost predicate CalmRun(w: World, steps: seq<Step>) {
    Calm(Run(w, steps)) && (steps != [] ==> CalmRun(w, steps[..|steps| - 1]))
  }

  lemma {:induction false} CalmRunIsSafe(w: World, steps: seq<Step>)
    requires SafeWorld(w) && CalmRun(w, steps)
    ensures SafeWorld(Run(w, steps))
    decreases steps
  {
    if steps != [] {
      var v := Run(w, steps[..|steps| - 1]);
      CalmRunIsSafe(w, steps[..|steps| - 1]);
      match steps[|steps| - 1]
      case Controller(c) => PassIsSafe(v, c);
      case Environment(e) => EnvIsSafe(v, e);
    }
  }

  // ---------------------------------------------------------------------------------------------
  // Delete phases come from deletion requests

  ghost predicate PhaseHasCause(w: World) {
    w.resource.Some? && IsDeletePhase(w.resource.value.status.phase) ==> w.resource.value.deletionRequested
  }

  lemma PassPhaseHasCause(w: World, c: Choice)
    requires PhaseHasCause(w) && WellStagedWorld(w)
    ensures PhaseHasCause(Pass(w, c))
  {
    match KindOf(w, c)
    case Entering(_, _) => EnteringStores(w, c);
    case Working => var t, events := WorkingPass(w, c);
    case Finalizers => var f := FinalizerPass(w, c);
    case _ =>
  }

  lemma EnvPhaseHasCause(w: World, e: EnvStep)
    requires PhaseHasCause(w)
    ensures PhaseHasCause(EnvNext(w, e))
  {
  }

  lemma NextPhaseHasCause(w: World, step: Step)
    requires PhaseHasCause(w) && WellStagedWorld(w)
    ensures PhaseHasCause(Next(w, step))
  {
    match step
    case Environment(e) => EnvPhaseHasCause(w, e);
    case Controller(c) => PassPhaseHasCause(w, c);
  }

  lemma ReachablePhaseHasCause(w: World)
    requires Reachable(w)
    ensures PhaseHasCause(w) && WellStagedWorld(w)
  {
    var w0, steps :| IsFresh(w0) && w == Run(w0, steps);
    forall v, step | PhaseHasCause(v) && WellStagedWorld(v)
      ensures PhaseHasCause(Next(v, step)) && WellStagedWorld(Next(v, step))
    {
      NextPhaseHasCause(v, step);
      NextKeepsWellStaged(v, step);
    }
    RunInduction(v => PhaseHasCause(v) && WellStagedWorld(v), w0, steps);
  }

  // ---------------------------------------------------------------------------------------------
  // The theorem

  predicate Drops(w: World, w': World) {
    w'.trail == w.trail + [FinalizerDropped]
  }

  /** When deletion is asked for after the first stage exists, and from then on no retry is pending and deletion
      is not ignored, then in every later state the phases deleting and deleted mean that the stage is a destroy
      task or the end of the destroy, and no pass drops the finalizer unless setup-delete, init-delete, plan-delete
      and apply-delete completed in that order for the stage's generation. */
  lemma DeletionDestroysFirst(w: World, steps: seq<Step>)
    requires Reachable(w) && w.resource.Some?
    requires !w.resource.value.deletionRequested && w.resource.value.status.stage.generation != 0
    requires var asked := EnvNext(w, EditResource(RequestDelete)); CalmRun(asked, steps)
    ensures var v := Run(EnvNext(w, EditResource(RequestDelete)), steps);
      && (v.resource.Some? ==>
            var status := v.resource.value.status;
            status.phase == PhaseDeleting || status.phase == PhaseDeleted ==> Destroying(status.stage.task))
      && forall c :: Drops(v, Pass(v, c)) ==>
           v.resource.Some? && Destroyed(v.trail, v.resource.value.status.stage.generation)
  {
    ReachablePhaseHasCause(w);
    var asked := EnvNext(w, EditResource(RequestDelete));
    NextKeepsWellStaged(w, Environment(EditResource(RequestDelete)));
    CalmRunIsSafe(asked, steps);
    var v := Run(asked, steps);
    assert Calm(v);
    forall c | Drops(v, Pass(v, c))
      ensures v.resource.Some? && Destroyed(v.trail, v.resource.value.status.stage.generation)
    {
      DropIsSafe(v, c);
    }
  }

  lemma DropIsSafe(v: World, c: Choice)
    requires SafeWorld(v) && Calm(v) && Drops(v, Pass(v, c))
    ensures v.resource.Some? && Destroyed(v.trail, v.resource.value.status.stage.generation)
  {
    DropMeansDeleted(v, c);
    DoneIsDestroyed(v.trail, v.resource.value.status.stage.generation, Behind(v.resource.value.status.stage));
  }

  lemma PassDrops(v: World, c: Choice) returns (events: seq<Event>)
    requires WellStagedWorld(v)
    ensures Pass(v, c).trail == v.trail + events
    ensures FinalizerDropped in events ==>
      v.resource.Some? && (v.resource.value.status.phase == PhaseDeleted || v.resource.value.spec.ignoreDelete)
  {
    assert v.trail + [] == v.trail;
    events := [];
    match KindOf(v, c)
    case Finalizers =>
      var f := FinalizerPass(v, c);
      events := if Pass(v, c).trail != v.trail then [FinalizerDropped] else [];
    case Entering(stage, cause) =>
      EnteringStores(v, c);
      events := if c.WriteOk(0) then [Entered(stage.generation, stage.task, cause)] + ResetEvents(stage) else [];
    case Working =>
      var t;
      t, events := WorkingPass(v, c);
    case First =>
      events := if c.WriteOk(0) then [Entered(v.resource.value.generation, RunSetup, FirstStage), PluginsReset] else [];
    case _ =>
  }

  /** Only a pass over a deleted resource, or one whose deletion is ignored, drops the finalizer. */
  lemma DropMeansDeleted(v: World, c: Choice)
    requires WellStagedWorld(v) && Drops(v, Pass(v, c))
    ensures v.resource.Some? && (v.resource.value.status.phase == PhaseDeleted || v.resource.value.spec.ignoreDelete)
  {
    var events := PassDrops(v, c);
    assert events == (v.trail + events)[|v.trail|..];
  }

  // ---------------------------------------------------------------------------------------------
  // The other side

  /** Created, or being created, for the current generation. */
  ghost predicate Creating(r: Resource) {
    r.status.stage.generation == r.generation && (IsCreateTask(r.status.stage.task) || r.status.stage.task == RunNil)
  }

  lemma FirstEntersCreate(w: World, c: Choice)
    requires KindOf(w, c) == First && c.WriteOk(0)
    ensures w.resource.Some? && w.resource.value.status.stage.generation == 0
    ensures Pass(w, c).resource.Some? && Pass(w, c).resource.value.status.stage.task == RunSetup
  {
  }

  /** A move of a resource to be deleted that is not creating leads into the create chain exactly on a retry. */
  lemma EntersCreate(r: Resource, clock: Instant, pods: seq<Pod>, c: Choice, stage: Stage, cause: Cause)
    requires r.deletionRequested && r.status.stage.generation != 0
    requires r.status.stage.generation == r.generation ==> Destroying(r.status.stage.task)
    requires MoveFits(r, Noticed(r, clock), RetryPending(r), pods, c, stage, cause)
    ensures IsCreateTask(stage.task) <==> RetryPending(r)
  {
    NoticedKeeps(r, clock);
  }

  /** For a resource to be deleted that is not yet in the create chain of its generation, the stage a pass enters
      is a create task exactly when there was no stage yet or a retry was pending. */
  lemma EntersCreateIff(w: World, c: Choice)
    requires w.resource.Some? && WellStagedWorld(w) && w.resource.value.deletionRequested
    requires var r := w.resource.value;
      r.status.stage.generation == r.generation ==> Destroying(r.status.stage.task)
    requires (KindOf(w, c) == First || KindOf(w, c).Entering?) && c.WriteOk(0)
    ensures var r, w' := w.resource.value, Pass(w, c);
      w'.resource.Some?
      && (IsCreateTask(w'.resource.value.status.stage.task) <==> r.status.stage.generation == 0 || RetryPending(r))
  {
    if KindOf(w, c).Entering? {
      EnteringOutcome(w, c);
      EnteringFits(w, c);
      EntersCreate(w.resource.value, w.clock, w.pods, c, KindOf(w, c).stage, KindOf(w, c).cause);
      assert KindOf(w, c) != First;
    } else {
      FirstEntersCreate(w, c);
    }
  }

  /** Still to be given its first stage, or creating, although it is to be deleted. */
  ghost predicate Doomed(w: World) {
    && WellStagedWorld(w)
    && (w.resource.Some? ==>
          var r := w.resource.value; r.deletionRequested && (r.status.stage.generation == 0 || Creating(r)))
  }

  ghost predicate NoDestroy(events: seq<Event>) {
    forall e :: e in events && e.Entered? ==> !IsDeleteTask(e.task)
  }

  predicate EditsSpec(step: Step) {
    step.Environment? && step.step.EditResource? && step.step.edit.EditSpec?
  }

  lemma DoomedSaves(w: World, c: Choice) returns (events: seq<Event>)
    requires Doomed(w) && !KindOf(w, c).Entering? && KindOf(w, c) != Working && WellStagedWorld(Pass(w, c))
    ensures Doomed(Pass(w, c))
    ensures Pass(w, c).trail == w.trail + events && NoDestroy(events)
  {
    assert w.trail + [] == w.trail;
    events := [];
    if KindOf(w, c) == Finalizers {
      var f := FinalizerPass(w, c);
      events := if Pass(w, c).trail != w.trail then [FinalizerDropped] else [];
    } else if KindOf(w, c) == First && c.WriteOk(0) {
      events := [Entered(w.resource.value.generation, RunSetup, FirstStage), PluginsReset];
    }
  }

  lemma DoomedWorks(w: World, w': World, t: Status, events: seq<Event>)
    requires Doomed(w) && w.resource.Some? && WellStagedWorld(w')
    requires var r := w.resource.value;
      WorkEffect(r, Noticed(r, w.clock), t, events) && WorkStores(w, w', r, t, events) && r.status.stage.generation != 0
    ensures Doomed(w') && NoDestroy(events)
  {
  }

  lemma DoomedPass(w: World, c: Choice) returns (events: seq<Event>)
    requires Doomed(w)
    ensures Doomed(Pass(w, c))
    ensures Pass(w, c).trail == w.trail + events && NoDestroy(events)
  {
    PassKeepsWellStaged(w, c);
    if KindOf(w, c).Entering? {
      events := DoomedEntry(w, c);
    } else if KindOf(w, c) == Working {
      var t;
      t, events := WorkingPass(w, c);
      DoomedWorks(w, Pass(w, c), t, events);
    } else {
      events := DoomedSaves(w, c);
    }
  }

  lemma DoomedMove(r: Resource, s: Status, isRetry: bool, pods: seq<Pod>, c: Choice, stage: Stage, cause: Cause)
    requires Creating(r) && s.stage == r.status.stage && (isRetry ==> !IsDeletePhase(s.phase))
    requires FreshStage(r, stage) && MoveFits(r, s, isRetry, pods, c, stage, cause)
    ensures IsCreateTask(stage.task) || stage.task == RunNil
  {
  }

  lemma DoomedEnters(w: World, w': World, pods: seq<Pod>, c: Choice, stage: Stage,
      cause: Cause) returns (events: seq<Event>)
    requires Doomed(w) && WellStagedWorld(w') && EntersInto(w, w', stage, cause, c.WriteOk(0))
             && w.resource.value.status.stage.generation != 0
    requires MoveFits(w.resource.value, Noticed(w.resource.value, w.clock), RetryPending(w.resource.value), pods, c,
               stage, cause)
    ensures Doomed(w') && w'.trail == w.trail + events && NoDestroy(events)
  {
    var r := w.resource.value;
    NoticedKeeps(r, w.clock);
    DoomedMove(r, Noticed(r, w.clock), RetryPending(r), pods, c, stage, cause);
    events := if c.WriteOk(0) then [Entered(stage.generation, stage.task, cause)] + ResetEvents(stage) else [];
  }

  lemma DoomedEntry(w: World, c: Choice) returns (events: seq<Event>)
    requires Doomed(w) && KindOf(w, c).Entering?
    ensures Doomed(Pass(w, c))
    ensures Pass(w, c).trail == w.trail + events && NoDestroy(events)
  {
    PassKeepsWellStaged(w, c);
    EnteringOutcome(w, c);
    EnteringFits(w, c);
    events := DoomedEnters(w, Pass(w, c), w.pods, c, KindOf(w, c).stage, KindOf(w, c).cause);
  }

  lemma DoomedEnv(w: World, e: EnvStep)
    requires Doomed(w) && !EditsSpec(Environment(e))
    ensures Doomed(EnvNext(w, e)) && EnvNext(w, e).trail == w.trail + []
  {
  }

  lemma DoomedNext(w: World, step: Step) returns (events: seq<Event>)
    requires Doomed(w) && !EditsSpec(step)
    ensures Doomed(Next(w, step)) && Next(w, step).trail == w.trail + events && NoDestroy(events)
  {
    match step
    case Controller(c) => events := DoomedPass(w, c);
    case Environment(e) =>
      DoomedEnv(w, e);
      events := [];
  }

  /** A resource whose deletion was asked for before its first stage, or that a retry sent back into the create
      chain, is not destroyed at all unless its spec is edited again: no destroy task is ever entered. */
  lemma {:induction false} DoomedIsNeverDestroyed(w: World, steps: seq<Step>)
    requires Doomed(w)
    requires forall i :: 0 <= i < |steps| ==> !EditsSpec(steps[i])
    ensures Doomed(Run(w, steps))
    ensures |w.trail| <= |Run(w, steps).trail| && NoDestroy(Run(w, steps).trail[|w.trail|..])
    decreases steps
  {
    if steps != [] {
      var before, step := steps[..|steps| - 1], steps[|steps| - 1];
      var v, v' := Run(w, before), Run(w, steps);
      DoomedIsNeverDestroyed(w, before);
      var events := DoomedNext(v, step);
      assert v'.trail[|w.trail|..] == v.trail[|w.trail|..] + events;
    }
  }
}
