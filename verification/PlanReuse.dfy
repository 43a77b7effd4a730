/** A run in which one pod serves as the plan of two applies, because a restart could not remove it. */
module PlanReuse {
  import opened Wrappers
  import opened Tasks
  import opened Workflow
  import opened WorkflowFacts
  import opened Progress
  import opened PlanBeforeApply
  import opened PlanPods
  import LetGo
  import PodUniqueness

  /** Nothing is configured between init and plan or between plan and apply, and pods are kept. */
  ghost predicate IsBare(spec: Spec) {
    && spec.keepCompletedPods && spec.plugins == map[]
    && var configured := ConfiguredTasks(spec.optionTasks);
       RunPrePlan !in configured && RunPostPlan !in configured && RunPreApply !in configured
  }

  lemma ApplyIsNext(configured: seq<TaskName>)
    requires RunApply in configured && RunPostPlan !in configured && RunPreApply !in configured
    ensures IsNextTask(RunPlan, configured, RunApply)
  {
    forall t: TaskName | SameChain(RunPlan, t) && 6 < t.Id() < 9 ensures t !in configured {
      SameIdSameTask(t, if t.Id() == 7 then RunPostPlan else RunPreApply);
    }
  }

  lemma ApplyFollows(configured: seq<TaskName>)
    requires RunApply in configured && RunPostPlan !in configured && RunPreApply !in configured
    ensures NextTask(RunPlan, configured) == RunApply
  {
    NextTaskMeaning(RunPlan, configured);
    ApplyIsNext(configured);
    NextTaskUnique(RunPlan, configured, NextTask(RunPlan, configured), RunApply);
  }

  lemma BareSuccessors(spec: Spec)
    requires IsBare(spec)
    ensures var configured := ConfiguredTasks(spec.optionTasks);
      NextTask(RunPlan, configured) == RunApply && NextTask(RunPostInit, configured) == RunPlan
  {
    ConfiguredHasBaseTasks(spec.optionTasks);
    assert IsBaseTask(RunApply);
    RestartLandsOnPlan(spec.optionTasks, RunPostInit);
    ApplyFollows(ConfiguredTasks(spec.optionTasks));
  }

  // ---------------------------------------------------------------------------------------------
  // The plan pod is kept

  /** The pod of the plan of the stage's generation has succeeded, is there and not cut off. */
  ghost predicate Holds(w: World, q: Pod) {
    && w.resource.Some? && q in w.pods && q.phase == PodSucceeded
    && var s := w.resource.value.status;
    && Survives(q, s.retryTimestamp) && q.generation == s.stage.generation
    && q.generateName == GenerateName(s.prefix, s.stage.generation, RunPlan)
  }

  /** A resource that only creates, and of which nobody asks for a retry. */
  ghost predicate Creating(w: World, life: Life, phase: Phase, task: TaskName, state: StageState) {
    && Managed(w, life) && !life.deleting && life.create && IsBare(life.spec) && PodUniqueness.Fit(w)
    && var s := w.resource.value.status;
    && s.prefix.Some? && s.phase == phase && s.stage.generation == life.generation
    && s.stage.task == task && s.stage.state == state
  }

  // ---------------------------------------------------------------------------------------------
  // Three passes after the failed apply

  /** The apply failed, its pod is gone, and the plan's pod is held. */
  ghost predicate ApplyFailed(w: World, life: Life, q: Pod) {
    && Creating(w, life, PhaseRunning, RunApply, StateFailed) && Holds(w, q)
    && var name := w.resource.value.status.stage.podName;
    && name.Some? && forall p :: p in w.pods ==> p.name != name.value
  }

  /** No call fails but the removal of the old pods. */
  ghost predicate KeepsOldPlan(c: Choice, spec: Spec) {
    Smooth(c, spec) && c.podGetOk && !c.oldPlanRemoved
  }

  lemma GoneApplyRestarts(r: Resource, s: Status, pods: seq<Pod>, c: Choice)
    requires s.stage.generation == r.generation && s.stage.task == RunApply && s.stage.state == StateFailed
    requires PodGone(pods, s.stage.podName, c)
    ensures CheckSetNewStage(r, s, false, pods, c) == RestartAfter(r, RunPostInit, RestartedWorkflow)
  {
  }

  lemma FailureRestarts(w: World, life: Life, c: Choice, q: Pod)
    requires ApplyFailed(w, life, q) && KeepsOldPlan(c, life.spec)
    ensures var r := w.resource.value;
      var stage := NewStage(r.generation, RunPlan, RestartedWorkflow, false, StateInitializing);
      CheckSetNewStage(r, r.status, false, w.pods, c) == Enter(stage, Restart)
  {
    BareSuccessors(life.spec);
    GoneApplyRestarts(w.resource.value, w.resource.value.status, w.pods, c);
  }

  /** The pass decides for the plan again. */
  lemma RestartDecides(w: World, life: Life, c: Choice, q: Pod)
    requires ApplyFailed(w, life, q) && KeepsOldPlan(c, life.spec)
    ensures var r := w.resource.value;
      var stage := NewStage(r.generation, RunPlan, RestartedWorkflow, false, StateInitializing);
      Pass(w, c) == EnterStage(w, r, r.status, stage, Restart, c)
  {
    FailureRestarts(w, life, c, q);
    ManagedWorks(w, c, life);
  }

  lemma RestartKeepsPod(w: World, life: Life, c: Choice, q: Pod)
    requires ApplyFailed(w, life, q) && KeepsOldPlan(c, life.spec)
    ensures var w' := Pass(w, c);
      && Creating(w', life, PhaseRunning, RunPlan, StateInitializing) && Holds(w', q)
      && w'.pods == w.pods && w'.nextPod == w.nextPod
      && w'.trail == w.trail + [Entered(life.generation, RunPlan, Restart)]
  {
    var r := w.resource.value;
    var stage := NewStage(r.generation, RunPlan, RestartedWorkflow, false, StateInitializing);
    PodUniqueness.PassFit(w, c);
    RestartDecides(w, life, c, q);
    StageEnters(w, r, stage, Restart, c);
    StagedIsCreating(w, Pass(w, c), life, StateFailed, q, stage);
  }

  lemma StagedIsCreating(w: World, w': World, life: Life, state: StageState, q: Pod, stage: Stage)
    requires Creating(w, life, PhaseRunning, RunApply, state) && Holds(w, q) && PodUniqueness.Fit(w')
    requires stage.generation == life.generation
    requires w'.resource == Some(w.resource.value.(status := Stored(w.resource.value.status.(stage := stage))))
    requires w'.pods == w.pods && w'.clock == w.clock
    ensures Creating(w', life, PhaseRunning, stage.task, stage.state) && Holds(w', q)
  {
  }

  lemma KeptPodPlansAgain(w: World, life: Life, c: Choice, q: Pod)
    requires Creating(w, life, PhaseRunning, RunPlan, StateInitializing) && Holds(w, q) && KeepsOldPlan(c, life.spec)
    ensures var w' := Pass(w, c);
      && Creating(w', life, PhaseRunning, RunPlan, StateComplete) && Holds(w', q)
      && w'.pods == w.pods && w'.nextPod == w.nextPod
      && w'.trail == w.trail + [Completed(life.generation, RunPlan, q.name)]
  {
    PodUniqueness.PassFit(w, c);
    ManagedWorks(w, c, life);
    var r := w.resource.value;
    PodUniqueness.FoundIs(w, r.status, q);
    assert Pass(w, c) == Observe(w, r, r.status, q, c);
  }

  lemma CompleteDecides(w: World, life: Life, c: Choice)
    requires Creating(w, life, PhaseRunning, RunPlan, StateComplete) && Smooth(c, life.spec)
    ensures var r := w.resource.value; Pass(w, c) == EnterStage(w, r, r.status, StageAfter(r), Advance, c)
  {
    var r := w.resource.value;
    ManagedWorks(w, c, life);
    assert CheckSetNewStage(r, r.status, false, w.pods, c) == Enter(StageAfter(r), Advance);
  }

  lemma ApplyFollowsAgain(w: World, life: Life, c: Choice)
    requires Creating(w, life, PhaseRunning, RunPlan, StateComplete) && KeepsOldPlan(c, life.spec)
    ensures var w' := Pass(w, c);
      && w'.pods == w.pods && w'.nextPod == w.nextPod
      && w'.trail == w.trail + [Entered(life.generation, RunApply, Advance)]
  {
    BareSuccessors(life.spec);
    CompleteDecides(w, life, c);
    StageEnters(w, w.resource.value, StageAfter(w.resource.value), Advance, c);
  }

  /** After an apply that failed, a restart that cannot remove the old pods takes three passes to the next apply, and no
      new plan is made: the kept pod is found and serves again. */
  lemma FailedRemovalServesAgain(w: World, life: Life, c: Choice, q: Pod)
    requires ApplyFailed(w, life, q) && KeepsOldPlan(c, life.spec)
    ensures var w' := Pass(Pass(Pass(w, c), c), c);
      && w'.pods == w.pods && w'.nextPod == w.nextPod
      && w'.trail == w.trail + [Entered(life.generation, RunPlan, Restart)]
                     + [Completed(life.generation, RunPlan, q.name)] + [Entered(life.generation, RunApply, Advance)]
  {
    RestartKeepsPod(w, life, c, q);
    KeptPodPlansAgain(Pass(w, c), life, c, q);
    ApplyFollowsAgain(Pass(Pass(w, c), c), life, c);
  }

  // ---------------------------------------------------------------------------------------------
  // From the first plan to the failed apply

  /** Between two states of a run. */
  lemma PassIsReachable(w: World, c: Choice)
    requires Reachable(w)
    ensures Reachable(Pass(w, c))
  {
    var w0, steps :| IsFresh(w0) && w == Run(w0, steps);
    var more := steps + [Controller(c)];
    assert more[..|more| - 1] == steps;
    assert Pass(w, c) == Run(w0, more);
  }

  /** A pod that has succeeded settles as it is. */
  lemma SettledHolds(w: World, q: Pod)
    requires Holds(w, q)
    ensures Holds(w.(pods := SettlePods(w.pods)), q)
  {
    var i :| 0 <= i < |w.pods| && w.pods[i] == q;
    assert SettlePods(w.pods)[i] == q;
  }

  /** The round in which the plan completes. */
  lemma PlanRound(w: World, life: Life, c: Choice) returns (q: Pod)
    requires Reachable(w) && IsLaunched(w, life, RunPlan) && Smooth(c, life.spec) && IsBare(life.spec)
    ensures Round(w, c).trail == w.trail + [Completed(life.generation, RunPlan, q.name)] && Holds(Round(w, c), q)
  {
    PodUniqueness.ReachableFit(w);
    var r := w.resource.value;
    ManagedWorks(w, c, life);
    q := Lookup(w.pods, r.status)[0];
    assert Pass(w, c) == Observe(w, r, r.status, q, c);
    LookupMeaning(w.pods, r.status);
    assert q in Lookup(w.pods, r.status);
    SettledHolds(Pass(w, c), q);
  }

  lemma AdvanceEnters(w: World, life: Life, c: Choice)
    requires IsFinished(w, life, RunPlan) && Smooth(c, life.spec) && IsBare(life.spec)
    ensures Pass(w, c).trail == w.trail + [Entered(life.generation, RunApply, Advance)]
  {
    BareSuccessors(life.spec);
    AdvanceDecides(w, c, life, RunPlan);
    StageEnters(w, w.resource.value, StageAfter(w.resource.value), Advance, c);
  }

  lemma AdvanceHolds(w: World, life: Life, c: Choice, q: Pod)
    requires IsFinished(w, life, RunPlan) && Smooth(c, life.spec) && IsBare(life.spec)
    requires Holds(w, q)
    ensures Round(w, c).trail == w.trail + [Entered(life.generation, RunApply, Advance)] && Holds(Round(w, c), q)
  {
    AdvanceEnters(w, life, c);
    AdvancePass(w, c, life, RunPlan);
    SettledHolds(Pass(w, c), q);
  }

  lemma LaunchHolds(w: World, life: Life, c: Choice, q: Pod)
    requires IsReady(w, life, RunApply) && Smooth(c, life.spec) && IsBare(life.spec) && Holds(w, q)
             && c.pluginOrder == []
    ensures Round(w, c).trail == w.trail && Holds(Round(w, c), q)
  {
    LaunchPass(w, c, life, RunApply);
    SmoothLaunch(w, w.resource.value, w.resource.value.status, c);
    SettledHolds(Pass(w, c), q);
  }

  lemma {:induction false} WithoutPodHas(pods: seq<Pod>, name: nat)
    ensures forall p :: p in WithoutPod(pods, name) <==> p in pods && p.name != name
  {
    if pods != [] {
      assert pods == [pods[0]] + pods[1..];
      WithoutPodHas(pods[1..], name);
    }
  }

  /** The apply is under way, or its pod has failed. */
  ghost predicate Applying(w: World, life: Life, q: Pod, a: Pod) {
    && Creating(w, life, PhaseRunning, RunApply, StateInProgress) && Holds(w, q)
    && a in w.pods && Matches(a, w.resource.value.status) && Survives(a, w.resource.value.status.retryTimestamp)
  }

  lemma LaunchedIsApplying(w: World, life: Life, q: Pod) returns (a: Pod)
    requires Reachable(w) && IsLaunched(w, life, RunApply) && Holds(w, q) && IsBare(life.spec) && !life.deleting
    ensures Applying(w, life, q, a)
  {
    PodUniqueness.ReachableFit(w);
    a := Lookup(w.pods, w.resource.value.status)[0];
    LookupMeaning(w.pods, w.resource.value.status);
    assert a in Lookup(w.pods, w.resource.value.status);
  }

  lemma NamesDiffer(w: World, life: Life, q: Pod, a: Pod)
    requires Applying(w, life, q, a)
    ensures q.name != a.name
  {
    if q.name == a.name {
      SameNameSamePod(w, q, a);
    }
  }

  lemma PodFails(w: World, life: Life, q: Pod, a: Pod)
    requires Applying(w, life, q, a)
    ensures var w' := EnvNext(w, MovePod(a.name, PodFailed));
      Applying(w', life, q, a.(phase := PodFailed)) && w'.trail == w.trail
  {
    var w' := EnvNext(w, MovePod(a.name, PodFailed));
    PodUniqueness.EnvFit(w, MovePod(a.name, PodFailed));
    MovePodsAt(w.pods, a.name, PodFailed);
    var i :| 0 <= i < |w.pods| && w.pods[i] == a;
    assert w'.pods[i] == a.(phase := PodFailed);
    var j :| 0 <= j < |w.pods| && w.pods[j] == q;
    NamesDiffer(w, life, q, a);
    assert w'.pods[j] == q;
  }

  lemma FailureIsSeen(w: World, life: Life, c: Choice, q: Pod, a: Pod)
    requires Applying(w, life, q, a) && a.phase == PodFailed && Smooth(c, life.spec)
    ensures var w' := Pass(w, c);
      && Creating(w', life, PhaseRunning, RunApply, StateFailed) && Holds(w', q)
      && w'.resource.value.status.stage.podName == Some(a.name) && w'.trail == w.trail
  {
    PodUniqueness.PassFit(w, c);
    ManagedWorks(w, c, life);
    var r := w.resource.value;
    PodUniqueness.FoundIs(w, r.status, a);
    assert Pass(w, c) == Observe(w, r, r.status, a, c);
    assert w.trail + [] == w.trail;
  }

  lemma PodGoes(w: World, life: Life, q: Pod, name: nat)
    requires Creating(w, life, PhaseRunning, RunApply, StateFailed) && Holds(w, q) && q.name != name
    requires w.resource.value.status.stage.podName == Some(name)
    ensures var w' := EnvNext(w, DeletePod(name)); ApplyFailed(w', life, q) && w'.trail == w.trail
  {
    PodUniqueness.EnvFit(w, DeletePod(name));
    WithoutPodHas(w.pods, name);
  }

  /** The apply's pod fails, a pass sees it, and the pod is deleted. */
  function FailApply(w: World, name: nat, c: Choice): World {
    EnvNext(Pass(EnvNext(w, MovePod(name, PodFailed)), c), DeletePod(name))
  }

  lemma ApplyCanFail(w: World, life: Life, c: Choice, q: Pod) returns (v: World)
    requires Reachable(w) && IsLaunched(w, life, RunApply) && Holds(w, q) && IsBare(life.spec) && !life.deleting
    requires Smooth(c, life.spec)
    ensures Reachable(v) && ApplyFailed(v, life, q) && v.trail == w.trail
  {
    var a := LaunchedIsApplying(w, life, q);
    PodFails(w, life, q, a);
    var failed := EnvNext(w, MovePod(a.name, PodFailed));
    LetGo.EnvIsReachable(w, MovePod(a.name, PodFailed));
    FailureIsSeen(failed, life, c, q, a.(phase := PodFailed));
    PassIsReachable(failed, c);
    NamesDiffer(w, life, q, a);
    PodGoes(Pass(failed, c), life, q, a.name);
    LetGo.EnvIsReachable(Pass(failed, c), DeletePod(a.name));
    v := FailApply(w, a.name, c);
  }

  // ---------------------------------------------------------------------------------------------
  // The whole run

  /** From the first plan on: the plan completes, the apply is entered and fails. */
  lemma PlansThenFails(w: World, life: Life, c: Choice) returns (v: World, q: Pod)
    requires Reachable(w) && IsLaunched(w, life, RunPlan) && IsBare(life.spec) && !life.deleting && life.create
    requires KeepsOldPlan(c, life.spec) && c.pluginOrder == []
    ensures Reachable(v) && ApplyFailed(v, life, q)
    ensures v.trail == w.trail + [Completed(life.generation, RunPlan, q.name)]
            + [Entered(life.generation, RunApply, Advance)]
  {
    BareSuccessors(life.spec);
    q := PlanRound(w, life, c);
    CompleteRound(w, c, life, RunPlan);
    var planned := Round(w, c);
    RoundIsReachable(w, c);
    AdvanceHolds(planned, life, c, q);
    AdvanceRound(planned, c, life, RunPlan);
    var ready := Round(planned, c);
    RoundIsReachable(planned, c);
    LaunchHolds(ready, life, c, q);
    LaunchRound(ready, c, life, RunApply);
    RoundIsReachable(ready, c);
    v := ApplyCanFail(Round(ready, c), life, c, q);
  }

  lemma RoundIsReachable(w: World, c: Choice)
    requires Reachable(w)
    ensures Reachable(Round(w, c))
  {
    var steps := RoundIsRun(w, c);
    var w0, before :| IsFresh(w0) && w == Run(w0, before);
    RunAppend(w0, before, steps);
  }

  /** One pod completed the plans of two applies. */
  ghost predicate PodServesTwice(trail: seq<Event>, chain: Chain) {
    exists i: nat, a: nat, j: nat, b: nat ::
      a < b && Serves(trail, i, a, chain) && Serves(trail, j, b, chain) && trail[i].pod == trail[j].pod
  }

  lemma TwoServices(trail: seq<Event>, g: nat, p: nat)
    ensures var done, enter := Completed(g, RunPlan, p), Entered(g, RunApply, Advance);
      PodServesTwice(trail + [done] + [enter] + [Entered(g, RunPlan, Restart)] + [done] + [enter], CreateChain)
  {
    var done, enter := Completed(g, RunPlan, p), Entered(g, RunApply, Advance);
    var all := trail + [done] + [enter] + [Entered(g, RunPlan, Restart)] + [done] + [enter];
    var n := |trail|;
    assert all[..n + 1][n + 1..] == [] && all[..n + 4][n + 4..] == [];
    assert Serves(all, n, n + 1, CreateChain);
    assert Serves(all, n + 3, n + 4, CreateChain);
  }

  /** Whatever the new resource is, as long as it keeps its pods and has no tasks between plan and apply, a run can
      end in which the pod of its plan served two applies. */
  lemma PodCanServeTwice(w: World, life: Life, c: Choice) returns (v: World)
    requires Fresh(w, life) && IsBare(life.spec) && KeepsOldPlan(c, life.spec) && c.pluginOrder == []
    ensures Reachable(v) && PodServesTwice(v.trail, CreateChain)
  {
    var launched := PlanIsLaunched(w, life, c);
    var failed, q := PlansThenFails(launched, life, c);
    FailedRemovalServesAgain(failed, life, c, q);
    PassIsReachable(failed, c);
    PassIsReachable(Pass(failed, c), c);
    PassIsReachable(Pass(Pass(failed, c), c), c);
    v := Pass(Pass(Pass(failed, c), c), c);
    TwoServices(launched.trail, life.generation, q.name);
  }

  lemma PlanIsLaunched(w: World, life: Life, c: Choice) returns (v: World)
    requires Fresh(w, life) && Smooth(c, life.spec)
    ensures Reachable(v) && IsLaunched(v, life, RunPlan)
  {
    ConfiguredHasBaseTasks(life.spec.optionTasks);
    assert IsBaseTask(RunPlan);
    LetGo.WalkHasTask(RunSetup, RunPlan, life.spec);
    var j := Creation(life);
    CreationIsJourney(life);
    var a :| 0 <= a < |j.walk| && j.walk[a] == RunPlan;
    var k := LetGo.LaunchOf(j, a);
    var rs := LetGo.RoundsExist(w, c, life.spec, k);
    LetGo.LaunchPosition(j, a);
    LetGo.ReachedAs(rs, k, j, Launched(RunPlan));
    LetGo.FreshIsReachable(w);
    RoundsAreReachable(rs, k);
    v := rs.ws[k];
  }

  const KEEPING_SPEC := NO_SPEC.(keepCompletedPods := true)

  const KEEPING_WORLD :=
    World(Some(Resource(1, false, None, [], KEEPING_SPEC, NO_STATUS)), [], {}, Instant(0, false), 0, [])

  lemma KeepingIsBare()
    ensures IsBare(KEEPING_SPEC)
  {
    ConfiguredTasksMeaning([]);
  }

  /** Such a run from a new resource. */
  lemma ExampleServesTwice() returns (v: World)
    ensures Reachable(v) && PodServesTwice(v.trail, CreateChain)
  {
    KeepingIsBare();
    var life := Life(KEEPING_SPEC, 1, false, true, [TF_FINALIZER]);
    assert KEEPING_WORLD.resource.value.finalizers + [TF_FINALIZER] == life.finalizers;
    v := PodCanServeTwice(KEEPING_WORLD, life, LetGo.SMOOTH_CHOICE.(oldPlanRemoved := false));
  }
}
