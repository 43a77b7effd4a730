/** Which pods the plans before the applies ran in: when one pod serves as the plan of two applies, and when not. */
module PlanPods {
  import opened Wrappers
  import opened Tasks
  import opened Workflow
  import opened WorkflowFacts
  import opened PlanBeforeApply
  import opened PodUniqueness

  // ---------------------------------------------------------------------------------------------
  // The completions on the trail and the pods they name

  /** The completion names a pod made before; if that pod is there, it is of the generation and task that completed. */
  ghost predicate FitsPods(w: World, e: Event)
    requires e.Completed?
  {
    && e.pod < w.nextPod && 1 <= e.generation
    && (w.resource.Some? ==> e.generation <= w.resource.value.status.stage.generation)
    && forall q :: q in w.pods && q.name == e.pod ==> q.generation == e.generation && q.generateName.task == e.task
  }

  ghost predicate Sound(w: World) {
    Fit(w) && forall e :: e in w.trail && e.Completed? ==> FitsPods(w, e)
  }

  /** Pods stay what they are but for their phase, and new ones get new names. */
  ghost predicate PodsStay(w: World, w': World) {
    w.nextPod <= w'.nextPod && forall q :: q in w'.pods ==> MovedFrom(q, w.pods) || q.name == w.nextPod
  }

  /** The stage's generation does not go back. */
  ghost predicate StageGoesOn(w: World, w': World) {
    w'.resource.Some? ==>
      && w.resource.Some?
      && w.resource.value.status.stage.generation <= w'.resource.value.status.stage.generation
  }

  lemma FitsPodsStays(w: World, w': World, e: Event)
    requires e.Completed? && FitsPods(w, e) && PodsStay(w, w')
    requires StageGoesOn(w, w')
    ensures FitsPods(w', e)
  {
    forall q | q in w'.pods && q.name == e.pod ensures q.generation == e.generation && q.generateName.task == e.task {
      assert MovedFrom(q, w.pods);
      var p :| p in w.pods && q == p.(phase := q.phase);
    }
  }

  lemma SoundStep(w: World, w': World, events: seq<Event>)
    requires Sound(w) && Fit(w') && PodsStay(w, w') && w'.trail == w.trail + events
    requires StageGoesOn(w, w')
    requires forall e :: e in events && e.Completed? ==> FitsPods(w', e)
    ensures Sound(w')
  {
    forall e | e in w'.trail && e.Completed? ensures FitsPods(w', e) {
      if e in w.trail {
        FitsPodsStays(w, w', e);
      }
    }
  }

  /** The pass completes the stage it works on with one of the pods the look-up finds. */
  ghost predicate CompletesWith(w: World, c: Choice, q: Pod) {
    && KindOf(w, c) == Working && c.WriteOk(0)
    && var s := Noticed(w.resource.value, w.clock);
    && s.stage.task != RunNil && q in Lookup(w.pods, s) && s.stage.state != StateComplete
    && Pass(w, c).trail == w.trail + [Completed(s.stage.generation, s.stage.task, q.name)]
    && Pass(w, c).resource.Some?
    && var stage := Pass(w, c).resource.value.status.stage;
    && stage.generation == s.stage.generation && stage.task == s.stage.task && stage.state == StateComplete
  }

  ghost predicate NoneCompletes(events: seq<Event>) {
    forall e :: e in events ==> !e.Completed?
  }

  ghost predicate IsQuiet(w: World, w': World, events: seq<Event>) {
    w'.trail == w.trail + events && NoneCompletes(events)
  }

  lemma ObserveCompletes(w: World, r: Resource, s: Status, pod: Pod, c: Choice) returns (events: seq<Event>)
    requires w.resource == Some(r)
    ensures var w' := Observe(w, r, s, pod, c);
      if pod.phase == PodSucceeded && c.WriteOk(0) then
        && w'.trail == w.trail + [Completed(s.stage.generation, s.stage.task, pod.name)] && w'.resource.Some?
        && var stage := w'.resource.value.status.stage;
        && stage.generation == s.stage.generation && stage.task == s.stage.task && stage.state == StateComplete
      else IsQuiet(w, w', events)
  {
    events := [];
    assert w.trail + [] == w.trail;
  }

  /** A working pass completes its stage with a pod it finds, or no stage completes. */
  lemma WorkCompletes(w: World, c: Choice) returns (events: seq<Event>)
    requires KindOf(w, c) == Working
    ensures IsQuiet(w, Pass(w, c), events) || exists q :: CompletesWith(w, c, q)
  {
    var r := w.resource.value;
    var s := Noticed(r, w.clock);
    NoticedKeeps(r, w.clock);
    IdleStageIsCurrent(r, s, RetryPending(r), w.pods, c);
    var t;
    t, events := WorkingPass(w, c);
    var found := Lookup(w.pods, s);
    if s.stage.task != RunNil && c.listOk && found != [] {
      events := ObserveCompletes(w, r, s, found[0], c);
      if found[0].phase == PodSucceeded && c.WriteOk(0) {
        assert CompletesWith(w, c, found[0]);
      }
    } else {
      events := IdleWork(w, r, s, c);
    }
  }

  lemma IdleWork(w: World, r: Resource, s: Status, c: Choice) returns (events: seq<Event>)
    requires w.resource == Some(r) && (s.stage.task == RunNil || !c.listOk || Lookup(w.pods, s) == [])
    ensures IsQuiet(w, Work(w, r, s, c), events)
  {
    assert w.trail + [] == w.trail;
    events := [];
    if s.stage.task != RunNil && c.listOk && s.stage.state != StateInProgress {
      var scan := ScanPlugins(c.pluginOrder, r.spec.plugins, s.pluginsStarted, s.stage.task, c.sidecarsBuilt);
      var i := if LaunchStarts(w, r, s, c) then 1 else 0;
      JobEventsAreLaunches(scan.deferred, s.stage.task, c, i);
      events := JobEvents(scan.deferred, s.stage.task, c, i);
    }
  }

  lemma EntersQuietly(w: World, w': World, stage: Stage, cause: Cause, stored: bool) returns (events: seq<Event>)
    requires EntersInto(w, w', stage, cause, stored)
    ensures IsQuiet(w, w', events)
  {
    events := if stored then [Entered(stage.generation, stage.task, cause)] + ResetEvents(stage) else [];
  }

  lemma OtherIsQuiet(w: World, c: Choice) returns (events: seq<Event>)
    requires KindOf(w, c) != Working && WellStagedWorld(w)
    ensures IsQuiet(w, Pass(w, c), events)
  {
    if KindOf(w, c).Entering? {
      var stage, cause := EnteringFacts(w, c);
      events := EntersQuietly(w, Pass(w, c), stage, cause, c.WriteOk(0));
    } else {
      events := SavingIsQuiet(w, c);
    }
  }

  lemma SavingIsQuiet(w: World, c: Choice) returns (events: seq<Event>)
    requires KindOf(w, c) != Working && !KindOf(w, c).Entering?
    ensures IsQuiet(w, Pass(w, c), events)
  {
    assert w.trail + [] == w.trail;
    events := [];
    if Pass(w, c).trail != w.trail {
      if KindOf(w, c) == First {
        events := [Entered(w.resource.value.generation, RunSetup, FirstStage), PluginsReset];
      } else {
        events := [FinalizerDropped];
      }
    }
  }

  /** In a pass no stage completes, but for the one worked on. */
  lemma PassCompletes(w: World, c: Choice) returns (events: seq<Event>)
    requires WellStagedWorld(w)
    ensures IsQuiet(w, Pass(w, c), events) || exists q :: CompletesWith(w, c, q)
  {
    if KindOf(w, c) == Working {
      events := WorkCompletes(w, c);
    } else {
      events := OtherIsQuiet(w, c);
    }
  }

  lemma SameNameSamePod(w: World, p: Pod, q: Pod)
    requires Fit(w) && w.resource.Some? && p in w.pods && q in w.pods && p.name == q.name
    ensures p == q
  {
    var cutoff := w.resource.value.status.retryTimestamp;
    NoClashPairs(w.pods, cutoff);
    forall i, j | 0 <= i < j < |w.pods| ensures w.pods[i].name != w.pods[j].name {
      assert !Clashes(w.pods[i], w.pods[j], cutoff);
    }
    var i :| 0 <= i < |w.pods| && w.pods[i] == p;
    var j :| 0 <= j < |w.pods| && w.pods[j] == q;
  }

  /** What the pod found is: there, of the stage's generation and task, and not cut off by the stored retry time. */
  lemma FoundMeaning(w: World, c: Choice, q: Pod)
    requires Fit(w) && CompletesWith(w, c, q)
    ensures var status := w.resource.value.status;
      && q in w.pods && q.generation == status.stage.generation && q.generateName.task == status.stage.task
      && Survives(q, status.retryTimestamp) && q.name < w.nextPod && status.stage.state != StateComplete
  {
    NoticedKeeps(w.resource.value, w.clock);
    LookupMeaning(w.pods, Noticed(w.resource.value, w.clock));
  }

  lemma PassPodsStay(w: World, c: Choice)
    requires WellStagedWorld(w)
    ensures PodsStay(w, Pass(w, c))
  {
    PassPods(w, c);
    forall q | q in Pass(w, c).pods ensures MovedFrom(q, w.pods) || q.name == w.nextPod {
      if q in w.pods {
        assert q == q.(phase := q.phase);
      }
    }
  }

  lemma EnterGoesOn(w: World, w': World, stage: Stage, cause: Cause, stored: bool)
    requires EntersInto(w, w', stage, cause, stored) && WellStagedWorld(w)
    ensures StageGoesOn(w, w')
  {
  }

  lemma WorkGoesOn(w: World, c: Choice)
    requires KindOf(w, c) == Working
    ensures StageGoesOn(w, Pass(w, c))
  {
    NoticedKeeps(w.resource.value, w.clock);
    var t, events := WorkingPass(w, c);
  }

  lemma SaveGoesOn(w: World, c: Choice)
    requires !KindOf(w, c).Entering? && KindOf(w, c) != Working
    ensures StageGoesOn(w, Pass(w, c))
  {
  }

  lemma PassStageGeneration(w: World, c: Choice)
    requires WellStagedWorld(w)
    ensures StageGoesOn(w, Pass(w, c))
  {
    if KindOf(w, c).Entering? {
      var stage, cause := EnteringFacts(w, c);
      EnterGoesOn(w, Pass(w, c), stage, cause, c.WriteOk(0));
    } else if KindOf(w, c) == Working {
      WorkGoesOn(w, c);
    } else {
      SaveGoesOn(w, c);
    }
  }

  lemma CompletionFits(w: World, c: Choice, q: Pod)
    requires Sound(w) && WellStagedWorld(w) && CompletesWith(w, c, q)
    requires PodsStay(w, Pass(w, c)) && forall p :: p in Pass(w, c).pods ==> p in w.pods || p.name == w.nextPod
    ensures FitsPods(Pass(w, c), Completed(q.generation, q.generateName.task, q.name))
  {
    FoundMeaning(w, c, q);
    forall p | p in Pass(w, c).pods && p.name == q.name
      ensures p.generation == q.generation && p.generateName.task == q.generateName.task
    {
      SameNameSamePod(w, p, q);
    }
  }

  lemma PassSound(w: World, c: Choice)
    requires Sound(w) && WellStagedWorld(w)
    ensures Sound(Pass(w, c))
  {
    PassFit(w, c);
    PassPodsStay(w, c);
    PassStageGeneration(w, c);
    var events := PassCompletes(w, c);
    if IsQuiet(w, Pass(w, c), events) {
      SoundStep(w, Pass(w, c), events);
    } else {
      var q :| CompletesWith(w, c, q);
      FoundMeaning(w, c, q);
      PassPods(w, c);
      CompletionFits(w, c, q);
      SoundStep(w, Pass(w, c), [Completed(q.generation, q.generateName.task, q.name)]);
    }
  }

  lemma EnvSound(w: World, e: EnvStep)
    requires Sound(w)
    ensures Sound(EnvNext(w, e))
  {
    EnvFit(w, e);
    EnvPods(w, e);
    assert w.trail + [] == w.trail;
    SoundStep(w, EnvNext(w, e), []);
  }

  lemma NextSound(w: World, step: Step)
    requires Sound(w) && WellStagedWorld(w)
    ensures Sound(Next(w, step)) && WellStagedWorld(Next(w, step))
  {
    NextKeepsWellStaged(w, step);
    match step
    case Controller(c) => PassSound(w, c);
    case Environment(e) => EnvSound(w, e);
  }

  lemma {:induction false} RunSound(w: World, steps: seq<Step>)
    requires IsFresh(w)
    ensures Sound(Run(w, steps)) && WellStagedWorld(Run(w, steps))
    decreases steps
  {
    if steps != [] {
      RunSound(w, steps[..|steps| - 1]);
      NextSound(Run(w, steps[..|steps| - 1]), steps[|steps| - 1]);
    }
  }

  // ---------------------------------------------------------------------------------------------
  // A plan pod that completed is not found again, unless it was left

  predicate IsPlan(t: TaskName) { t == RunPlan || t == RunPlanDelete }

  /** The plan ran in the pod to its end. */
  predicate PlansWith(e: Event, p: nat) { e.Completed? && IsPlan(e.task) && e.pod == p }

  /** The pod is there, and the stored retry time does not cut it off. */
  ghost predicate Stands(w: World, p: nat) {
    w.resource.Some? && exists q :: q in w.pods && q.name == p && Survives(q, w.resource.value.status.retryTimestamp)
  }

  /** Advancing leads to the plan no more. */
  predicate IsPast(stage: Stage, plan: TaskName) {
    || stage.task == RunNil || !SameChain(stage.task, plan)
    || plan.Id() < stage.task.Id() || (stage.task == plan && stage.state == StateComplete)
  }

  /** If the pod stands, the plans it completed in the stage's generation are past. */
  ghost predicate Secure(w: World, p: nat) {
    Stands(w, p) ==>
      var stage := w.resource.value.status.stage;
      forall e :: e in w.trail && PlansWith(e, p) && e.generation == stage.generation ==> IsPast(stage, e.task)
  }

  /** The step re-enters a chain at or before its plan by a restart or a retry, and leaves a pod that stands and in
      which that plan completed before. */
  ghost predicate Leaves(w: World, step: Step, p: nat) {
    && step.Controller? && KindOf(w, step.choice).Entering? && step.choice.WriteOk(0)
    && (KindOf(w, step.choice).cause == Restart || KindOf(w, step.choice).cause == Retry)
    && Stands(Pass(w, step.choice), p)
    && HasPlanned(w.trail, KindOf(w, step.choice).stage, p)
  }

  /** The plan of the stage's generation and chain completed in the pod. */
  ghost predicate HasPlanned(trail: seq<Event>, stage: Stage, p: nat) {
    exists e :: e in trail && PlansWith(e, p) && e.generation == stage.generation && SameChain(stage.task, e.task)
  }

  /** The step completes a plan with the pod. */
  ghost predicate PlansBy(w: World, step: Step, p: nat) {
    step.Controller? && exists q :: CompletesWith(w, step.choice, q) && q.name == p && IsPlan(q.generateName.task)
  }

  ghost predicate NoPlanWith(events: seq<Event>, p: nat) {
    forall e :: e in events ==> !PlansWith(e, p)
  }

  /** A secure pod that stands completes no plan a second time. */
  lemma SecurePlansOnce(w: World, c: Choice, q: Pod)
    requires Sound(w) && Secure(w, q.name) && CompletesWith(w, c, q) && IsPlan(q.generateName.task)
    ensures NoPlanWith(w.trail, q.name)
  {
    FoundMeaning(w, c, q);
    assert Stands(w, q.name);
    assert forall e :: e in w.trail && PlansWith(e, q.name) ==> FitsPods(w, e);
  }

  lemma SecureStays(w: World, w': World, p: nat, events: seq<Event>)
    requires Secure(w, p) && (Stands(w', p) ==> Stands(w, p))
    requires w'.trail == w.trail + events && NoPlanWith(events, p)
    requires w'.resource.Some? ==>
      && w.resource.Some?
      && var stage, stage' := w.resource.value.status.stage, w'.resource.value.status.stage;
      && stage'.generation == stage.generation
      && forall t :: IsPlan(t) && IsPast(stage, t) ==> IsPast(stage', t)
    ensures Secure(w', p)
  {
  }

  /** The stored retry time only moves forward, so that a pod once cut off stays so. */
  lemma StandsBack(w: World, w': World, p: nat)
    requires Fit(w) && PodsStay(w, w') && p < w.nextPod && Stands(w', p)
    requires w.resource.Some? && RetryMoves(w.resource.value.status, w'.resource.value.status, w.clock)
    ensures Stands(w, p)
  {
    var q :| q in w'.pods && q.name == p && Survives(q, w'.resource.value.status.retryTimestamp);
    assert MovedFrom(q, w.pods);
    var q0 :| q0 in w.pods && q == q0.(phase := q.phase);
    assert Survives(q0, w.resource.value.status.retryTimestamp);
  }

  lemma PassRetryMoves(w: World, c: Choice)
    requires Fit(w) && WellStagedWorld(w)
    ensures Pass(w, c).resource.Some? ==>
      w.resource.Some? && RetryMoves(w.resource.value.status, Pass(w, c).resource.value.status, w.clock)
  {
    if KindOf(w, c).Entering? {
      var stage, cause := EnteringFacts(w, c);
    } else if KindOf(w, c) == Working {
      NoticedKeeps(w.resource.value, w.clock);
      var t, events := WorkingPass(w, c);
    }
  }

  lemma PassStandsBack(w: World, c: Choice, p: nat)
    requires Fit(w) && WellStagedWorld(w) && p < w.nextPod && Stands(Pass(w, c), p)
    ensures Stands(w, p)
  {
    PassPodsStay(w, c);
    PassRetryMoves(w, c);
    StandsBack(w, Pass(w, c), p);
  }

  /** A pod that completed no plan is secure. */
  lemma UnusedIsSecure(w: World, p: nat)
    requires NoPlanWith(w.trail, p)
    ensures Secure(w, p)
  {
  }

  lemma PlannedIsOld(w: World, p: nat)
    requires Sound(w) && !NoPlanWith(w.trail, p)
    ensures p < w.nextPod
  {
    var e :| e in w.trail && PlansWith(e, p);
    assert FitsPods(w, e);
  }

  /** A working pass keeps the stage's generation and task, and the stage was not complete. */
  lemma WorkStage(w: World, c: Choice)
    requires KindOf(w, c) == Working
    ensures w.resource.Some? && Pass(w, c).resource.Some?
    ensures var stage, stage' := w.resource.value.status.stage, Pass(w, c).resource.value.status.stage;
      && stage'.generation == stage.generation && stage'.task == stage.task
      && (stage.state == StateComplete ==> stage.task == RunNil)
  {
    var r := w.resource.value;
    NoticedKeeps(r, w.clock);
    IdleStageIsCurrent(r, Noticed(r, w.clock), RetryPending(r), w.pods, c);
    var t, events := WorkingPass(w, c);
  }

  lemma WorkKeepsSecure(w: World, c: Choice, p: nat, events: seq<Event>)
    requires Sound(w) && WellStagedWorld(w) && Secure(w, p) && KindOf(w, c) == Working
    requires Pass(w, c).trail == w.trail + events && NoPlanWith(events, p) && p < w.nextPod
    ensures Secure(Pass(w, c), p)
  {
    WorkStage(w, c);
    if Stands(Pass(w, c), p) {
      PassStandsBack(w, c, p);
    }
    SecureStays(w, Pass(w, c), p, events);
  }

  lemma CompletedIsSecure(w: World, c: Choice, q: Pod)
    requires Sound(w) && Secure(w, q.name) && CompletesWith(w, c, q) && IsPlan(q.generateName.task)
    ensures Secure(Pass(w, c), q.name)
  {
    SecurePlansOnce(w, c, q);
    FoundMeaning(w, c, q);
    NoticedKeeps(w.resource.value, w.clock);
  }

  lemma WorkSecure(w: World, c: Choice, p: nat)
    requires Sound(w) && WellStagedWorld(w) && Secure(w, p) && KindOf(w, c) == Working
    ensures Secure(Pass(w, c), p)
  {
    var events := WorkCompletes(w, c);
    if !IsQuiet(w, Pass(w, c), events) {
      var q :| CompletesWith(w, c, q);
      FoundMeaning(w, c, q);
      NoticedKeeps(w.resource.value, w.clock);
      events := [Completed(q.generation, q.generateName.task, q.name)];
      if q.name == p && IsPlan(q.generateName.task) {
        CompletedIsSecure(w, c, q);
        return;
      }
    }
    if NoPlanWith(w.trail, p) {
      UnusedIsSecure(Pass(w, c), p);
    } else {
      PlannedIsOld(w, p);
      WorkKeepsSecure(w, c, p, events);
    }
  }

  /** An advance from a stage that has the plan behind it has it behind too. */
  lemma AdvanceIsPast(r: Resource, stage: Stage, plan: TaskName)
    requires IsPast(r.status.stage, plan) && IsPlan(plan) && r.status.stage.state == StateComplete
    requires IsWorkflowTask(r.status.stage.task)
    requires IsNextTask(r.status.stage.task, ConfiguredTasks(r.spec.optionTasks), stage.task)
    ensures IsPast(stage, plan)
  {
  }

  lemma AdvanceSecure(w: World, w': World, stage: Stage, c: Choice, p: nat)
    requires Secure(w, p) && (Stands(w', p) ==> Stands(w, p)) && EntersInto(w, w', stage, Advance, true)
    requires MoveFits(w.resource.value, Noticed(w.resource.value, w.clock), RetryPending(w.resource.value), w.pods, c,
                      stage, Advance)
    ensures Secure(w', p)
  {
    var r := w.resource.value;
    NoticedKeeps(r, w.clock);
    forall t | IsPlan(t) && IsPast(r.status.stage, t) ensures IsPast(stage, t) {
      AdvanceIsPast(r, stage, t);
    }
    SecureStays(w, w', p, [Entered(stage.generation, stage.task, Advance)] + ResetEvents(stage));
  }

  /** Nothing completed yet in a generation that starts. */
  lemma NewGenerationSecure(w: World, w': World, stage: Stage, cause: Cause, p: nat)
    requires Sound(w) && EntersInto(w, w', stage, cause, true) && WellStagedWorld(w)
    requires w.resource.value.status.stage.generation != w.resource.value.generation
    ensures Secure(w', p)
  {
    forall e | e in w'.trail && PlansWith(e, p) ensures e.generation != stage.generation {
      assert e in w.trail;
      assert FitsPods(w, e);
    }
  }

  /** A restart or a retry leaves a pod secure unless it leaves it standing with a plan done. */
  lemma ReentrySecure(w: World, w': World, stage: Stage, cause: Cause, p: nat)
    requires EntersInto(w, w', stage, cause, true) && StageTask(stage.task)
    requires Stands(w', p) ==> !HasPlanned(w.trail, stage, p)
    ensures Secure(w', p)
  {
    if Stands(w', p) {
      forall e | e in w'.trail && PlansWith(e, p) && e.generation == stage.generation ensures IsPast(stage, e.task) {
        assert e in w.trail;
      }
    }
  }

  lemma LostSecure(w: World, w': World, p: nat)
    requires Secure(w, p) && (Stands(w', p) ==> Stands(w, p)) && w'.resource == w.resource && w'.trail == w.trail + []
    ensures Secure(w', p)
  {
    assert w.trail + [] == w.trail;
  }

  lemma EnterSecure(w: World, c: Choice, p: nat)
    requires Sound(w) && WellStagedWorld(w) && Secure(w, p) && KindOf(w, c).Entering? && !Leaves(w, Controller(c), p)
    requires p < w.nextPod
    ensures Secure(Pass(w, c), p)
  {
    var w', stage, cause := Pass(w, c), KindOf(w, c).stage, KindOf(w, c).cause;
    EnteringNeedsStage(w, c);
    EnteringOutcome(w, c);
    EnteringFits(w, c);
    if Stands(w', p) {
      PassStandsBack(w, c, p);
    }
    if !c.WriteOk(0) {
      LostSecure(w, w', p);
    } else {
      match cause
      case Advance => AdvanceSecure(w, w', stage, c, p);
      case NewGeneration => NewGenerationSecure(w, w', stage, cause, p);
      case Restart => ReentrySecure(w, w', stage, cause, p);
      case Retry => ReentrySecure(w, w', stage, cause, p);
    }
  }

  lemma SaveSecure(w: World, c: Choice, p: nat)
    requires Sound(w) && WellStagedWorld(w) && Secure(w, p) && p < w.nextPod
    requires !KindOf(w, c).Entering? && KindOf(w, c) != Working
    ensures Secure(Pass(w, c), p)
  {
    if Stands(Pass(w, c), p) {
      PassStandsBack(w, c, p);
    }
    var events := SavingIsQuiet(w, c);
    if KindOf(w, c) == First {
      FirstIsSecure(w, c, p);
    } else {
      SaveKeepsStage(w, c);
      SecureStays(w, Pass(w, c), p, events);
    }
  }

  lemma SaveKeepsStage(w: World, c: Choice)
    requires !KindOf(w, c).Entering? && KindOf(w, c) != Working && KindOf(w, c) != First
    ensures Pass(w, c).resource.Some? ==>
      w.resource.Some? && Pass(w, c).resource.value.status.stage == w.resource.value.status.stage
  {
  }

  lemma FirstEnters(w: World, c: Choice) returns (events: seq<Event>)
    requires KindOf(w, c) == First
    ensures w.resource.Some? && w.resource.value.status.stage.generation == 0
    ensures IsQuiet(w, Pass(w, c), events)
  {
    events := SavingIsQuiet(w, c);
  }

  /** Nothing completed before there is a stage. */
  lemma FirstIsSecure(w: World, c: Choice, p: nat)
    requires Sound(w) && KindOf(w, c) == First
    ensures Secure(Pass(w, c), p)
  {
    var events := FirstEnters(w, c);
    assert forall e :: e in w.trail && PlansWith(e, p) ==> FitsPods(w, e);
    UnusedIsSecure(Pass(w, c), p);
  }

  lemma PassSecure(w: World, c: Choice, p: nat)
    requires Sound(w) && WellStagedWorld(w) && Secure(w, p) && !Leaves(w, Controller(c), p)
    ensures Secure(Pass(w, c), p)
  {
    if KindOf(w, c) == Working {
      WorkSecure(w, c, p);
    } else if NoPlanWith(w.trail, p) {
      var events := OtherIsQuiet(w, c);
      UnusedIsSecure(Pass(w, c), p);
    } else {
      PlannedIsOld(w, p);
      if KindOf(w, c).Entering? {
        EnterSecure(w, c, p);
      } else {
        SaveSecure(w, c, p);
      }
    }
  }

  lemma EnvKeepsStatus(w: World, e: EnvStep)
    ensures EnvNext(w, e).resource.Some? ==>
      w.resource.Some? && EnvNext(w, e).resource.value.status == w.resource.value.status
  {
  }

  lemma SameStatusSecure(w: World, w': World, p: nat)
    requires Secure(w, p) && w'.trail == w.trail && forall q :: q in w'.pods ==> MovedFrom(q, w.pods)
    requires w'.resource.Some? ==> w.resource.Some? && w'.resource.value.status == w.resource.value.status
    ensures Secure(w', p)
  {
    if Stands(w', p) {
      var q :| q in w'.pods && q.name == p && Survives(q, w'.resource.value.status.retryTimestamp);
      var q0 :| q0 in w.pods && q == q0.(phase := q.phase);
      assert Survives(q0, w.resource.value.status.retryTimestamp);
      assert Stands(w, p);
    }
  }

  lemma EnvSecure(w: World, e: EnvStep, p: nat)
    requires Secure(w, p)
    ensures Secure(EnvNext(w, e), p)
  {
    EnvPods(w, e);
    EnvKeepsStatus(w, e);
    SameStatusSecure(w, EnvNext(w, e), p);
  }

  lemma NextSecure(w: World, step: Step, p: nat)
    requires Sound(w) && WellStagedWorld(w) && Secure(w, p) && !Leaves(w, step, p)
    ensures Secure(Next(w, step), p)
  {
    match step
    case Controller(c) => PassSecure(w, c, p);
    case Environment(e) => EnvSecure(w, e, p);
  }

  // ---------------------------------------------------------------------------------------------
  // Over a run

  /** Step `k` of the run leaves the pod. */
  ghost predicate LeavesAt(w: World, steps: seq<Step>, k: nat, p: nat) {
    k < |steps| && Leaves(Run(w, steps[..k]), steps[k], p)
  }

  /** Step `k` of the run completes a plan with the pod. */
  ghost predicate PlansAt(w: World, steps: seq<Step>, k: nat, p: nat) {
    k < |steps| && PlansBy(Run(w, steps[..k]), steps[k], p)
  }

  /** Two plans completed in the pod. */
  ghost predicate PlansTwice(trail: seq<Event>, p: nat) {
    exists i, j :: 0 <= i < j < |trail| && PlansWith(trail[i], p) && PlansWith(trail[j], p)
  }

  /** Some step leaves the pod, and a later one completes a plan with it. */
  ghost predicate IsReused(w: World, steps: seq<Step>, p: nat) {
    exists k: nat, m: nat :: k < m && LeavesAt(w, steps, k, p) && PlansAt(w, steps, m, p)
  }

  lemma AtBefore(w: World, before: seq<Step>, step: Step, k: nat, p: nat)
    requires k < |before|
    ensures LeavesAt(w, before + [step], k, p) <==> LeavesAt(w, before, k, p)
    ensures PlansAt(w, before + [step], k, p) <==> PlansAt(w, before, k, p)
  {
    assert (before + [step])[..k] == before[..k] && (before + [step])[k] == before[k];
  }

  lemma AtLast(w: World, before: seq<Step>, step: Step, p: nat)
    ensures LeavesAt(w, before + [step], |before|, p) <==> Leaves(Run(w, before), step, p)
    ensures PlansAt(w, before + [step], |before|, p) <==> PlansBy(Run(w, before), step, p)
  {
    assert (before + [step])[..|before|] == before;
  }

  /** A pod that no step left is secure. */
  lemma {:induction false} SecureUnlessLeft(w: World, steps: seq<Step>, p: nat)
    requires IsFresh(w)
    ensures Secure(Run(w, steps), p) || exists k: nat :: LeavesAt(w, steps, k, p)
    decreases steps
  {
    if steps == [] {
      UnusedIsSecure(w, p);
    } else {
      var before, step := steps[..|steps| - 1], steps[|steps| - 1];
      assert steps == before + [step];
      SecureUnlessLeft(w, before, p);
      if k: nat :| LeavesAt(w, before, k, p) {
        AtBefore(w, before, step, k, p);
      } else {
        AtLast(w, before, step, p);
        RunSound(w, before);
        if !Leaves(Run(w, before), step, p) {
          NextSecure(Run(w, before), step, p);
        }
      }
    }
  }

  lemma TwiceAfter(trail: seq<Event>, events: seq<Event>, p: nat)
    requires PlansTwice(trail + events, p) && NoPlanWith(events, p)
    ensures PlansTwice(trail, p)
  {
    var all := trail + events;
    var i, j :| 0 <= i < j < |all| && PlansWith(all[i], p) && PlansWith(all[j], p);
    forall k | 0 <= k < |all| ensures PlansWith(all[k], p) ==> k < |trail| {
      if k >= |trail| {
        assert all[k] == events[k - |trail|];
      }
    }
    assert all[i] == trail[i] && all[j] == trail[j];
  }

  lemma OnceBefore(trail: seq<Event>, e: Event, p: nat)
    requires PlansTwice(trail + [e], p) && !PlansTwice(trail, p)
    ensures !NoPlanWith(trail, p)
  {
    var all := trail + [e];
    var i, j :| 0 <= i < j < |all| && PlansWith(all[i], p) && PlansWith(all[j], p);
    assert all[i] == trail[i];
  }

  /** The step that makes it two completes a plan with the pod, in which one completed before. */
  lemma SecondPlan(w: World, step: Step, p: nat)
    requires Sound(w) && WellStagedWorld(w) && !PlansTwice(w.trail, p) && PlansTwice(Next(w, step).trail, p)
    ensures PlansBy(w, step, p) && !NoPlanWith(w.trail, p)
  {
    match step
    case Environment(e) =>
      EnvPods(w, e);
    case Controller(c) =>
      var events := PassCompletes(w, c);
      if IsQuiet(w, Pass(w, c), events) {
        TwiceAfter(w.trail, events, p);
      } else {
        var q :| CompletesWith(w, c, q);
        SecondPlanIn(w, c, q, p);
      }
  }

  lemma SecondPlanIn(w: World, c: Choice, q: Pod, p: nat)
    requires Sound(w) && CompletesWith(w, c, q) && !PlansTwice(w.trail, p) && PlansTwice(Pass(w, c).trail, p)
    ensures PlansBy(w, Controller(c), p) && !NoPlanWith(w.trail, p)
  {
    FoundMeaning(w, c, q);
    NoticedKeeps(w.resource.value, w.clock);
    var e := Completed(q.generation, q.generateName.task, q.name);
    OnceBefore(w.trail, e, p);
    if !PlansWith(e, p) {
      TwiceAfter(w.trail, [e], p);
    }
  }

  lemma TwiceStays(w: World, step: Step, p: nat)
    requires WellStagedWorld(w) && PlansTwice(w.trail, p)
    ensures PlansTwice(Next(w, step).trail, p)
  {
    TrailGrows(w, step);
    var i, j :| 0 <= i < j < |w.trail| && PlansWith(w.trail[i], p) && PlansWith(w.trail[j], p);
    assert Next(w, step).trail[i] == w.trail[i] && Next(w, step).trail[j] == w.trail[j];
  }

  lemma TrailGrows(w: World, step: Step)
    requires WellStagedWorld(w)
    ensures w.trail <= Next(w, step).trail
  {
    match step
    case Environment(e) => EnvPods(w, e);
    case Controller(c) => var events := PassCompletes(w, c);
  }

  lemma ReusedStays(w: World, before: seq<Step>, step: Step, p: nat)
    requires IsFresh(w) && IsReused(w, before, p) && PlansTwice(Run(w, before).trail, p)
    ensures IsReused(w, before + [step], p) && PlansTwice(Next(Run(w, before), step).trail, p)
  {
    RunSound(w, before);
    TwiceStays(Run(w, before), step, p);
    var k: nat, m: nat :| k < m && LeavesAt(w, before, k, p) && PlansAt(w, before, m, p);
    AtBefore(w, before, step, k, p);
    AtBefore(w, before, step, m, p);
  }

  lemma StaysPlanned(trail: seq<Event>, more: seq<Event>, p: nat)
    requires trail <= more && !NoPlanWith(trail, p)
    ensures !NoPlanWith(more, p)
  {
    var e :| e in trail && PlansWith(e, p);
    var i :| 0 <= i < |trail| && trail[i] == e;
    assert more[i] == e;
  }

  lemma LeftPlanned(w: World, step: Step, p: nat)
    requires Leaves(w, step, p)
    ensures !NoPlanWith(w.trail, p)
  {
  }

  lemma {:induction false} RunTrailGrows(w: World, steps: seq<Step>, k: nat)
    requires IsFresh(w) && k <= |steps|
    ensures Run(w, steps[..k]).trail <= Run(w, steps).trail
    decreases steps
  {
    if k == |steps| {
      assert steps[..k] == steps;
    } else {
      var before := steps[..|steps| - 1];
      assert before[..k] == steps[..k];
      RunTrailGrows(w, before, k);
      RunSound(w, before);
      TrailGrows(Run(w, before), steps[|steps| - 1]);
    }
  }

  /** What was left has planned. */
  lemma LeftHasPlanned(w: World, steps: seq<Step>, k: nat, p: nat)
    requires IsFresh(w) && LeavesAt(w, steps, k, p)
    ensures !NoPlanWith(Run(w, steps).trail, p)
  {
    LeftPlanned(Run(w, steps[..k]), steps[k], p);
    RunTrailGrows(w, steps, k);
    StaysPlanned(Run(w, steps[..k]).trail, Run(w, steps).trail, p);
  }

  lemma PlansAgain(w: World, step: Step, p: nat)
    requires Sound(w) && PlansBy(w, step, p) && !NoPlanWith(w.trail, p)
    ensures PlansTwice(Next(w, step).trail, p)
  {
    var c := step.choice;
    var q :| CompletesWith(w, c, q) && q.name == p && IsPlan(q.generateName.task);
    FoundMeaning(w, c, q);
    NoticedKeeps(w.resource.value, w.clock);
    var e :| e in w.trail && PlansWith(e, p);
    var i :| 0 <= i < |w.trail| && w.trail[i] == e;
    assert Pass(w, c).trail[i] == e && PlansWith(Pass(w, c).trail[|w.trail|], p);
  }

  lemma LastReuseIff(w: World, before: seq<Step>, step: Step, p: nat)
    requires IsFresh(w) && !IsReused(w, before, p) && !PlansTwice(Run(w, before).trail, p)
    ensures PlansTwice(Next(Run(w, before), step).trail, p) <==> IsReused(w, before + [step], p)
  {
    var v := Run(w, before);
    RunSound(w, before);
    AtLast(w, before, step, p);
    if PlansTwice(Next(v, step).trail, p) {
      SecondPlan(v, step, p);
      SecureUnlessLeft(w, before, p);
      if Secure(v, p) {
        var q :| CompletesWith(v, step.choice, q) && q.name == p && IsPlan(q.generateName.task);
        SecurePlansOnce(v, step.choice, q);
      }
      var k: nat :| LeavesAt(w, before, k, p);
      AtBefore(w, before, step, k, p);
      assert PlansAt(w, before + [step], |before|, p);
    }
    if IsReused(w, before + [step], p) {
      LastReuse(w, before, step, p);
    }
  }

  lemma LastReuse(w: World, before: seq<Step>, step: Step, p: nat)
    requires IsFresh(w) && !IsReused(w, before, p) && IsReused(w, before + [step], p)
    ensures PlansTwice(Next(Run(w, before), step).trail, p)
  {
    var k: nat, m: nat :| k < m && LeavesAt(w, before + [step], k, p) && PlansAt(w, before + [step], m, p);
    AtBefore(w, before, step, k, p);
    if m < |before| {
      AtBefore(w, before, step, m, p);
    }
    AtLast(w, before, step, p);
    RunSound(w, before);
    LeftHasPlanned(w, before, k, p);
    PlansAgain(Run(w, before), step, p);
  }

  /** Over any run, two plans complete in the same pod if and only if some restart or retry left the pod standing with
      its plan done, and a plan completed with it later. */
  lemma {:induction false} PlansTwiceIff(w: World, steps: seq<Step>, p: nat)
    requires IsFresh(w)
    ensures PlansTwice(Run(w, steps).trail, p) <==> IsReused(w, steps, p)
    decreases steps
  {
    if steps != [] {
      var before, step := steps[..|steps| - 1], steps[|steps| - 1];
      assert steps == before + [step];
      PlansTwiceIff(w, before, p);
      RunSound(w, before);
      if IsReused(w, before, p) {
        ReusedStays(w, before, step, p);
      } else {
        LastReuseIff(w, before, step, p);
      }
    }
  }

  // ---------------------------------------------------------------------------------------------
  // When a pod is left

  /** The pass asks for the pods of the plan to be removed, and they are. */
  predicate Removes(w: World, c: Choice) {
    && KindOf(w, c).Entering? && c.oldPlanRemoved
    && (KindOf(w, c).stage.reason == RestartedWorkflow || KindOf(w, c).stage.reason == RestartedDeleteWorkflow)
  }

  /** A plan pod is left by a pass that re-enters the chain if it is running or not removed, and not cut off: by a retry
      all pods are cut off but those made in its second, since the stored time drops its part. */
  predicate Spares(w: World, c: Choice, q: Pod) {
    && w.resource.Some? && q in w.pods && (!Removes(w, c) || q.phase == PodRunning)
    && if RetryPending(w.resource.value) then q.created == w.clock.second
       else Survives(q, w.resource.value.status.retryTimestamp)
  }

  lemma {:induction false} OldPlanTakesPlans(pods: seq<Pod>, generation: nat, reason: Reason)
    ensures forall q: Pod :: q.generation == generation && IsPlan(q.generateName.task) ==>
      (q in WithoutOldPlan(pods, generation, reason) <==> q in pods && q.phase == PodRunning)
  {
    if pods != [] {
      assert pods == [pods[0]] + pods[1..];
      OldPlanTakesPlans(pods[1..], generation, reason);
    }
  }

  /** Which plan pods of the generation are there after a pass that enters a stage. */
  lemma PlanPodsAfter(w: World, c: Choice, q: Pod)
    requires KindOf(w, c).Entering? && WellStagedWorld(w) && IsPlan(q.generateName.task)
    requires w.resource.Some? && q.generation == w.resource.value.generation
    ensures q in Pass(w, c).pods <==> q in w.pods && (!Removes(w, c) || q.phase == PodRunning)
  {
    var r := w.resource.value;
    EnteringPass(w, c);
    OldPlanTakesPlans(w.pods, r.generation, Noticed(r, w.clock).stage.reason);
  }

  /** Which pods the retry time stored by such a pass cuts off. */
  lemma CutOffAfter(w: World, c: Choice, q: Pod)
    requires KindOf(w, c).Entering? && WellStagedWorld(w) && Fit(w) && c.WriteOk(0) && q in w.pods
    ensures w.resource.Some? && Pass(w, c).resource.Some?
    ensures Survives(q, Pass(w, c).resource.value.status.retryTimestamp) <==>
      if RetryPending(w.resource.value) then q.created == w.clock.second
      else Survives(q, w.resource.value.status.retryTimestamp)
  {
    var r := w.resource.value;
    NoticedKeeps(r, w.clock);
    var stage, cause := EnteringFacts(w, c);
    assert WellMade(q, r.status.prefix, w.clock, w.nextPod);
  }

  lemma StandsIff(w: World, c: Choice, p: nat)
    requires KindOf(w, c).Entering? && WellStagedWorld(w) && Sound(w) && c.WriteOk(0)
    requires HasPlanned(w.trail, KindOf(w, c).stage, p)
    ensures Stands(Pass(w, c), p) <==> exists q: Pod :: q.name == p && Spares(w, c, q)
  {
    var w' := Pass(w, c);
    EnteringPass(w, c);
    PassPods(w, c);
    PlannedIsOld(w, p);
    var e :| e in w.trail && PlansWith(e, p) && e.generation == KindOf(w, c).stage.generation;
    assert FitsPods(w, e);
    if Stands(w', p) {
      var q :| q in w'.pods && q.name == p && Survives(q, w'.resource.value.status.retryTimestamp);
      assert q in w.pods;
      PlanPodsAfter(w, c, q);
      CutOffAfter(w, c, q);
      assert Spares(w, c, q);
    }
    if q: Pod :| q.name == p && Spares(w, c, q) {
      PlanPodsAfter(w, c, q);
      CutOffAfter(w, c, q);
    }
  }

  /** A restart or a retry leaves a pod if and only if its plan completed in it and the pass spares it. */
  lemma LeavesIff(w: World, c: Choice, p: nat)
    requires Reachable(w) && KindOf(w, c).Entering? && c.WriteOk(0)
    requires KindOf(w, c).cause == Restart || KindOf(w, c).cause == Retry
    ensures Leaves(w, Controller(c), p) <==>
      HasPlanned(w.trail, KindOf(w, c).stage, p) && exists q: Pod :: q.name == p && Spares(w, c, q)
  {
    var w0, steps :| IsFresh(w0) && w == Run(w0, steps);
    RunSound(w0, steps);
    if HasPlanned(w.trail, KindOf(w, c).stage, p) {
      StandsIff(w, c, p);
    }
  }

  // ---------------------------------------------------------------------------------------------
  // The applies

  /** Event `i` completed the plan for the entry into the apply of the chain at `a`. */
  ghost predicate Serves(trail: seq<Event>, i: nat, a: nat, chain: Chain) {
    && a < |trail| && trail[a].Entered? && trail[a].task == ApplyTask(chain)
    && PlannedAt(trail[..a], i, trail[a].generation, chain)
  }

  /** No completion of a plan serves two applies. */
  lemma CompletionServesOnce(trail: seq<Event>, i: nat, a: nat, j: nat, b: nat, chain: Chain)
    requires Serves(trail, i, a, chain) && Serves(trail, j, b, chain) && a < b
    ensures i < a < j
  {
    var between := trail[..b][j + 1..];
    forall k | j < k < b ensures trail[k].Entered? ==> trail[k].task != ApplyTask(chain) {
      assert between[k - j - 1] == trail[k];
    }
  }

  /** Nor does a pod, in a run in which no restart and no retry leaves one whose plan completed. */
  lemma PodServesOnce(w: World, steps: seq<Step>, i: nat, a: nat, j: nat, b: nat, chain: Chain)
    requires IsFresh(w) && forall k: nat, p: nat :: !LeavesAt(w, steps, k, p)
    requires var trail := Run(w, steps).trail; Serves(trail, i, a, chain) && Serves(trail, j, b, chain) && a < b
    ensures Run(w, steps).trail[i].pod != Run(w, steps).trail[j].pod
  {
    var trail := Run(w, steps).trail;
    CompletionServesOnce(trail, i, a, j, b, chain);
    var p := trail[i].pod;
    assert PlansWith(trail[i], p) && (trail[j].pod == p ==> PlansWith(trail[j], p));
    assert trail[j].pod == p ==> PlansTwice(trail, p);
    PlansTwiceIff(w, steps, p);
  }
}
