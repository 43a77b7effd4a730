/** The objects a generation needs before any pod can be made for it, and how a resource gets stuck without them. */
module Provisioning {
  import opened Wrappers
  import opened Tasks
  import opened Workflow
  import opened WorkflowFacts
  import PluginLaunches
  import PodUniqueness

  // ---------------------------------------------------------------------------------------------
  // What holds of every reachable state

  /** Every pod is of a generation whose objects were made. */
  ghost predicate PodsProvided(w: World) {
    forall p :: p in w.pods ==> p.generation in w.provisioned
  }

  /** The stage has seen no pod, and was entered for a reason that sets up or for a label. */
  ghost predicate Untouched(s: Status) {
    && s.stage.state == StateInitializing && s.stage.task != RunNil
    && (SetsUp(s.stage.reason)
        || (s.retryReason.Some? && s.stage.reason == ReasonOfLabel(s.retryReason.value)))
  }

  /** The stage of a generation that is not provisioned is untouched. */
  ghost predicate StageProvided(w: World) {
    w.resource.Some? ==>
      var s := w.resource.value.status;
      s.stage.generation == 0 || s.stage.generation in w.provisioned || Untouched(s)
  }

  /** No generation is provisioned before it starts. */
  ghost predicate NoneAhead(w: World) {
    w.resource.Some? ==> forall g :: g in w.provisioned ==> g <= w.resource.value.generation
  }

  ghost predicate Provided(w: World) {
    WellStagedWorld(w) && PodsProvided(w) && StageProvided(w) && NoneAhead(w)
  }

  lemma PassPodsProvided(w: World, c: Choice)
    requires WellStagedWorld(w) && PodsProvided(w)
    ensures PodsProvided(Pass(w, c))
  {
    PassPods(w, c);
  }

  lemma PassNoneAhead(w: World, c: Choice)
    requires WellStagedWorld(w) && NoneAhead(w)
    ensures NoneAhead(Pass(w, c))
  {
    PassPods(w, c);
    PassGeneration(w, c);
  }

  lemma PassGeneration(w: World, c: Choice)
    requires WellStagedWorld(w)
    ensures Pass(w, c).resource.Some? ==>
      w.resource.Some? && Pass(w, c).resource.value.generation == w.resource.value.generation
  {
    if KindOf(w, c).Entering? {
      EnteringOutcome(w, c);
    } else if KindOf(w, c) == Working {
      var t, events := WorkingPass(w, c);
    }
  }

  lemma EnvPodsProvided(w: World, e: EnvStep)
    requires PodsProvided(w)
    ensures PodsProvided(EnvNext(w, e))
  {
    EnvPods(w, e);
  }

  /** A stage that is entered in a generation without objects is for a reason that sets up, or for a label. */
  lemma EnteredProvided(w: World, w': World, c: Choice, stage: Stage, cause: Cause, stored: bool)
    requires Provided(w) && EntersInto(w, w', stage, cause, stored) && w.provisioned <= w'.provisioned
    requires MoveFits(w.resource.value, Noticed(w.resource.value, w.clock), RetryPending(w.resource.value), w.pods, c,
                      stage, cause)
    requires w.resource.value.status.stage.generation != 0
    ensures StageProvided(w')
  {
    NoticedKeeps(w.resource.value, w.clock);
  }

  /** What a pass makes of a stage that is untouched for want of objects: nothing. */
  lemma WorkUntouched(w: World, r: Resource, s: Status, c: Choice)
    requires w.resource == Some(r) && PodsProvided(w) && s.stage.generation !in w.provisioned
    requires s.stage.state == StateInitializing && s.stage.task != RunNil && s.stage.generation == r.generation
    ensures var w' := Work(w, r, s, c);
      && w'.resource.Some? && w'.resource.value.(status := r.status) == r
      && (r.generation in w'.provisioned
          || w'.resource.value.status == r.status || SameButPlugins(w'.resource.value.status, Stored(s)))
      && (r.generation in w'.provisioned ==> SetsUp(s.stage.reason))
  {
    LookupNone(w.pods, s);
    if c.listOk {
      LaunchStatus(w, r, s, c);
    }
  }

  /** A stage that is worked on keeps its generation. */
  lemma WorkedStageProvided(w: World, w': World, r: Resource, s: Status, t: Status, events: seq<Event>)
    requires WorkEffect(r, s, t, events) && WorkStores(w, w', r, t, events) && s.stage == r.status.stage
    requires s.stage.generation == 0 || s.stage.generation in w'.provisioned
    ensures StageProvided(w')
  {
  }

  lemma WorkedProvided(w: World, c: Choice)
    requires KindOf(w, c) == Working && Provided(w)
    ensures StageProvided(Pass(w, c))
  {
    var r := w.resource.value;
    var s := Noticed(r, w.clock);
    NoticedKeeps(r, w.clock);
    IdleStageIsCurrent(r, s, RetryPending(r), w.pods, c);
    var t, events := WorkingPass(w, c);
    PassPods(w, c);
    if s.stage.generation == 0 || s.stage.generation in w.provisioned {
      WorkedStageProvided(w, Pass(w, c), r, s, t, events);
    } else {
      WorkUntouched(w, r, s, c);
    }
  }

  lemma SavedProvided(w: World, c: Choice)
    requires !KindOf(w, c).Entering? && KindOf(w, c) != Working && Provided(w)
    ensures StageProvided(Pass(w, c))
  {
    PassPods(w, c);
    if KindOf(w, c) == Finalizers {
      var f := FinalizerPass(w, c);
    }
  }

  lemma PassProvided(w: World, c: Choice)
    requires Provided(w)
    ensures Provided(Pass(w, c))
  {
    PassKeepsWellStaged(w, c);
    PassPodsProvided(w, c);
    PassNoneAhead(w, c);
    if KindOf(w, c).Entering? {
      PassPods(w, c);
      var stage, cause := EnteringFacts(w, c);
      EnteredProvided(w, Pass(w, c), c, stage, cause, c.WriteOk(0));
    } else if KindOf(w, c) == Working {
      WorkedProvided(w, c);
    } else {
      SavedProvided(w, c);
    }
  }

  lemma EnvStageProvided(w: World, e: EnvStep)
    requires StageProvided(w) && NoneAhead(w)
    ensures StageProvided(EnvNext(w, e)) && NoneAhead(EnvNext(w, e))
  {
  }

  lemma EnvProvided(w: World, e: EnvStep)
    requires Provided(w)
    ensures Provided(EnvNext(w, e))
  {
    NextKeepsWellStaged(w, Environment(e));
    EnvPodsProvided(w, e);
    EnvStageProvided(w, e);
  }

  lemma NextProvided(w: World, step: Step)
    requires Provided(w)
    ensures Provided(Next(w, step))
  {
    match step
    case Controller(c) => PassProvided(w, c);
    case Environment(e) => EnvProvided(w, e);
  }

  /** In every reachable state each pod is of a generation whose objects a pass has made, and a stage of any other
      generation was entered for a reason that sets up or for a label, and has seen no pod. */
  lemma PodsAreProvided(w: World)
    requires Reachable(w)
    ensures Provided(w)
  {
    var w0, steps :| IsFresh(w0) && w == Run(w0, steps);
    forall v, step | Provided(v) ensures Provided(Next(v, step)) {
      NextProvided(v, step);
    }
    RunInduction(v => Provided(v), w0, steps);
  }

  // ---------------------------------------------------------------------------------------------
  // Stuck

  /** A label took the place of the stage that would have set the generation up. */
  ghost predicate IsStuck(r: Resource, provisioned: set<nat>) {
    var s := r.status;
    && s.stage.generation == r.generation != 0 && r.generation !in provisioned && s.prefix.Some?
    && !SetsUp(s.stage.reason) && s.stage.state == StateInitializing && s.stage.task != RunNil
    && s.phase != PhaseDeleted
    && (RetryPending(r) ==> !SetsUp(ReasonOfLabel(r.changeCause.value)))
  }

  ghost predicate Stuck(w: World) {
    w.resource.Some? && IsStuck(w.resource.value, w.provisioned)
  }

  /** No sidecar of the stage's task is missing that must be there, and a plan that needs approval can ask for it. */
  ghost predicate NothingMissing(r: Resource, c: Choice) {
    && (forall p :: p in c.pluginOrder ==> !PluginLaunches.Stops(PluginLaunches.ContextOf(r, r.status, c), p))
    && ((r.status.stage.task == RunPlan || r.status.stage.task == RunPlanDelete) && r.spec.requireApproval ==>
          c.approvalOk)
  }

  /** The pod is as it is made for the stage. */
  predicate IsMade(w: World, p: Pod)
    requires w.resource.Some?
  {
    var s := w.resource.value.status;
    && p.name == w.nextPod && p.generateName.prefix == s.prefix && p.generateName.task == s.stage.task
    && p.generateName.generation == p.generation == s.stage.generation && p.created == w.clock.second
    && p.phase == PodPending
  }

  lemma MissingIff(w: World, c: Choice)
    requires w.resource.Some?
    ensures var r, s := w.resource.value, Noticed(w.resource.value, w.clock);
      CallsSucceed(r, s, c) <==> NothingMissing(r, c) && c.setupOk && c.podOk
  {
    var r := w.resource.value;
    NoticedKeeps(r, w.clock);
    PluginLaunches.AbortsIff(PluginLaunches.ContextOf(r, r.status, c), c.pluginOrder);
  }

  /** A launching pass makes its pod if and only if no sidecar it needs is missing, set-up and the pod's call go
      through and the resource is not stuck; the pod is then the only one that is new. */
  lemma LaunchesIff(w: World, c: Choice)
    requires Reachable(w) && KindOf(w, c) == Working
    requires Launching(w, w.resource.value, Noticed(w.resource.value, w.clock), c)
    ensures PodUniqueness.Creates(w, Pass(w, c)) <==>
      NothingMissing(w.resource.value, c) && c.setupOk && c.podOk && !Stuck(w)
    ensures PodUniqueness.Creates(w, Pass(w, c)) ==>
      |Pass(w, c).pods| == |w.pods| + 1 && Pass(w, c).pods[..|w.pods|] == w.pods
      && IsMade(w, Pass(w, c).pods[|w.pods|])
  {
    PodsAreProvided(w);
    var r := w.resource.value;
    NoticedKeeps(r, w.clock);
    IdleStageIsCurrent(r, Noticed(r, w.clock), RetryPending(r), w.pods, c);
    var t, events := WorkingPass(w, c);
    MissingIff(w, c);
  }

  /** A pass makes the objects of a generation if and only if it is launching, no sidecar it needs is missing, the stage
      was entered for a reason that sets up, and set-up goes through: even when the pod's call then fails. */
  lemma ProvidesIff(w: World, c: Choice)
    requires Reachable(w) && w.resource.Some? && w.resource.value.generation !in w.provisioned
    ensures w.resource.value.generation in Pass(w, c).provisioned <==>
      && KindOf(w, c) == Working && Launching(w, w.resource.value, Noticed(w.resource.value, w.clock), c)
      && NothingMissing(w.resource.value, c) && c.setupOk && SetsUp(w.resource.value.status.stage.reason)
  {
    ReachableIsWellStaged(w);
    if KindOf(w, c) == Working {
      WorkProvidesIff(w, c);
    } else if KindOf(w, c).Entering? {
      EnteringPass(w, c);
    }
  }

  lemma WorkProvidesIff(w: World, c: Choice)
    requires KindOf(w, c) == Working && w.resource.value.generation !in w.provisioned
    ensures w.resource.value.generation in Pass(w, c).provisioned <==>
      && Launching(w, w.resource.value, Noticed(w.resource.value, w.clock), c)
      && NothingMissing(w.resource.value, c) && c.setupOk && SetsUp(w.resource.value.status.stage.reason)
  {
    var r := w.resource.value;
    var s := Noticed(r, w.clock);
    NoticedKeeps(r, w.clock);
    var t, events := WorkingPass(w, c);
    MissingIff(w, c.(podOk := true));
    LaunchProvidesIff(w, r, s, c);
    if !Launching(w, r, s, c) {
      OtherProvidesNothing(w, r, s, c);
    }
  }

  lemma LaunchProvidesIff(w: World, r: Resource, s: Status, c: Choice)
    requires r.generation !in w.provisioned
    ensures r.generation in Launch(w, r, s, c).provisioned <==>
      CallsSucceed(r, s, c.(podOk := true)) && SetsUp(s.stage.reason)
  {
  }

  lemma OtherProvidesNothing(w: World, r: Resource, s: Status, c: Choice)
    requires !Launching(w, r, s, c)
    ensures Work(w, r, s, c).provisioned == w.provisioned
  {
  }

  /** A pass that enters a stage gets a resource stuck exactly if it does so for a plain label before the objects of the
      generation were made; no other pass does. */
  lemma GetsStuckIff(w: World, c: Choice)
    requires Reachable(w) && !Stuck(w)
    ensures Stuck(Pass(w, c)) <==> TakesLabelTooSoon(w, c)
  {
    PodsAreProvided(w);
    if KindOf(w, c).Entering? {
      EnteringGetsStuckIff(w, c);
    } else if KindOf(w, c) == Working {
      WorkGetsNotStuck(w, c);
    } else {
      SavingGetsNotStuck(w, c);
    }
  }

  /** The pass stores a stage entered for a label that spells no reason to set up, in a generation without objects. */
  ghost predicate TakesLabelTooSoon(w: World, c: Choice) {
    && KindOf(w, c).Entering? && KindOf(w, c).cause == Retry && c.WriteOk(0)
    && var r := w.resource.value;
    && RetryPending(r) && !SetsUp(ReasonOfLabel(r.changeCause.value)) && r.generation !in w.provisioned
  }

  lemma EnteringGetsStuckIff(w: World, c: Choice)
    requires Provided(w) && !Stuck(w) && KindOf(w, c).Entering?
    ensures Stuck(Pass(w, c)) <==> TakesLabelTooSoon(w, c)
  {
    NoticedKeeps(w.resource.value, w.clock);
    EnteringNeedsStage(w, c);
    EnteringOutcome(w, c);
    EnteringFits(w, c);
    EnteringPass(w, c);
    KindNeedsPrefix(w, c);
    EnteredStuckIff(w, Pass(w, c), c, KindOf(w, c).stage, KindOf(w, c).cause, c.WriteOk(0));
  }

  lemma EnteredStuckIff(w: World, w': World, c: Choice, stage: Stage, cause: Cause, stored: bool)
    requires Provided(w) && !Stuck(w) && EntersInto(w, w', stage, cause, stored) && w'.provisioned == w.provisioned
    requires MoveFits(w.resource.value, Noticed(w.resource.value, w.clock), RetryPending(w.resource.value), w.pods, c,
                      stage, cause)
    requires var s := w.resource.value.status; s.stage.generation != 0 && s.prefix.Some? && s.phase != PhaseDeleted
    ensures Stuck(w') <==>
      && cause == Retry && stored
      && var r := w.resource.value;
      && RetryPending(r) && !SetsUp(ReasonOfLabel(r.changeCause.value)) && r.generation !in w.provisioned
  {
    NoticedKeeps(w.resource.value, w.clock);
  }

  lemma WorkGetsNotStuck(w: World, c: Choice)
    requires Provided(w) && !Stuck(w) && KindOf(w, c) == Working
    ensures !Stuck(Pass(w, c))
  {
    var r := w.resource.value;
    NoticedKeeps(r, w.clock);
    IdleStageIsCurrent(r, Noticed(r, w.clock), RetryPending(r), w.pods, c);
    var t, events := WorkingPass(w, c);
    PassPods(w, c);
  }

  lemma SavingGetsNotStuck(w: World, c: Choice)
    requires Provided(w) && !Stuck(w) && !KindOf(w, c).Entering? && KindOf(w, c) != Working
    ensures !Stuck(Pass(w, c))
  {
    if KindOf(w, c) == Finalizers {
      var f := FinalizerPass(w, c);
    }
  }

  // ---------------------------------------------------------------------------------------------
  // Stuck for good

  /** No stage completed, and the finalizer was not dropped. */
  ghost predicate NothingEnds(events: seq<Event>) {
    forall e :: e in events ==> !e.Completed? && !e.FinalizerDropped?
  }

  /** The resource is still stuck in the same generation, or gone. */
  ghost predicate StillStuck(w: World, w': World) {
    w'.resource.Some? ==>
      && w.resource.Some? && Stuck(w') && w'.resource.value.generation == w.resource.value.generation
      && w'.resource.value.spec == w.resource.value.spec
  }

  /** The edit starts a new generation, or sets a label that spells a reason to set up. */
  predicate Frees(r: Resource, edit: Edit) {
    || Edited(r, edit).generation != r.generation
    || (edit.SetChangeCause? && edit.cause.Some? && edit.cause != r.status.retryReason
        && SetsUp(ReasonOfLabel(edit.cause.value)))
  }

  /** An edit frees a stuck resource exactly if it is one of these. */
  lemma FreesIff(w: World, edit: Edit)
    requires Reachable(w) && Stuck(w) && EnvNext(w, EditResource(edit)).resource.Some?
    ensures Stuck(EnvNext(w, EditResource(edit))) <==> !Frees(w.resource.value, edit)
  {
    PodsAreProvided(w);
  }

  /** The step is not such an edit. */
  ghost predicate LeavesStuck(w: World, step: Step) {
    w.resource.Some? && step.Environment? && step.step.EditResource? ==> !Frees(w.resource.value, step.step.edit)
  }

  lemma EnvStaysStuck(w: World, e: EnvStep)
    requires Stuck(w) && WellStagedWorld(w) && LeavesStuck(w, Environment(e))
    ensures StillStuck(w, EnvNext(w, e)) && EnvNext(w, e).trail == w.trail + []
  {
  }

  lemma StuckEnters(w: World, c: Choice) returns (events: seq<Event>)
    requires Stuck(w) && Provided(w) && KindOf(w, c).Entering?
    ensures StillStuck(w, Pass(w, c)) && Pass(w, c).trail == w.trail + events && NothingEnds(events)
  {
    NoticedKeeps(w.resource.value, w.clock);
    PassPods(w, c);
    EnteringPass(w, c);
    var stage, cause := EnteringFacts(w, c);
    events := if c.WriteOk(0) then [Entered(stage.generation, stage.task, cause)] + ResetEvents(stage) else [];
  }

  lemma StuckWorks(w: World, c: Choice) returns (events: seq<Event>)
    requires Stuck(w) && Provided(w) && KindOf(w, c) == Working
    ensures StillStuck(w, Pass(w, c)) && Pass(w, c).trail == w.trail + events && NothingEnds(events)
  {
    var r := w.resource.value;
    var s := Noticed(r, w.clock);
    NoticedKeeps(r, w.clock);
    IdleStageIsCurrent(r, s, RetryPending(r), w.pods, c);
    var t;
    t, events := WorkingPass(w, c);
    LookupNone(w.pods, s);
    WorkUntouched(w, r, s, c);
  }

  lemma StuckSaves(w: World, c: Choice) returns (events: seq<Event>)
    requires Stuck(w) && Provided(w) && !KindOf(w, c).Entering? && KindOf(w, c) != Working
    requires !w.resource.value.spec.ignoreDelete
    ensures StillStuck(w, Pass(w, c)) && Pass(w, c).trail == w.trail + events && NothingEnds(events)
  {
    if KindOf(w, c) == Finalizers {
      var f := FinalizerPass(w, c);
    }
    events := [];
  }

  lemma PassStaysStuck(w: World, c: Choice) returns (events: seq<Event>)
    requires Stuck(w) && Provided(w) && !w.resource.value.spec.ignoreDelete
    ensures StillStuck(w, Pass(w, c)) && Pass(w, c).trail == w.trail + events && NothingEnds(events)
  {
    if KindOf(w, c).Entering? {
      events := StuckEnters(w, c);
    } else if KindOf(w, c) == Working {
      events := StuckWorks(w, c);
    } else {
      events := StuckSaves(w, c);
    }
  }

  lemma NextStaysStuck(w: World, step: Step) returns (events: seq<Event>)
    requires Provided(w) && (w.resource.Some? ==> Stuck(w) && !w.resource.value.spec.ignoreDelete)
             && LeavesStuck(w, step)
    ensures StillStuck(w, Next(w, step)) && Next(w, step).trail == w.trail + events && NothingEnds(events)
  {
    events := [];
    if w.resource.Some? {
      match step
      case Controller(c) => events := PassStaysStuck(w, c);
      case Environment(e) => EnvStaysStuck(w, e);
    }
  }

  /** No edit of the run frees the resource. */
  ghost predicate Unhelped(w: World, steps: seq<Step>) {
    forall k :: 0 <= k < |steps| ==> LeavesStuck(Run(w, steps[..k]), steps[k])
  }

  lemma UnhelpedBefore(w: World, before: seq<Step>, step: Step)
    requires Unhelped(w, before + [step])
    ensures Unhelped(w, before) && LeavesStuck(Run(w, before), step)
  {
    var steps := before + [step];
    forall k | 0 <= k < |before| ensures LeavesStuck(Run(w, before[..k]), before[k]) {
      assert steps[..k] == before[..k] && steps[k] == before[k];
    }
    assert steps[..|before|] == before && steps[|before|] == step;
  }

  lemma StillStuckOn(w: World, v: World, v': World)
    requires StillStuck(w, v) && StillStuck(v, v')
    ensures StillStuck(w, v')
  {
  }

  lemma EventsJoin(w: World, v: World, v': World, first: seq<Event>, last: seq<Event>) returns (events: seq<Event>)
    requires v.trail == w.trail + first && v'.trail == v.trail + last && NothingEnds(first) && NothingEnds(last)
    ensures v'.trail == w.trail + events && NothingEnds(events)
  {
    events := first + last;
  }

  /** After the events the resource is still stuck, or gone, and nothing ended. */
  ghost predicate StuckAfter(w: World, v: World, events: seq<Event>) {
    StillStuck(w, v) && Provided(v) && v.trail == w.trail + events && NothingEnds(events)
  }

  lemma StuckAtFirst(w: World)
    requires Provided(w) && Stuck(w)
    ensures StuckAfter(w, w, [])
  {
  }

  lemma StuckAfterNext(w: World, v: World, step: Step, first: seq<Event>) returns (events: seq<Event>)
    requires w.resource.Some? && !w.resource.value.spec.ignoreDelete && StuckAfter(w, v, first) && LeavesStuck(v, step)
    ensures StuckAfter(w, Next(v, step), events)
  {
    var last := NextStaysStuck(v, step);
    NextProvided(v, step);
    StillStuckOn(w, v, Next(v, step));
    events := EventsJoin(w, v, Next(v, step), first, last);
  }

  lemma {:induction false} RunStaysStuck(w: World, steps: seq<Step>) returns (events: seq<Event>)
    requires Provided(w) && Stuck(w) && !w.resource.value.spec.ignoreDelete && Unhelped(w, steps)
    ensures StuckAfter(w, Run(w, steps), events)
    decreases steps
  {
    if steps == [] {
      events := [];
      StuckAtFirst(w);
    } else {
      var before, step := steps[..|steps| - 1], steps[|steps| - 1];
      assert steps == before + [step];
      UnhelpedBefore(w, before, step);
      var first := RunStaysStuck(w, before);
      events := StuckAfterNext(w, Run(w, before), step, first);
    }
  }

  /** A stuck resource whose deletion is not ignored stays stuck until it is edited so or gone: no stage completes, no
      pass drops its finalizer, and no pod is ever made for its generation. */
  lemma StaysStuck(w: World, steps: seq<Step>) returns (events: seq<Event>)
    requires Reachable(w) && Stuck(w) && !w.resource.value.spec.ignoreDelete && Unhelped(w, steps)
    ensures var v := Run(w, steps);
      && v.trail == w.trail + events && NothingEnds(events)
      && (v.resource.Some? ==> Stuck(v) && forall p :: p in v.pods ==> p.generation != w.resource.value.generation)
  {
    PodsAreProvided(w);
    events := RunStaysStuck(w, steps);
  }
}
