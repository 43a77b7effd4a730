/** Every apply is preceded by a completed plan of its own. */
module PlanBeforeApply {
  import opened Wrappers
  import opened Tasks
  import opened Workflow
  import opened WorkflowFacts

  function PlanTask(chain: Chain): TaskName { if chain.CreateChain? then RunPlan else RunPlanDelete }

  function ApplyTask(chain: Chain): TaskName { if chain.CreateChain? then RunApply else RunApplyDelete }

  /** The optional tasks after the plan and before the apply of a chain. */
  predicate IsAfterPlan(chain: Chain, t: TaskName) {
    ChainBase(chain) + 6 < t.Id() < ChainBase(chain) + 9
  }

  /** The plan of generation `g` completed, and nothing was entered since but the steps between it and its apply. */
  ghost predicate PlannedSince(trail: seq<Event>, g: nat, chain: Chain) {
    exists j: nat :: PlannedAt(trail, j, g, chain)
  }

  /** That plan completed at event `j`. */
  ghost predicate PlannedAt(trail: seq<Event>, j: nat, g: nat, chain: Chain) {
    j < |trail| && Completes(trail[j], g, PlanTask(chain)) && OnlyAfterPlan(trail[j + 1..], g, chain)
  }

  ghost predicate OnlyAfterPlan(events: seq<Event>, g: nat, chain: Chain) {
    forall e :: e in events && e.Entered? ==> e.generation == g && IsAfterPlan(chain, e.task)
  }

  lemma PlannedStays(trail: seq<Event>, more: seq<Event>, g: nat, chain: Chain)
    requires PlannedSince(trail, g, chain) && OnlyAfterPlan(more, g, chain)
    ensures PlannedSince(trail + more, g, chain)
  {
    var j: nat :| PlannedAt(trail, j, g, chain);
    assert (trail + more)[j] == trail[j];
    assert (trail + more)[j + 1..] == trail[j + 1..] + more;
    assert PlannedAt(trail + more, j, g, chain);
  }

  lemma PlanCompleted(trail: seq<Event>, e: Event, g: nat, chain: Chain)
    requires Completes(e, g, PlanTask(chain))
    ensures PlannedSince(trail + [e], g, chain)
  {
    var all := trail + [e];
    assert all[|trail|] == e && all[|trail| + 1..] == [];
    assert PlannedAt(all, |trail|, g, chain);
  }

  /** Every entry into an apply task follows a completed plan with nothing else entered in between. */
  ghost predicate AppliesPlanned(trail: seq<Event>) {
    forall i, chain: Chain :: 0 <= i < |trail| && trail[i].Entered? && trail[i].task == ApplyTask(chain) ==>
      PlannedSince(trail[..i], trail[i].generation, chain)
  }

  lemma AppliesPlannedAppend(trail: seq<Event>, e: Event)
    requires AppliesPlanned(trail)
    requires e.Entered? ==> forall chain: Chain :: e.task == ApplyTask(chain) ==>
             PlannedSince(trail, e.generation, chain)
    ensures AppliesPlanned(trail + [e])
  {
    var all := trail + [e];
    forall i, chain: Chain | 0 <= i < |all| && all[i].Entered? && all[i].task == ApplyTask(chain)
      ensures PlannedSince(all[..i], all[i].generation, chain)
    {
      assert all[..i] == trail[..i];
      assert i == |trail| ==> all[..i] == trail;
    }
  }

  lemma {:induction false} AppliesPlannedQuiet(trail: seq<Event>, events: seq<Event>)
    requires AppliesPlanned(trail) && forall e :: e in events ==> !e.Entered?
    ensures AppliesPlanned(trail + events)
    decreases events
  {
    if events == [] {
      assert trail + events == trail;
    } else {
      AppliesPlannedQuiet(trail, events[..|events| - 1]);
      AppliesPlannedAppend(trail + events[..|events| - 1], events[|events| - 1]);
      assert trail + events == trail + events[..|events| - 1] + [events[|events| - 1]];
    }
  }

  /** The stage has the plan behind it. */
  predicate PastPlan(chain: Chain, stage: Stage) {
    IsAfterPlan(chain, stage.task) || (stage.task == PlanTask(chain) && stage.state == StateComplete)
  }

  ghost predicate Planned(w: World) {
    && WellStagedWorld(w)
    && AppliesPlanned(w.trail)
    && (w.resource.Some? ==>
          forall chain: Chain :: PastPlan(chain, w.resource.value.status.stage) ==>
            PlannedSince(w.trail, w.resource.value.status.stage.generation, chain))
  }

  lemma QuietStep(w: World, w': World, events: seq<Event>)
    requires Planned(w) && WellStagedWorld(w')
    requires w'.trail == w.trail + events && forall e :: e in events ==> !e.Entered?
    requires w'.resource.Some? ==> w.resource.Some?
    requires w'.resource.Some? ==>
      var stage, stage' := w.resource.value.status.stage, w'.resource.value.status.stage;
      stage'.generation == stage.generation && forall chain: Chain :: PastPlan(chain, stage') ==> PastPlan(chain, stage)
    ensures Planned(w')
  {
    AppliesPlannedQuiet(w.trail, events);
    if w'.resource.Some? {
      var stage' := w'.resource.value.status.stage;
      forall chain: Chain | PastPlan(chain, stage') ensures PlannedSince(w'.trail, stage'.generation, chain) {
        PlannedStays(w.trail, events, stage'.generation, chain);
      }
    }
  }

  lemma StopsAreKept(t: TaskName, next: TaskName, chain: Chain)
    requires IsWorkflowTask(t) && SameChain(t, next) && t.Id() < next.Id() && StopsAt(t, next, 6) && StopsAt(t, next, 9)
    requires next == ApplyTask(chain) || IsAfterPlan(chain, next)
    ensures t == PlanTask(chain) || IsAfterPlan(chain, t)
  {
  }

  /** An advance passes over no plan and no apply. */
  lemma AdvanceIsPlanned(t: TaskName, options: seq<seq<TaskName>>, next: TaskName, chain: Chain)
    requires IsWorkflowTask(t) && IsNextTask(t, ConfiguredTasks(options), next)
    requires next == ApplyTask(chain) || IsAfterPlan(chain, next)
    ensures t == PlanTask(chain) || IsAfterPlan(chain, t)
  {
    ConfiguredHasBaseTasks(options);
    NextBaseTask(t, ConfiguredTasks(options), next);
    StopsAreKept(t, next, chain);
  }

  lemma EntryStep(w: World, w': World, entry: Event, events: seq<Event>, t: TaskName, options: seq<seq<TaskName>>)
    requires Planned(w) && WellStagedWorld(w') && w.resource.Some? && w'.resource.Some?
    requires w'.trail == w.trail + ([entry] + events) && entry.Entered? && forall e :: e in events ==> !e.Entered?
    requires var stage := w'.resource.value.status.stage;
      stage.generation == entry.generation && stage.task == entry.task
        && (stage.task != RunNil ==> stage.state == StateInitializing)
    requires t == w.resource.value.status.stage.task
    requires entry.cause == Advance ==>
      && w.resource.value.status.stage.generation == entry.generation
         && w.resource.value.status.stage.state == StateComplete
      && IsWorkflowTask(t) && IsNextTask(t, ConfiguredTasks(options), entry.task)
    requires entry.cause != Advance ==>
      forall chain: Chain :: entry.task != ApplyTask(chain) && !IsAfterPlan(chain, entry.task)
    ensures Planned(w')
  {
    forall chain: Chain | entry.task == ApplyTask(chain) || IsAfterPlan(chain, entry.task)
      ensures PlannedSince(w.trail, entry.generation, chain)
    {
      AdvanceIsPlanned(t, options, entry.task, chain);
      assert PastPlan(chain, w.resource.value.status.stage);
    }
    AppliesPlannedAppend(w.trail, entry);
    AppliesPlannedQuiet(w.trail + [entry], events);
    assert w'.trail == w.trail + [entry] + events;
    forall chain: Chain | PastPlan(chain, w'.resource.value.status.stage)
      ensures PlannedSince(w'.trail, entry.generation, chain)
    {
      PlannedStays(w.trail, [entry] + events, entry.generation, chain);
    }
  }

  lemma StoredStep(w: World, w': World, pods: seq<Pod>, c: Choice, stage: Stage, cause: Cause)
    requires Planned(w) && WellStagedWorld(w') && EntersInto(w, w', stage, cause, true)
    requires MoveFits(w.resource.value, Noticed(w.resource.value, w.clock), RetryPending(w.resource.value), pods, c,
               stage, cause)
    ensures Planned(w')
  {
    var r := w.resource.value;
    NoticedKeeps(r, w.clock);
    EntryStep(w, w', Entered(stage.generation, stage.task, cause), ResetEvents(stage), r.status.stage.task,
      r.spec.optionTasks);
  }

  lemma LostStep(w: World, w': World)
    requires Planned(w) && WellStagedWorld(w') && w'.resource == w.resource && w'.trail == w.trail + []
    ensures Planned(w')
  {
    QuietStep(w, w', []);
  }

  lemma EnteringStep(w: World, c: Choice)
    requires KindOf(w, c).Entering? && Planned(w)
    ensures Planned(Pass(w, c))
  {
    EnteringOutcome(w, c);
    EnteringFits(w, c);
    PassKeepsWellStaged(w, c);
    if c.WriteOk(0) {
      StoredStep(w, Pass(w, c), w.pods, c, KindOf(w, c).stage, KindOf(w, c).cause);
    } else {
      LostStep(w, Pass(w, c));
    }
  }

  lemma WorkingStep(w: World, c: Choice)
    requires KindOf(w, c) == Working && Planned(w)
    ensures Planned(Pass(w, c))
  {
    PassKeepsWellStaged(w, c);
    var r := w.resource.value;
    NoticedKeeps(r, w.clock);
    var t, events := WorkingPass(w, c);
    if CompletedStage(Noticed(r, w.clock), t) && events == [CompletionOf(t.stage)] {
      StageCompletes(w, Pass(w, c), CompletionOf(t.stage));
    } else {
      QuietStep(w, Pass(w, c), events);
    }
  }

  lemma StageCompletes(w: World, w': World, e: Event)
    requires Planned(w) && WellStagedWorld(w') && w.resource.Some? && w'.resource.Some?
    requires var stage, stage' := w.resource.value.status.stage, w'.resource.value.status.stage;
      && stage'.generation == stage.generation && stage'.task == stage.task
      && w'.trail == w.trail + [e] && Completes(e, stage.generation, stage.task)
    ensures Planned(w')
  {
    var stage := w.resource.value.status.stage;
    AppliesPlannedQuiet(w.trail, [e]);
    forall chain: Chain | PastPlan(chain, w'.resource.value.status.stage)
      ensures PlannedSince(w'.trail, stage.generation, chain)
    {
      if stage.task == PlanTask(chain) {
        PlanCompleted(w.trail, e, stage.generation, chain);
      } else {
        PlannedStays(w.trail, [e], stage.generation, chain);
      }
    }
  }

  lemma FirstStep(w: World, c: Choice)
    requires KindOf(w, c) == First && Planned(w)
    ensures Planned(Pass(w, c))
  {
    PassKeepsWellStaged(w, c);
    var r := w.resource.value;
    if c.WriteOk(0) {
      var entry := Entered(r.generation, RunSetup, FirstStage);
      assert [entry, PluginsReset] == [entry] + [PluginsReset];
      EntryStep(w, Pass(w, c), entry, [PluginsReset], r.status.stage.task, []);
    }
  }

  lemma SavingStep(w: World, c: Choice)
    requires (KindOf(w, c) == Finalizers || KindOf(w, c) == Naming || KindOf(w, c) == Nothing) && Planned(w)
    ensures Planned(Pass(w, c))
  {
    assert w.trail + [] == w.trail;
    PassKeepsWellStaged(w, c);
    match KindOf(w, c)
    case Finalizers =>
      var f := FinalizerPass(w, c);
      QuietStep(w, Pass(w, c), if Pass(w, c).trail != w.trail then [FinalizerDropped] else []);
    case Naming =>
      QuietStep(w, Pass(w, c), []);
    case Nothing =>
  }

  lemma NextPlanned(w: World, step: Step)
    requires Planned(w)
    ensures Planned(Next(w, step))
  {
    match step
    case Environment(e) =>
      NextKeepsWellStaged(w, step);
      assert w.trail + [] == w.trail;
      QuietStep(w, Next(w, step), []);
    case Controller(c) =>
      var kind := KindOf(w, c);
      if kind.Entering? {
        EnteringStep(w, c);
      } else if kind == Working {
        WorkingStep(w, c);
      } else if kind == First {
        FirstStep(w, c);
      } else {
        SavingStep(w, c);
      }
  }

  /** In every run, whatever is edited, retried, deleted or lost, each entry into apply (apply-delete) follows a
      completed plan (plan-delete) of the same generation, and in between only that generation's post-plan and
      pre-apply steps were entered, so no completion of a plan serves two applies. */
  lemma EveryApplyIsPlanned(w: World)
    requires Reachable(w)
    ensures AppliesPlanned(w.trail)
  {
    var w0, steps :| IsFresh(w0) && w == Run(w0, steps);
    forall v, step | Planned(v) ensures Planned(Next(v, step)) {
      NextPlanned(v, step);
    }
    RunInduction(v => Planned(v), w0, steps);
  }
}
