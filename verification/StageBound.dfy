/** How many stages a run can create, and what each cause of a stage costs. */
module StageBound {
  import opened Wrappers
  import opened Tasks
  import opened Workflow
  import opened WorkflowFacts

  /** The stages entered so far by cause, the last one entered, and whether every advance followed the stage before. */
  datatype Ledger = Ledger(
    first: nat, newGeneration: nat, retry: nat, restart: nat, advance: nat, last: Option<Event>, ordered: bool)
  {
    function Starts(): nat { first + newGeneration + retry + restart }

    function Stages(): nat { Starts() + advance }
  }

  /** An advance stays in the generation and the chain of the stage before it, and moves forward. */
  ghost predicate Follows(before: Option<Event>, entry: Event)
    requires entry.Entered?
  {
    entry.cause == Advance ==>
      && before.Some? && before.value.Entered? && entry.generation == before.value.generation
      && IsWorkflowTask(before.value.task)
      && (entry.task == RunNil
          || (SameChain(before.value.task, entry.task) && before.value.task.Id() < entry.task.Id()))
  }

  ghost function Post(l: Ledger, e: Event): Ledger {
    if !e.Entered? then l
    else
      var next := l.(last := Some(e), ordered := l.ordered && Follows(l.last, e));
      match e.cause
      case FirstStage => next.(first := l.first + 1)
      case NewGeneration => next.(newGeneration := l.newGeneration + 1)
      case Retry => next.(retry := l.retry + 1)
      case Restart => next.(restart := l.restart + 1)
      case Advance => next.(advance := l.advance + 1)
  }

  ghost function LedgerOf(trail: seq<Event>): Ledger {
    if trail == [] then Ledger(0, 0, 0, 0, 0, None, true)
    else Post(LedgerOf(trail[..|trail| - 1]), trail[|trail| - 1])
  }

  ghost predicate NoEntries(events: seq<Event>) {
    forall e :: e in events ==> !e.Entered?
  }

  lemma {:induction false} PostQuiet(trail: seq<Event>, events: seq<Event>)
    requires NoEntries(events)
    ensures LedgerOf(trail + events) == LedgerOf(trail)
    decreases events
  {
    if events == [] {
      assert trail + events == trail;
    } else {
      var before, all := events[..|events| - 1], trail + events;
      assert all[..|all| - 1] == trail + before && all[|all| - 1] == events[|events| - 1];
      PostQuiet(trail, before);
    }
  }

  lemma PostEntry(trail: seq<Event>, entry: Event, events: seq<Event>)
    requires NoEntries(events)
    ensures LedgerOf(trail + ([entry] + events)) == Post(LedgerOf(trail), entry)
  {
    var one := trail + [entry];
    assert one[..|one| - 1] == trail;
    assert trail + ([entry] + events) == one + events;
    PostQuiet(one, events);
  }

  /** How many more stages a stage can lead to by advancing. */
  function Remaining(t: TaskName): nat { if IsWorkflowTask(t) then Ahead(t) + 1 else 0 }

  /** The stage is the last one entered. */
  predicate IsLast(stage: Stage, last: Option<Event>) {
    if stage.generation == 0 then last == None
    else last.Some? && last.value.Entered? && last.value.generation == stage.generation && last.value.task == stage.task
  }

  /** What the ledger says of a resource that is still there: the stages are paid for, and the generations and labels
      not yet acted on are not counted yet. */
  ghost predicate Balanced(r: Resource, l: Ledger, generations: nat, causes: nat) {
    var stage := r.status.stage;
    && WellStaged(r) && IsLast(stage, l.last) && l.ordered
    && l.Stages() + Remaining(stage.task) <= 11 * l.Starts()
    && l.newGeneration + (if stage.generation == 0 then 0 else r.generation - stage.generation) <= generations
    && l.retry + (if RetryPending(r) then 1 else 0) <= causes
    && l.first <= if stage.generation == 0 then 0 else 1
  }

  /** What is left of that when the resource is gone. */
  ghost predicate Closed(l: Ledger, generations: nat, causes: nat) {
    l.Stages() <= 11 * l.Starts() && l.newGeneration <= generations && l.retry <= causes && l.first <= 1 && l.ordered
  }

  ghost predicate Accounted(w: World, generations: nat, causes: nat) {
    if w.resource.Some? then Balanced(w.resource.value, LedgerOf(w.trail), generations, causes)
    else Closed(LedgerOf(w.trail), generations, causes)
  }

  lemma QuietStep(w: World, w': World, events: seq<Event>, generations: nat, causes: nat)
    requires Accounted(w, generations, causes)
    requires w'.trail == w.trail + events && NoEntries(events)
    requires w'.resource.Some? ==> w.resource.Some?
    requires w'.resource.Some? ==>
      var r, r' := w.resource.value, w'.resource.value;
      && WellStaged(r') && r'.generation == r.generation
      && r'.status.stage.task == r.status.stage.task && r'.status.stage.generation == r.status.stage.generation
      && (RetryPending(r') ==> RetryPending(r))
    ensures Accounted(w', generations, causes)
  {
    PostQuiet(w.trail, events);
  }

  /** The entry fits the resource it is made for. */
  ghost predicate FitsEntry(r: Resource, entry: Event)
    requires entry.Entered?
  {
    && entry.generation == r.generation
    && (entry.cause == Advance ==>
          && r.status.stage.generation == r.generation && IsWorkflowTask(r.status.stage.task)
          && (entry.task == RunNil
              || (SameChain(r.status.stage.task, entry.task) && r.status.stage.task.Id() < entry.task.Id())))
    && (entry.cause == NewGeneration ==> r.status.stage.generation != r.generation && r.status.stage.generation != 0)
    && (entry.cause == Retry ==> RetryPending(r))
    && (entry.cause == FirstStage <==> r.status.stage.generation == 0)
  }

  lemma EntryStep(r: Resource, r': Resource, l: Ledger, entry: Event, generations: nat, causes: nat)
    requires Balanced(r, l, generations, causes) && WellStaged(r') && entry.Entered? && FitsEntry(r, entry)
    requires r'.generation == r.generation
    requires r'.status.stage.generation == entry.generation && r'.status.stage.task == entry.task
    requires RetryPending(r') ==> RetryPending(r) && entry.cause != Retry
    ensures Balanced(r', Post(l, entry), generations, causes)
  {
    EntryIsPaid(r.status.stage.task, l, entry);
  }

  /** An advance is paid for by what was left to its chain, any other entry by itself. */
  lemma EntryIsPaid(before: TaskName, l: Ledger, entry: Event)
    requires entry.Entered? && l.Stages() + Remaining(before) <= 11 * l.Starts()
    requires entry.cause == Advance ==>
      && IsWorkflowTask(before)
      && (entry.task == RunNil || (SameChain(before, entry.task) && before.Id() < entry.task.Id()))
    ensures Post(l, entry).Stages() + Remaining(entry.task) <= 11 * Post(l, entry).Starts()
  {
  }

  lemma StoredStep(w: World, w': World, pods: seq<Pod>, c: Choice, stage: Stage, cause: Cause, generations: nat,
      causes: nat)
    requires Accounted(w, generations, causes) && WellStagedWorld(w') && EntersInto(w, w', stage, cause, true)
    requires MoveFits(w.resource.value, Noticed(w.resource.value, w.clock), RetryPending(w.resource.value), pods, c,
               stage, cause)
    requires w.resource.value.status.stage.generation != 0
    ensures Accounted(w', generations, causes)
  {
    var r := w.resource.value;
    NoticedKeeps(r, w.clock);
    var entry := Entered(stage.generation, stage.task, cause);
    PostEntry(w.trail, entry, ResetEvents(stage));
    EntryStep(r, w'.resource.value, LedgerOf(w.trail), entry, generations, causes);
  }

  /** A stage was entered, and stored or not. */
  lemma EnteredStep(w: World, w': World, c: Choice, stage: Stage, cause: Cause, stored: bool, generations: nat,
      causes: nat)
    requires Accounted(w, generations, causes) && WellStagedWorld(w') && EntersInto(w, w', stage, cause, stored)
    requires MoveFits(w.resource.value, Noticed(w.resource.value, w.clock), RetryPending(w.resource.value), w.pods, c,
               stage, cause)
    requires w.resource.value.status.stage.generation != 0
    ensures Accounted(w', generations, causes)
  {
    if stored {
      StoredStep(w, w', w.pods, c, stage, cause, generations, causes);
    } else {
      QuietStep(w, w', [], generations, causes);
    }
  }

  lemma EnteringStep(w: World, c: Choice, generations: nat, causes: nat)
    requires KindOf(w, c).Entering? && Accounted(w, generations, causes)
    ensures Accounted(Pass(w, c), generations, causes)
  {
    var stage, cause := EnteringFacts(w, c);
    EnteredStep(w, Pass(w, c), c, stage, cause, c.WriteOk(0), generations, causes);
  }

  lemma WorkingStep(w: World, c: Choice, generations: nat, causes: nat)
    requires KindOf(w, c) == Working && Accounted(w, generations, causes)
    ensures Accounted(Pass(w, c), generations, causes)
  {
    PassKeepsWellStaged(w, c);
    NoticedKeeps(w.resource.value, w.clock);
    var t, events := WorkingPass(w, c);
    WorkedStep(w, Pass(w, c), t, events, generations, causes);
  }

  lemma WorkedStep(w: World, w': World, t: Status, events: seq<Event>, generations: nat, causes: nat)
    requires Accounted(w, generations, causes) && w.resource.Some? && WellStagedWorld(w')
    requires var r := w.resource.value; WorkEffect(r, Noticed(r, w.clock), t, events) && WorkStores(w, w', r, t, events)
    ensures Accounted(w', generations, causes)
  {
    NoticedKeeps(w.resource.value, w.clock);
    QuietStep(w, w', events, generations, causes);
  }

  lemma FirstPass(w: World, c: Choice)
    requires KindOf(w, c) == First
    ensures w.resource.Some? && w.resource.value.status.stage.generation == 0
    ensures if c.WriteOk(0) then
        && Pass(w, c).resource == Some(w.resource.value.(status := Stored(FirstStatus(w.resource.value))))
        && Pass(w, c).trail == w.trail + ([Entered(w.resource.value.generation, RunSetup, FirstStage)] + [PluginsReset])
      else Pass(w, c) == w
  {
  }

  lemma FirstStored(w: World, w': World, generations: nat, causes: nat)
    requires Accounted(w, generations, causes) && w.resource.Some? && w.resource.value.status.stage.generation == 0
    requires w'.resource == Some(w.resource.value.(status := Stored(FirstStatus(w.resource.value))))
             && WellStagedWorld(w')
    requires w'.trail == w.trail + ([Entered(w.resource.value.generation, RunSetup, FirstStage)] + [PluginsReset])
    ensures Accounted(w', generations, causes)
  {
    var r := w.resource.value;
    var entry := Entered(r.generation, RunSetup, FirstStage);
    PostEntry(w.trail, entry, [PluginsReset]);
    EntryStep(r, w'.resource.value, LedgerOf(w.trail), entry, generations, causes);
  }

  lemma FirstStep(w: World, c: Choice, generations: nat, causes: nat)
    requires KindOf(w, c) == First && Accounted(w, generations, causes)
    ensures Accounted(Pass(w, c), generations, causes)
  {
    PassKeepsWellStaged(w, c);
    FirstPass(w, c);
    if c.WriteOk(0) {
      FirstStored(w, Pass(w, c), generations, causes);
    }
  }

  lemma SavingStep(w: World, c: Choice, generations: nat, causes: nat)
    requires (KindOf(w, c) == Finalizers || KindOf(w, c) == Naming || KindOf(w, c) == Nothing)
             && Accounted(w, generations, causes)
    ensures Accounted(Pass(w, c), generations, causes)
  {
    assert w.trail + [] == w.trail;
    match KindOf(w, c)
    case Finalizers =>
      var f := FinalizerPass(w, c);
      QuietStep(w, Pass(w, c), if Pass(w, c).trail != w.trail then [FinalizerDropped] else [], generations, causes);
    case Naming =>
      QuietStep(w, Pass(w, c), [], generations, causes);
    case Nothing =>
  }

  lemma PassAccounted(w: World, c: Choice, generations: nat, causes: nat)
    requires Accounted(w, generations, causes)
    ensures Accounted(Pass(w, c), generations, causes)
  {
    var kind := KindOf(w, c);
    if kind.Entering? {
      EnteringStep(w, c, generations, causes);
    } else if kind == Working {
      WorkingStep(w, c, generations, causes);
    } else if kind == First {
      FirstStep(w, c, generations, causes);
    } else {
      SavingStep(w, c, generations, causes);
    }
  }

  // ---------------------------------------------------------------------------------------------
  // Counting the steps of a run

  /** An edit of the spec or a request for deletion. */
  function GenerationEdit(step: Step): nat {
    if step.Environment? && step.step.EditResource? && (step.step.edit.EditSpec? || step.step.edit.RequestDelete?)
      then 1 else 0
  }

  /** An edit of the label that asks for retries. */
  function CauseEdit(step: Step): nat {
    if step.Environment? && step.step.EditResource? && step.step.edit.SetChangeCause? then 1 else 0
  }

  function GenerationEdits(steps: seq<Step>): nat {
    if steps == [] then 0 else GenerationEdits(steps[..|steps| - 1]) + GenerationEdit(steps[|steps| - 1])
  }

  function CauseEdits(steps: seq<Step>): nat {
    if steps == [] then 0 else CauseEdits(steps[..|steps| - 1]) + CauseEdit(steps[|steps| - 1])
  }

  lemma EditStep(r: Resource, edit: Edit, l: Ledger, generations: nat, causes: nat)
    requires Balanced(r, l, generations, causes)
    ensures var step := Environment(EditResource(edit));
      Balanced(Edited(r, edit), l, generations + GenerationEdit(step), causes + CauseEdit(step))
  {
  }

  lemma Closes(r: Resource, l: Ledger, generations: nat, causes: nat)
    requires Balanced(r, l, generations, causes)
    ensures Closed(l, generations, causes)
  {
  }

  lemma EditAccounted(w: World, edit: Edit, generations: nat, causes: nat)
    requires Accounted(w, generations, causes)
    ensures var step := Environment(EditResource(edit));
      Accounted(Next(w, step), generations + GenerationEdit(step), causes + CauseEdit(step))
  {
    if w.resource.Some? {
      var step := Environment(EditResource(edit));
      EditStep(w.resource.value, edit, LedgerOf(w.trail), generations, causes);
      Closes(Edited(w.resource.value, edit), LedgerOf(w.trail),
             generations + GenerationEdit(step), causes + CauseEdit(step));
    }
  }

  lemma OtherAccounted(w: World, e: EnvStep, generations: nat, causes: nat)
    requires Accounted(w, generations, causes) && !e.EditResource?
    ensures var step := Environment(e);
      Accounted(Next(w, step), generations + GenerationEdit(step), causes + CauseEdit(step))
  {
  }

  lemma ControllerAccounted(w: World, c: Choice, generations: nat, causes: nat)
    requires Accounted(w, generations, causes)
    ensures var step := Controller(c);
      Accounted(Next(w, step), generations + GenerationEdit(step), causes + CauseEdit(step))
  {
    PassAccounted(w, c, generations, causes);
  }

  lemma StepAccounted(w: World, step: Step, generations: nat, causes: nat)
    requires Accounted(w, generations, causes)
    ensures Accounted(Next(w, step), generations + GenerationEdit(step), causes + CauseEdit(step))
  {
    if step.Controller? {
      ControllerAccounted(w, step.choice, generations, causes);
    } else if step.step.EditResource? {
      EditAccounted(w, step.step.edit, generations, causes);
    } else {
      OtherAccounted(w, step.step, generations, causes);
    }
  }

  lemma NewIsBalanced(r: Resource, l: Ledger)
    requires r.generation == 1 && r.status == NO_STATUS
    requires l.first == l.newGeneration == l.retry == l.restart == l.advance == 0 && l.last == None && l.ordered
    ensures Balanced(r, l, 0, 1)
  {
  }

  lemma FreshAccounted(w: World)
    requires IsFresh(w)
    ensures Accounted(w, 0, 1)
  {
    NewIsBalanced(w.resource.value, LedgerOf([]));
  }

  lemma {:induction false} RunAccounted(w: World, steps: seq<Step>)
    requires IsFresh(w)
    ensures Accounted(Run(w, steps), GenerationEdits(steps), 1 + CauseEdits(steps))
    decreases steps
  {
    if steps == [] {
      FreshAccounted(w);
    } else {
      var before := steps[..|steps| - 1];
      RunAccounted(w, before);
      StepAccounted(Run(w, before), steps[|steps| - 1], GenerationEdits(before), 1 + CauseEdits(before));
    }
  }

  /** In every run, at most eleven stages are created for each first stage, generation change, retry and restart;
      no more generation changes and retries are acted on than there were edits of the spec, deletion requests
      and changes of the label; and a stage that is an advance follows one of the same generation and chain. */
  lemma StagesAreBounded(w: World, steps: seq<Step>)
    requires IsFresh(w)
    ensures var l := LedgerOf(Run(w, steps).trail);
      && l.Stages() <= 11 * (1 + l.newGeneration + l.retry + l.restart)
      && l.newGeneration <= GenerationEdits(steps)
      && l.retry <= 1 + CauseEdits(steps)
      && l.ordered
  {
    RunAccounted(w, steps);
  }

  ghost predicate FollowsAt(trail: seq<Event>, i: nat)
    requires i < |trail|
  {
    trail[i].Entered? ==> Follows(LedgerOf(trail[..i]).last, trail[i])
  }

  /** The last entry on a trail, if any. */
  predicate IsLastEntry(trail: seq<Event>, i: nat) {
    i < |trail| && trail[i].Entered? && forall k :: i < k < |trail| ==> !trail[k].Entered?
  }

  /** The ledger's last entry is the last one on the trail. */
  lemma {:induction false} LastMeaning(trail: seq<Event>)
    ensures var last := LedgerOf(trail).last;
      if last == None then NoEntries(trail) else exists i: nat :: IsLastEntry(trail, i) && last == Some(trail[i])
  {
    if trail != [] {
      var before, e := trail[..|trail| - 1], trail[|trail| - 1];
      LastMeaning(before);
      if e.Entered? {
        assert IsLastEntry(trail, |before|);
      } else if LedgerOf(before).last.Some? {
        var i: nat :| IsLastEntry(before, i) && LedgerOf(before).last == Some(before[i]);
        assert IsLastEntry(trail, i);
      } else {
        assert trail == before + [e];
      }
    }
  }

  lemma FollowsAtBefore(before: seq<Event>, e: Event, i: nat)
    requires i < |before|
    ensures FollowsAt(before + [e], i) <==> FollowsAt(before, i)
  {
    assert (before + [e])[..i] == before[..i];
  }

  /** Its advances are in order exactly if each of them follows the entry before it. */
  lemma {:induction false} OrderMeaning(trail: seq<Event>)
    ensures LedgerOf(trail).ordered <==> forall i :: 0 <= i < |trail| ==> FollowsAt(trail, i)
  {
    if trail != [] {
      var before, e := trail[..|trail| - 1], trail[|trail| - 1];
      assert trail == before + [e];
      OrderMeaning(before);
      forall i | 0 <= i < |before| ensures FollowsAt(trail, i) <==> FollowsAt(before, i) {
        FollowsAtBefore(before, e, i);
      }
      assert FollowsAt(trail, |before|) <==> (e.Entered? ==> Follows(LedgerOf(before).last, e));
    }
  }
}
