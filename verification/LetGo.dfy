/** How a resource comes to lose its finalizer although what it applied was never destroyed. */
module LetGo {
  import opened Wrappers
  import opened Tasks
  import opened Workflow
  import opened WorkflowFacts
  import opened Progress
  import opened Provisioning
  import DeletionSafety
  import Lists

  // ---------------------------------------------------------------------------------------------
  // No delete task is entered

  lemma DoomedRound(w: World, c: Choice) returns (events: seq<Event>)
    requires DeletionSafety.Doomed(w)
    ensures DeletionSafety.Doomed(Round(w, c))
    ensures Round(w, c).trail == w.trail + events && DeletionSafety.NoDestroy(events)
  {
    events := DeletionSafety.DoomedPass(w, c);
  }

  lemma DoomedStep(rs: SmoothRounds, i: nat) returns (events: seq<Event>)
    requires i < |rs.cs| && DeletionSafety.Doomed(rs.ws[i])
    ensures DeletionSafety.Doomed(rs.ws[i + 1])
    ensures rs.ws[i + 1].trail == rs.ws[i].trail + events && DeletionSafety.NoDestroy(events)
  {
    assert IsRound(rs, i);
    events := DoomedRound(rs.ws[i], rs.cs[i]);
  }

  lemma {:induction false} DoomedRounds(rs: SmoothRounds, i: nat, k: nat) returns (events: seq<Event>)
    requires i <= k <= |rs.cs| && DeletionSafety.Doomed(rs.ws[i])
    ensures DeletionSafety.Doomed(rs.ws[k])
    ensures rs.ws[k].trail == rs.ws[i].trail + events && DeletionSafety.NoDestroy(events)
    decreases k
  {
    if i == k {
      events := [];
    } else {
      var before := DoomedRounds(rs, i, k - 1);
      var last := DoomedStep(rs, k - 1);
      events := before + last;
    }
  }

  // ---------------------------------------------------------------------------------------------
  // The apply completes

  lemma {:induction false} KeepHas(tasks: seq<TaskName>, configured: seq<TaskName>, t: TaskName)
    requires t in tasks && t in configured
    ensures t in Keep(tasks, configured)
  {
    assert tasks == [tasks[0]] + tasks[1..];
    if tasks[0] != t {
      KeepHas(tasks[1..], configured, t);
    }
  }

  /** Walking the create chain from setup or from init passes through every later configured task of the chain. */
  lemma WalkHasTask(t: TaskName, u: TaskName, spec: Spec)
    requires (t == RunSetup || t == RunInit) && IsCreateTask(u) && t.Id() <= u.Id()
    requires u in ConfiguredTasks(spec.optionTasks)
    ensures u in WalkFrom(t, spec)
  {
    var configured := ConfiguredTasks(spec.optionTasks);
    var order := Order(CreateChain);
    ConfiguredHasBaseTasks(spec.optionTasks);
    OrderIsOrder(CreateChain);
    assert IsBaseTask(t);
    WalkIsOrder(t, configured, order, 0);
    var rest := order[t.Id() - 1..];
    assert rest[u.Id() - t.Id()] == order[u.Id() - 1];
    SameIdSameTask(u, order[u.Id() - 1]);
    KeepHas(rest, configured, u);
  }

  lemma WalkHasApply(t: TaskName, spec: Spec)
    requires t == RunSetup || t == RunInit
    ensures RunApply in WalkFrom(t, spec)
  {
    ConfiguredHasBaseTasks(spec.optionTasks);
    assert IsBaseTask(RunApply);
    WalkHasTask(t, RunApply, spec);
  }

  lemma CompletesTask(w: World, c: Choice, life: Life, t: TaskName) returns (e: Event)
    requires IsLaunched(w, life, t) && IsWorkflowTask(t) && Smooth(c, life.spec)
    ensures Completes(e, life.generation, t) && Round(w, c).trail == w.trail + [e]
  {
    var r := w.resource.value;
    ManagedWorks(w, c, life);
    e := Completed(life.generation, t, Lookup(w.pods, r.status)[0].name);
    assert Pass(w, c) == Observe(w, r, r.status, Lookup(w.pods, r.status)[0], c);
  }

  lemma CompletesAt(rs: SmoothRounds, i: nat, life: Life, t: TaskName) returns (e: Event)
    requires i < |rs.cs| && life.spec == rs.spec && At(rs.ws[i], Launched(t), life)
    ensures Completes(e, life.generation, t) && rs.ws[i + 1].trail == rs.ws[i].trail + [e]
  {
    assert IsRound(rs, i);
    e := CompletesTask(rs.ws[i], rs.cs[i], life, t);
  }

  // ---------------------------------------------------------------------------------------------
  // The journey of a resource that is to be deleted through the create chain

  /** To be deleted, but on its way through the create chain from setup or init. */
  ghost predicate IsDoomedJourney(j: Journey) {
    && IsJourney(j) && j.life.deleting && j.life.create && Dropped !in j.start
    && Lists.Count(j.life.finalizers, TF_FINALIZER) == 1
    && RunApply in j.walk
  }

  /** Over the rounds the finalizer is held up to the last, which drops it; the apply of the generation completed in
      between, and no delete task was entered. */
  ghost predicate IsLetGo(rs: SmoothRounds, generation: nat) {
    && |rs.cs| > 0
    && (forall k :: 0 <= k < |rs.cs| ==> HoldsFinalizer(rs.ws[k]))
    && Drops(rs.ws[|rs.cs| - 1], rs.ws[|rs.cs|])
    && exists events :: AppliedOnly(rs.ws[0].trail, rs.ws[|rs.cs|].trail, events, generation)
  }

  ghost predicate AppliedOnly(before: seq<Event>, after: seq<Event>, events: seq<Event>, generation: nat) {
    && after == before + events && DeletionSafety.NoDestroy(events)
    && exists e :: e in events && Completes(e, generation, RunApply)
  }

  /** The rounds after which the a-th task of the walk is launched. */
  function LaunchOf(j: Journey, a: nat): nat { |j.start| + 3 * a + 1 }

  lemma LaunchPosition(j: Journey, a: nat)
    requires a < |j.walk|
    ensures PositionAfter(j, LaunchOf(j, a)) == Launched(j.walk[a])
  {
    assert (3 * a + 1) / 3 == a && (3 * a + 1) % 3 == 1;
  }

  lemma ReachedAs(rs: SmoothRounds, k: nat, j: Journey, p: Position)
    requires k <= |rs.cs| && j.life.spec == rs.spec && IsJourney(j) && At(rs.ws[0], PositionAfter(j, 0), j.life)
    requires p == PositionAfter(j, k)
    ensures At(rs.ws[k], p, j.life)
  {
    PositionReached(rs, k, j);
  }

  /** The round in which the apply completes. */
  lemma AppliesAt(rs: SmoothRounds, j: Journey, a: nat, i: nat) returns (e: Event)
    requires IsDoomedJourney(j) && j.life.spec == rs.spec && At(rs.ws[0], PositionAfter(j, 0), j.life)
    requires a < |j.walk| && j.walk[a] == RunApply && i == LaunchOf(j, a) && i < |rs.cs|
    ensures rs.ws[i + 1].trail == rs.ws[i].trail + [e] && Completes(e, j.life.generation, RunApply)
  {
    LaunchPosition(j, a);
    ReachedAs(rs, i, j, Launched(RunApply));
    e := CompletesAt(rs, i, j.life, RunApply);
  }

  /** What the rounds put on the trail. */
  lemma JourneyEvents(rs: SmoothRounds, i: nat, e: Event, generation: nat, first: seq<Event>)
    requires 1 <= i < |rs.cs| && rs.ws[i + 1].trail == rs.ws[i].trail + [e] && Completes(e, generation, RunApply)
    requires DeletionSafety.Doomed(rs.ws[1]) && rs.ws[1].trail == rs.ws[0].trail + first
             && DeletionSafety.NoDestroy(first)
    ensures exists events :: AppliedOnly(rs.ws[0].trail, rs.ws[|rs.cs|].trail, events, generation)
  {
    var a := DoomedRounds(rs, 1, i);
    var b := DoomedRounds(rs, i, i + 1);
    var c := DoomedRounds(rs, i + 1, |rs.cs|);
    var events := first + a + [e] + c;
    assert e in events;
    assert rs.ws[|rs.cs|].trail == rs.ws[0].trail + events;
    assert AppliedOnly(rs.ws[0].trail, rs.ws[|rs.cs|].trail, events, generation);
  }

  lemma JourneyLetsGo(rs: SmoothRounds, j: Journey, first: seq<Event>)
    requires IsDoomedJourney(j) && j.life.spec == rs.spec && At(rs.ws[0], PositionAfter(j, 0), j.life)
    requires |rs.cs| == j.Walked() + 2
    requires DeletionSafety.Doomed(rs.ws[1]) && rs.ws[1].trail == rs.ws[0].trail + first
             && DeletionSafety.NoDestroy(first)
    ensures IsLetGo(rs, j.life.generation)
  {
    JourneyDropsAll(rs, j);
    var a :| 0 <= a < |j.walk| && j.walk[a] == RunApply;
    var i := LaunchOf(j, a);
    var e := AppliesAt(rs, j, a, i);
    JourneyEvents(rs, i, e, j.life.generation, first);
  }

  lemma DoomedLetsGo(rs: SmoothRounds, j: Journey)
    requires IsDoomedJourney(j) && j.life.spec == rs.spec && At(rs.ws[0], PositionAfter(j, 0), j.life)
    requires |rs.cs| == j.Walked() + 2 && DeletionSafety.Doomed(rs.ws[0]) && rs.ws[0].trail == []
    ensures IsLetGo(rs, j.life.generation) && DeletionSafety.NoDestroy(rs.ws[|rs.cs|].trail)
  {
    var first := DoomedStep(rs, 0);
    JourneyLetsGo(rs, j, first);
    var events := DoomedRounds(rs, 0, |rs.cs|);
    assert [] + events == events;
  }

  // ---------------------------------------------------------------------------------------------
  // Asked to be deleted before there is a stage

  /** A resource that was given its finalizer, and perhaps its name, and is then asked to be deleted. */
  function EarlyStart(rounds: nat): seq<Position> {
    if rounds == 1 then [NoPrefix, NoStage] else [NoStage]
  }

  function EarlyJourney(rounds: nat, life: Life): Journey {
    Journey(EarlyStart(rounds), WalkFrom(RunSetup, life.spec), life.(generation := 2, deleting := true))
  }

  lemma IsDoomedOn(start: seq<Position>, walk: seq<TaskName>, t: TaskName, life: Life)
    requires IsWalk(walk, t, Successor(life.spec)) && RunApply in walk && IsStart(start, t, Successor(life.spec), life)
    requires life.deleting && life.create && Dropped !in start && Lists.Count(life.finalizers, TF_FINALIZER) == 1
    ensures IsDoomedJourney(Journey(start, walk, life))
  {
  }

  lemma WalkFits(t: TaskName, spec: Spec)
    requires t == RunSetup || t == RunInit
    ensures IsWalk(WalkFrom(t, spec), t, Successor(spec)) && RunApply in WalkFrom(t, spec)
  {
    WalkIsWalk(t, spec);
    WalkHasApply(t, spec);
  }

  lemma IsDoomedFrom(start: seq<Position>, t: TaskName, life: Life)
    requires (t == RunSetup || t == RunInit) && IsStart(start, t, Successor(life.spec), life)
    requires life.deleting && life.create && Dropped !in start && Lists.Count(life.finalizers, TF_FINALIZER) == 1
    ensures IsDoomedJourney(Journey(start, WalkFrom(t, life.spec), life))
  {
    WalkFits(t, life.spec);
    IsDoomedOn(start, WalkFrom(t, life.spec), t, life);
  }

  lemma EarlyStarts(rounds: nat, next: TaskName -> TaskName, life: Life)
    requires rounds == 1 || rounds == 2
    ensures IsStart(EarlyStart(rounds), RunSetup, next, life)
  {
  }

  lemma EarlyIsDoomed(rounds: nat, life: Life)
    requires rounds == 1 || rounds == 2
    requires life.create && Lists.Count(life.finalizers, TF_FINALIZER) == 1
    ensures IsDoomedJourney(EarlyJourney(rounds, life))
  {
    var asked := life.(generation := 2, deleting := true);
    EarlyStarts(rounds, Successor(life.spec), asked);
    IsDoomedFrom(EarlyStart(rounds), RunSetup, asked);
  }

  lemma PreparedRounds(rs: SmoothRounds, life: Life)
    requires Fresh(rs.ws[0], life) && life.spec == rs.spec && (|rs.cs| == 1 || |rs.cs| == 2)
    ensures Prepared(rs.ws[|rs.cs|], life, |rs.cs| == 2) && rs.ws[|rs.cs|].trail == []
    ensures life.create && life.generation == 1 && Lists.Count(life.finalizers, TF_FINALIZER) == 1
  {
    OneFinalizerMore(rs.ws[0].resource.value.finalizers);
    assert IsRound(rs, 0);
    FinalizerRound(rs.ws[0], rs.cs[0], life);
    FreshTrail(rs.ws[0], rs.cs[0], life);
    if |rs.cs| == 2 {
      assert IsRound(rs, 1);
      NameRound(rs.ws[1], rs.cs[1], life);
      PreparedTrail(rs.ws[1], rs.cs[1], life);
    }
  }

  lemma FreshTrail(w: World, c: Choice, life: Life)
    requires Fresh(w, life) && Smooth(c, life.spec)
    ensures Round(w, c).trail == []
  {
  }

  lemma PreparedTrail(w: World, c: Choice, life: Life)
    requires Prepared(w, life, false) && Smooth(c, life.spec)
    ensures Round(w, c).trail == w.trail
  {
  }

  lemma RequestKeepsPrepared(w: World, life: Life, named: bool)
    requires Prepared(w, life, named) && life.generation == 1 && !life.deleting
    ensures var asked := EnvNext(w, EditResource(RequestDelete));
      && Prepared(asked, life.(generation := 2, deleting := true), named) && asked.trail == w.trail
      && DeletionSafety.Doomed(asked)
  {
    assert w.resource.value.finalizers != [];
  }

  /** The request comes after one or two rounds, and then there are as many as the chain and the way to it take. */
  ghost predicate AsksEarly(before: SmoothRounds, after: SmoothRounds) {
    && (|before.cs| == 1 || |before.cs| == 2)
    && after.ws[0] == EnvNext(before.ws[|before.cs|], EditResource(RequestDelete))
    && |after.cs| == (3 - |before.cs|) + 3 * |WalkFrom(RunSetup, after.spec)| + 2
  }

  lemma FreshIsReachable(w: World)
    requires IsFresh(w)
    ensures Reachable(w)
  {
    assert w == Run(w, []);
  }

  lemma EnvIsReachable(w: World, e: EnvStep)
    requires Reachable(w)
    ensures Reachable(EnvNext(w, e))
  {
    var w0, steps :| IsFresh(w0) && w == Run(w0, steps);
    var more := steps + [Environment(e)];
    assert more[..|more| - 1] == steps;
    assert EnvNext(w, e) == Run(w0, more);
  }

  lemma AskedStarts(before: SmoothRounds, after: SmoothRounds, life: Life)
    requires before.spec == after.spec == life.spec && Fresh(before.ws[0], life) && AsksEarly(before, after)
    ensures var j := EarlyJourney(|before.cs|, life);
      && IsDoomedJourney(j) && At(after.ws[0], PositionAfter(j, 0), j.life) && |after.cs| == j.Walked() + 2
    ensures DeletionSafety.Doomed(after.ws[0]) && after.ws[0].trail == []
  {
    PreparedRounds(before, life);
    EarlyIsDoomed(|before.cs|, life);
    RequestKeepsPrepared(before.ws[|before.cs|], life, |before.cs| == 2);
  }

  lemma AskedIsLetGo(before: SmoothRounds, after: SmoothRounds, life: Life)
    requires before.spec == after.spec == life.spec && Fresh(before.ws[0], life) && AsksEarly(before, after)
    ensures IsLetGo(after, 2) && DeletionSafety.NoDestroy(after.ws[|after.cs|].trail)
  {
    AskedStarts(before, after, life);
    DoomedLetsGo(after, EarlyJourney(|before.cs|, life));
  }

  lemma AskedIsReachable(before: SmoothRounds, after: SmoothRounds, life: Life)
    requires Fresh(before.ws[0], life) && AsksEarly(before, after)
    ensures Reachable(after.ws[|after.cs|])
  {
    FreshIsReachable(before.ws[0]);
    RoundsAreReachable(before, |before.cs|);
    EnvIsReachable(before.ws[|before.cs|], EditResource(RequestDelete));
    RoundsAreReachable(after, |after.cs|);
  }

  /** A newly created resource whose deletion is asked for after one or two passes, before it has a stage, runs its
      whole create chain in the generation of the request; its finalizer is dropped 3n + 4 or 3n + 3 rounds after the
      request, n tasks being configured, when its apply has completed and no delete task was ever entered. */
  lemma AskedTooEarly(before: SmoothRounds, after: SmoothRounds, life: Life)
    requires before.spec == after.spec == life.spec && Fresh(before.ws[0], life)
    ensures AsksEarly(before, after) ==>
      IsLetGo(after, 2) && DeletionSafety.NoDestroy(after.ws[|after.cs|].trail) && Reachable(after.ws[|after.cs|])
  {
    if AsksEarly(before, after) {
      AskedIsLetGo(before, after, life);
      AskedIsReachable(before, after, life);
    }
  }

  // ---------------------------------------------------------------------------------------------
  // Sent back by a label while it is being destroyed

  /** Somewhere in the destroy: a stage of the delete chain, or its end. */
  ghost predicate IsDestroying(w: World, life: Life) {
    && Managed(w, life) && life.deleting && !life.create
    && var s := w.resource.value.status;
    && s.prefix.Some? && s.phase != PhaseDeleted && s.stage.generation == life.generation
    && exists b: int :: b > 100 && PodsBelow(w.pods, life.generation, b)
  }

  lemma OnDestroyIsDestroying(w: World, p: Position, life: Life)
    requires At(w, p, life) && life.deleting && !life.create && (p.Ready? || p.Launched? || p.Finished?)
    ensures IsDestroying(w, life)
  {
    match p
    case Ready(t) => assert PodsBelow(w.pods, life.generation, if t == RunNil then End(life) else t.Id());
    case Launched(t) => assert PodsBelow(w.pods, life.generation, t.Id() + 1);
    case Finished(t) => assert PodsBelow(w.pods, life.generation, t.Id() + 1);
  }

  lemma PositionsOnWay(j: Journey, k: nat)
    requires j.life.deleting && !j.life.create && |j.start| <= k <= j.Walked()
    ensures var p := PositionAfter(j, k); p.Ready? || p.Launched? || p.Finished?
  {
  }

  lemma LabelSendsBack(w: World, life: Life, text: string)
    requires IsDestroying(w, life) && w.resource.value.status.retryReason != Some(text)
    requires SetsUp(ReasonOfLabel(text)) || life.generation in w.provisioned
    ensures IsRetried(EnvNext(w, EditResource(SetChangeCause(Some(text)))), life.(create := true), RetryTask(text))
  {
    assert w.resource.value.finalizers != [];
  }

  function BackJourney(t: TaskName, life: Life): Journey {
    Journey([Retried(t)], WalkFrom(t, life.spec), life.(create := true))
  }

  lemma BackStarts(t: TaskName, next: TaskName -> TaskName, life: Life)
    requires life.deleting && life.create
    ensures IsStart([Retried(t)], t, next, life)
  {
  }

  lemma BackIsDoomed(t: TaskName, life: Life)
    requires (t == RunSetup || t == RunInit) && life.deleting && Lists.Count(life.finalizers, TF_FINALIZER) == 1
    ensures IsDoomedJourney(BackJourney(t, life))
  {
    var back := life.(create := true);
    BackStarts(t, Successor(life.spec), back);
    IsDoomedFrom([Retried(t)], t, back);
  }

  /** The round that consumes the label enters the create chain. */
  lemma BackRound(w: World, c: Choice, life: Life, t: TaskName) returns (first: seq<Event>)
    requires IsRetried(w, life, t) && WellStagedWorld(w) && Smooth(c, life.spec)
    ensures DeletionSafety.Doomed(Round(w, c))
    ensures Round(w, c).trail == w.trail + first && DeletionSafety.NoDestroy(first)
  {
    PassKeepsWellStaged(w, c);
    RetriedRound(w, c, life, t);
    var r := w.resource.value;
    var stage := RetriedStatus(r, w.clock).stage;
    RetriedEnters(w, c, life, t);
    first := [Entered(stage.generation, stage.task, Retry)] + ResetEvents(stage);
  }

  lemma RetriedEnters(w: World, c: Choice, life: Life, t: TaskName)
    requires IsRetried(w, life, t) && Smooth(c, life.spec)
    ensures var stage := RetriedStatus(w.resource.value, w.clock).stage;
      Pass(w, c).trail == w.trail + ([Entered(stage.generation, stage.task, Retry)] + ResetEvents(stage))
  {
    var r := w.resource.value;
    var s := Noticed(r, w.clock);
    var stage := RetriedStatus(r, w.clock).stage;
    assert CheckSetNewStage(r, s, true, w.pods, c) == Enter(stage, Retry);
    assert Pass(w, c) == EnterStage(w, r, s, stage, Retry, c);
  }

  lemma BackStep(rs: SmoothRounds, life: Life, t: TaskName) returns (first: seq<Event>)
    requires 0 < |rs.cs| && life.spec == rs.spec && IsRetried(rs.ws[0], life, t) && WellStagedWorld(rs.ws[0])
    ensures DeletionSafety.Doomed(rs.ws[1])
    ensures rs.ws[1].trail == rs.ws[0].trail + first && DeletionSafety.NoDestroy(first)
  {
    assert IsRound(rs, 0);
    first := BackRound(rs.ws[0], rs.cs[0], life, t);
  }

  lemma RoundGrows(w: World, c: Choice)
    requires Reachable(w)
    ensures w.provisioned <= Round(w, c).provisioned
  {
    ReachableIsWellStaged(w);
    PassPods(w, c);
  }

  lemma {:induction false} RoundsGrow(rs: SmoothRounds, i: nat, k: nat)
    requires i <= k <= |rs.cs| && Reachable(rs.ws[0])
    ensures rs.ws[i].provisioned <= rs.ws[k].provisioned
    decreases k
  {
    if i < k {
      RoundsGrow(rs, i, k - 1);
      RoundsAreReachable(rs, k - 1);
      assert IsRound(rs, k - 1);
      RoundGrows(rs.ws[k - 1], rs.cs[k - 1]);
    }
  }

  /** The rounds of a life until some of its destroy is done. */
  ghost predicate Destroys(create: SmoothRounds, destroy: SmoothRounds, life: Life) {
    && create.spec == destroy.spec == life.spec && Fresh(create.ws[0], life)
    && |create.cs| == CreateTotal(life.spec) && 1 <= |destroy.cs| <= DeleteTotal(life.spec) - 2
    && destroy.ws[0] == EnvNext(create.ws[|create.cs|], EditResource(RequestDelete))
  }

  lemma DestroyIsReachable(create: SmoothRounds, destroy: SmoothRounds, life: Life)
    requires Destroys(create, destroy, life)
    ensures Reachable(create.ws[|create.cs|]) && Reachable(destroy.ws[0]) && Reachable(destroy.ws[|destroy.cs|])
  {
    FreshIsReachable(create.ws[0]);
    RoundsAreReachable(create, |create.cs|);
    EnvIsReachable(create.ws[|create.cs|], EditResource(RequestDelete));
    RoundsAreReachable(destroy, |destroy.cs|);
  }

  lemma DestroyIsUnderWay(create: SmoothRounds, destroy: SmoothRounds, life: Life)
    requires Destroys(create, destroy, life)
    ensures IsDestroying(destroy.ws[|destroy.cs|], AskedLife(life))
    ensures AskedLife(life).generation == 2 && Lists.Count(life.finalizers, TF_FINALIZER) == 1
  {
    var asked, k := AskedLife(life), |destroy.cs|;
    CreatedIsAsked(create, life);
    DestructionIsJourney(asked);
    PositionReached(destroy, k, Destruction(asked));
    PositionsOnWay(Destruction(asked), k);
    OnDestroyIsDestroying(destroy.ws[k], PositionAfter(Destruction(asked), k), asked);
  }

  lemma AskedRoundSetsNothingUp(w: World, c: Choice, life: Life)
    requires IsAsked(w, life) && Smooth(c, life.spec)
    ensures Round(w, c).provisioned == w.provisioned
  {
    AskedPass(w, c, life);
  }

  lemma RestIsBehind(w: World, life: Life)
    requires Reachable(w) && AtRest(w, life)
    ensures life.generation + 1 !in EnvNext(w, EditResource(RequestDelete)).provisioned
  {
    PodsAreProvided(w);
  }

  lemma FirstRoundSetsNothingUp(create: SmoothRounds, destroy: SmoothRounds, life: Life)
    requires Destroys(create, destroy, life)
    ensures 2 !in destroy.ws[1].provisioned
  {
    var created := create.ws[|create.cs|];
    CreateTakes(create, life, |create.cs|);
    DestroyIsReachable(create, destroy, life);
    RestIsBehind(created, life);
    RestIsAsked(created, life);
    assert IsRound(destroy, 0);
    AskedRoundSetsNothingUp(destroy.ws[0], destroy.cs[0], AskedLife(life));
  }

  lemma SecondPosition(j: Journey)
    requires |j.start| == 1 && j.walk != []
    ensures PositionAfter(j, 2).Launched?
  {
  }

  lemma LaunchedIsProvisioned(w: World, p: Position, life: Life)
    requires At(w, p, life) && p.Launched?
    ensures life.generation in w.provisioned
  {
  }

  lemma SecondRoundLaunches(rs: SmoothRounds, j: Journey)
    requires j.life.spec == rs.spec && IsJourney(j) && At(rs.ws[0], PositionAfter(j, 0), j.life)
    requires |j.start| == 1 && 2 <= |rs.cs|
    ensures j.life.generation in rs.ws[2].provisioned
  {
    PositionReached(rs, 2, j);
    SecondPosition(j);
    LaunchedIsProvisioned(rs.ws[2], PositionAfter(j, 2), j.life);
  }

  lemma SecondRoundSetsUp(destroy: SmoothRounds, life: Life)
    requires destroy.spec == life.spec && IsAsked(destroy.ws[0], life) && 2 <= |destroy.cs|
    ensures life.generation in destroy.ws[2].provisioned
  {
    DestructionIsJourney(life);
    SecondRoundLaunches(destroy, Destruction(life));
  }

  /** The first round of a destroy enters its first stage; the objects of the generation are made in the second. */
  lemma DestroySetsUp(create: SmoothRounds, destroy: SmoothRounds, life: Life)
    requires Destroys(create, destroy, life)
    ensures 2 in destroy.ws[|destroy.cs|].provisioned <==> 2 <= |destroy.cs|
  {
    if |destroy.cs| == 1 {
      FirstRoundSetsNothingUp(create, destroy, life);
    } else {
      CreatedIsAsked(create, life);
      SecondRoundSetsUp(destroy, AskedLife(life));
      DestroyIsReachable(create, destroy, life);
      RoundsGrow(destroy, 2, |destroy.cs|);
    }
  }

  /** The label comes after some rounds of the destroy, but before the phase is deleted, and no pass has seen it. */
  ghost predicate LabelsLate(create: SmoothRounds, destroy: SmoothRounds, again: SmoothRounds, life: Life,
      text: string) {
    && Destroys(create, destroy, life) && again.spec == life.spec
    && var w := destroy.ws[|destroy.cs|];
    && (w.resource.Some? ==> w.resource.value.status.retryReason != Some(text))
    && again.ws[0] == EnvNext(w, EditResource(SetChangeCause(Some(text))))
    && |again.cs| == 1 + 3 * |WalkFrom(RetryTask(text), again.spec)| + 2
  }

  /** When the label is taken in, the objects of the generation are there, or it makes them. */
  predicate LabelSetsUp(destroy: Rounds, text: string) { 2 <= |destroy.cs| || SetsUp(ReasonOfLabel(text)) }

  lemma LabelGoesBack(create: SmoothRounds, destroy: SmoothRounds, again: SmoothRounds, life: Life, text: string)
    requires LabelsLate(create, destroy, again, life, text) && LabelSetsUp(destroy, text)
    ensures IsLetGo(again, 2)
  {
    DestroyIsUnderWay(create, destroy, life);
    DestroyIsReachable(create, destroy, life);
    DestroySetsUp(create, destroy, life);
    var w, asked := destroy.ws[|destroy.cs|], AskedLife(life);
    LabelSendsBack(w, asked, text);
    EnvIsReachable(w, EditResource(SetChangeCause(Some(text))));
    ReachableIsWellStaged(again.ws[0]);
    BackLetsGo(again, asked, text);
  }

  lemma BackLetsGo(again: SmoothRounds, life: Life, text: string)
    requires life.spec == again.spec && life.deleting && Lists.Count(life.finalizers, TF_FINALIZER) == 1
    requires WellStagedWorld(again.ws[0]) && IsRetried(again.ws[0], life.(create := true), RetryTask(text))
    requires |again.cs| == 1 + 3 * |WalkFrom(RetryTask(text), again.spec)| + 2
    ensures IsLetGo(again, life.generation)
  {
    BackIsDoomed(RetryTask(text), life);
    var first := BackStep(again, life.(create := true), RetryTask(text));
    JourneyLetsGo(again, BackJourney(RetryTask(text), life), first);
  }

  /** A label that comes too soon is taken in by the next pass. */
  lemma LabelIsTaken(w: World, life: Life, text: string, c: Choice)
    requires IsDestroying(w, life) && w.resource.value.status.retryReason != Some(text) && Smooth(c, life.spec)
    requires !SetsUp(ReasonOfLabel(text)) && life.generation !in w.provisioned
    ensures TakesLabelTooSoon(EnvNext(w, EditResource(SetChangeCause(Some(text)))), c)
  {
    assert w.resource.value.finalizers != [];
  }

  lemma LabelledGetsStuck(w: World, c: Choice)
    requires Reachable(w) && TakesLabelTooSoon(w, c)
    ensures Stuck(Round(w, c)) && Round(w, c).resource.value.spec == w.resource.value.spec
    ensures Round(w, c).resource.value.generation == w.resource.value.generation
    ensures Round(w, c).resource.value.deletionRequested == w.resource.value.deletionRequested
  {
    ReachableIsWellStaged(w);
    PodsAreProvided(w);
    if !Stuck(w) {
      GetsStuckIff(w, c);
    } else {
      var events := StuckEnters(w, c);
    }
    var stage, cause := EnteringFacts(w, c);
  }

  lemma LabelRoundSticks(w: World, life: Life, text: string, c: Choice)
    requires Reachable(w) && IsDestroying(w, life) && w.resource.value.status.retryReason != Some(text)
    requires !SetsUp(ReasonOfLabel(text)) && life.generation !in w.provisioned && Smooth(c, life.spec)
    ensures var v := Round(EnvNext(w, EditResource(SetChangeCause(Some(text)))), c);
      && Stuck(v) && v.resource.value.generation == life.generation && !v.resource.value.spec.ignoreDelete
      && v.resource.value.deletionRequested
  {
    LabelIsTaken(w, life, text, c);
    EnvIsReachable(w, EditResource(SetChangeCause(Some(text))));
    LabelledGetsStuck(EnvNext(w, EditResource(SetChangeCause(Some(text)))), c);
  }

  lemma AgainIsReachable(create: SmoothRounds, destroy: SmoothRounds, again: SmoothRounds, life: Life, text: string,
      k: nat)
    requires LabelsLate(create, destroy, again, life, text) && k <= |again.cs|
    ensures Reachable(again.ws[0]) && Reachable(again.ws[k])
  {
    DestroyIsReachable(create, destroy, life);
    EnvIsReachable(destroy.ws[|destroy.cs|], EditResource(SetChangeCause(Some(text))));
    RoundsAreReachable(again, k);
  }

  lemma LabelSticks(create: SmoothRounds, destroy: SmoothRounds, again: SmoothRounds, life: Life, text: string)
    requires LabelsLate(create, destroy, again, life, text) && !LabelSetsUp(destroy, text)
    ensures Stuck(again.ws[1]) && Reachable(again.ws[1])
    ensures again.ws[1].resource.value.generation == 2 && !again.ws[1].resource.value.spec.ignoreDelete
    ensures again.ws[1].resource.value.deletionRequested
  {
    var w := destroy.ws[|destroy.cs|];
    DestroyIsUnderWay(create, destroy, life);
    DestroyIsReachable(create, destroy, life);
    DestroySetsUp(create, destroy, life);
    assert IsRound(again, 0);
    LabelRoundSticks(w, AskedLife(life), text, again.cs[0]);
    AgainIsReachable(create, destroy, again, life, text, 1);
  }

  lemma NoDrop(w: World, w': World, events: seq<Event>)
    requires w'.trail == w.trail + events && NothingEnds(events)
    ensures !Drops(w, w')
  {
    var drop := [FinalizerDropped];
    assert (w.trail + events)[|w.trail|..] == events && (w.trail + drop)[|w.trail|..] == drop;
    assert FinalizerDropped in drop;
  }

  lemma StuckRound(w: World, c: Choice)
    requires Provided(w) && Stuck(w) && !w.resource.value.spec.ignoreDelete
    ensures StillStuck(w, Round(w, c)) && !Drops(w, Round(w, c))
  {
    var events := PassStaysStuck(w, c);
    NoDrop(w, Round(w, c), events);
  }

  lemma GoneRound(w: World, c: Choice)
    requires w.resource.None?
    ensures Round(w, c).resource.None? && !Drops(w, Round(w, c))
  {
  }

  lemma StillStuckRound(w: World, v: World, c: Choice)
    requires w.resource.Some? && !w.resource.value.spec.ignoreDelete && StillStuck(w, v) && Reachable(v)
    ensures StillStuck(w, Round(v, c)) && !Drops(v, Round(v, c))
  {
    if v.resource.Some? {
      PodsAreProvided(v);
      StuckRound(v, c);
      StillStuckOn(w, v, Round(v, c));
    } else {
      GoneRound(v, c);
    }
  }

  lemma StuckStep(w: World, rs: SmoothRounds, k: nat)
    requires w.resource.Some? && !w.resource.value.spec.ignoreDelete && k < |rs.cs|
    requires StillStuck(w, rs.ws[k]) && Reachable(rs.ws[k])
    ensures StillStuck(w, rs.ws[k + 1]) && !Drops(rs.ws[k], rs.ws[k + 1])
  {
    assert IsRound(rs, k);
    StillStuckRound(w, rs.ws[k], rs.cs[k]);
  }

  lemma {:induction false} StuckRounds(w: World, rs: SmoothRounds, i: nat, k: nat)
    requires w.resource.Some? && !w.resource.value.spec.ignoreDelete && i <= k <= |rs.cs|
    requires StillStuck(w, rs.ws[i]) && Reachable(rs.ws[0])
    ensures StillStuck(w, rs.ws[k])
    decreases k
  {
    if i < k {
      StuckRounds(w, rs, i, k - 1);
      RoundsAreReachable(rs, k - 1);
      StuckStep(w, rs, k - 1);
    }
  }

  lemma LetGoDrops(rs: SmoothRounds, generation: nat)
    requires IsLetGo(rs, generation)
    ensures Drops(rs.ws[|rs.cs| - 1], rs.ws[|rs.cs|])
  {
  }

  lemma StuckRoundsKeep(rs: SmoothRounds, i: nat, k: nat)
    requires i <= k < |rs.cs| && Reachable(rs.ws[0]) && Stuck(rs.ws[i]) && !rs.ws[i].resource.value.spec.ignoreDelete
    ensures !Drops(rs.ws[k], rs.ws[k + 1])
  {
    StuckRounds(rs.ws[i], rs, i, k);
    RoundsAreReachable(rs, k);
    StuckStep(rs.ws[i], rs, k);
  }

  lemma StuckIsNotLetGo(rs: SmoothRounds, i: nat, generation: nat)
    requires i < |rs.cs| && Reachable(rs.ws[0]) && Stuck(rs.ws[i]) && !rs.ws[i].resource.value.spec.ignoreDelete
    ensures !IsLetGo(rs, generation)
  {
    StuckRoundsKeep(rs, i, |rs.cs| - 1);
    if IsLetGo(rs, generation) {
      LetGoDrops(rs, generation);
    }
  }

  lemma LabelHoldsOn(create: SmoothRounds, destroy: SmoothRounds, again: SmoothRounds, life: Life, text: string)
    requires LabelsLate(create, destroy, again, life, text) && !LabelSetsUp(destroy, text)
    ensures !IsLetGo(again, 2)
  {
    LabelSticks(create, destroy, again, life, text);
    AgainIsReachable(create, destroy, again, life, text, 1);
    StuckIsNotLetGo(again, 1, 2);
  }

  /** A resource that is created and completed, asked to be deleted, and given a new change-cause label while any stage
      of its destroy is current, is let go if and only if the objects of the generation were made before, which is from
      the second pass of the destroy on, or the label spells a reason to make them: it runs its create chain from init
      or setup again, in the generation that was to destroy it, and its finalizer is dropped 3n + 3 rounds after the
      label, n tasks being configured from there on, when the apply has completed once more and no delete task was
      entered after the label. */
  lemma SentBackIff(create: SmoothRounds, destroy: SmoothRounds, again: SmoothRounds, life: Life, text: string)
    requires LabelsLate(create, destroy, again, life, text)
    ensures IsLetGo(again, 2) <==> LabelSetsUp(destroy, text)
    ensures Reachable(again.ws[|again.cs|])
  {
    AgainIsReachable(create, destroy, again, life, text, |again.cs|);
    if LabelSetsUp(destroy, text) {
      LabelGoesBack(create, destroy, again, life, text);
    } else {
      LabelHoldsOn(create, destroy, again, life, text);
    }
  }

  /** Otherwise it is stuck once a pass has taken the label in: whatever happens then, unless its spec is edited or a
      label is set that spells a reason to set up, no pod is made for its generation and no pass drops its finalizer. */
  lemma SentTooSoonIsStuck(create: SmoothRounds, destroy: SmoothRounds, again: SmoothRounds, life: Life, text: string,
      steps: seq<Step>) returns (events: seq<Event>)
    requires LabelsLate(create, destroy, again, life, text) && !LabelSetsUp(destroy, text)
             && Unhelped(again.ws[1], steps)
    ensures var v := Run(again.ws[1], steps);
      && v.trail == again.ws[1].trail + events && NothingEnds(events)
      && (v.resource.Some? ==> Stuck(v) && forall p :: p in v.pods ==> p.generation != 2)
  {
    LabelSticks(create, destroy, again, life, text);
    events := StaysStuck(again.ws[1], steps);
  }

  // ---------------------------------------------------------------------------------------------
  // An example

  /** Any number of rounds can be made from any state. */
  lemma {:induction false} RoundsExist(w: World, c: Choice, spec: Spec, n: nat) returns (rs: SmoothRounds)
    requires Smooth(c, spec)
    ensures rs.ws[0] == w && |rs.cs| == n && rs.spec == spec
  {
    if n == 0 {
      rs := Rounds([w], [], spec);
    } else {
      var before := RoundsExist(w, c, spec, n - 1);
      var more := Rounds(before.ws + [Round(before.ws[n - 1], c)], before.cs + [c], spec);
      forall i | 0 <= i < |more.cs| ensures IsRound(more, i) {
        assert i < n - 1 ==> IsRound(before, i);
      }
      rs := more;
    }
  }

  /** Whatever the new resource is, its deletion can be asked for so early that it is let go. */
  lemma CanBeLetGo(w: World, life: Life, c: Choice) returns (after: SmoothRounds)
    requires Fresh(w, life) && Smooth(c, life.spec)
    ensures IsLetGo(after, 2) && Reachable(after.ws[|after.cs|]) && DeletionSafety.NoDestroy(after.ws[|after.cs|].trail)
  {
    var before := RoundsExist(w, c, life.spec, 1);
    var asked := EnvNext(before.ws[1], EditResource(RequestDelete));
    after := RoundsExist(asked, c, life.spec, 2 + 3 * |WalkFrom(RunSetup, life.spec)| + 2);
    AskedTooEarly(before, after, life);
  }

  lemma LetGoMeaning(rs: SmoothRounds, generation: nat)
    requires IsLetGo(rs, generation)
    ensures var v := rs.ws[|rs.cs|];
      && !HoldsFinalizer(v) && FinalizerDropped in v.trail
      && exists e :: e in v.trail && Completes(e, generation, RunApply)
  {
    var v := rs.ws[|rs.cs|];
    var events :| AppliedOnly(rs.ws[0].trail, v.trail, events, generation);
    assert v.trail[|v.trail| - 1] == FinalizerDropped;
  }

  /** Whatever the new resource is, it can be brought to any point of its destroy. */
  lemma CanBeDestroying(w: World, life: Life, c: Choice, k: nat) returns (create: SmoothRounds, destroy: SmoothRounds)
    requires Fresh(w, life) && Smooth(c, life.spec) && 1 <= k <= DeleteTotal(life.spec) - 2
    ensures Destroys(create, destroy, life) && |destroy.cs| == k
  {
    create := RoundsExist(w, c, life.spec, CreateTotal(life.spec));
    destroy := RoundsExist(EnvNext(create.ws[|create.cs|], EditResource(RequestDelete)), c, life.spec, k);
  }

  /** A label that no pass has seen. */
  function NewLabel(w: World): (text: string)
    ensures w.resource.Some? ==> w.resource.value.status.retryReason != Some(text)
    ensures !SetsUp(ReasonOfLabel(text))
  {
    if w.resource.Some? && w.resource.value.status.retryReason == Some("again") then "once more" else "again"
  }

  /** And be given a plain label there. */
  lemma CanBeLabelled(create: SmoothRounds, destroy: SmoothRounds, life: Life, c: Choice) returns (again: SmoothRounds)
    requires Destroys(create, destroy, life) && Smooth(c, life.spec)
    ensures LabelsLate(create, destroy, again, life, NewLabel(destroy.ws[|destroy.cs|]))
  {
    var w := destroy.ws[|destroy.cs|];
    var text := NewLabel(w);
    again := RoundsExist(EnvNext(w, EditResource(SetChangeCause(Some(text)))), c, life.spec,
                         1 + 3 * |WalkFrom(RetryTask(text), life.spec)| + 2);
  }

  const SMOOTH_CHOICE := Choice(true, true, true, true, true, true, true, true, true, true, [], {}, "example", [])

  const NEW_WORLD := World(Some(Resource(1, false, None, [], NO_SPEC, NO_STATUS)), [], {}, Instant(0, false), 0, [])

  lemma ExampleIsFresh()
    ensures Fresh(NEW_WORLD, Life(NO_SPEC, 1, false, true, [TF_FINALIZER])) && Smooth(SMOOTH_CHOICE, NO_SPEC)
  {
    assert NEW_WORLD.resource.value.finalizers + [TF_FINALIZER] == [TF_FINALIZER];
  }

  /** From a newly created resource a state can be reached in which the apply completed, the finalizer was dropped and
      no delete task was ever entered. */
  lemma ExampleIsLetGo() returns (v: World)
    ensures Reachable(v) && !HoldsFinalizer(v)
    ensures (exists e :: e in v.trail && Completes(e, 2, RunApply))
    ensures FinalizerDropped in v.trail && DeletionSafety.NoDestroy(v.trail)
  {
    ExampleIsFresh();
    var rs := CanBeLetGo(NEW_WORLD, Life(NO_SPEC, 1, false, true, [TF_FINALIZER]), SMOOTH_CHOICE);
    LetGoMeaning(rs, 2);
    v := rs.ws[|rs.cs|];
  }

  /** And one in which a resource to be deleted is stuck. */
  lemma ExampleIsStuck() returns (v: World)
    ensures Reachable(v) && Stuck(v) && v.resource.value.deletionRequested
  {
    ExampleIsFresh();
    var life := Life(NO_SPEC, 1, false, true, [TF_FINALIZER]);
    var create, destroy := CanBeDestroying(NEW_WORLD, life, SMOOTH_CHOICE, 1);
    var again := CanBeLabelled(create, destroy, life, SMOOTH_CHOICE);
    LabelSticks(create, destroy, again, life, NewLabel(destroy.ws[1]));
    v := again.ws[1];
  }
}
