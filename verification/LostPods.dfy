/** A pod that is deleted while its stage is in progress: the stage is taken back, and a new pod is made for it. */
module LostPods {
  import opened Wrappers
  import opened Tasks
  import opened Workflow
  import opened WorkflowFacts
  import opened Progress
  import opened Entries
  import Lists

  // ---------------------------------------------------------------------------------------------
  // One pass

  /** The pod is for the stage, and not from before the time. */
  predicate IsPodOf(s: Status, p: Pod, since: Option<Instant>) {
    && p.generateName.prefix == s.prefix && p.generateName.generation == s.stage.generation
    && p.generateName.task == s.stage.task && p.generation == s.stage.generation
    && match since
       case None => true
       case Some(t) => p.created > t.second || (p.created == t.second && !t.late)
  }

  /** The time of the last retry, which is now if the pass takes in a label. */
  function RetryTime(w: World): Option<Instant>
    requires w.resource.Some?
  {
    if LabelPends(w.resource.value) then Some(w.clock) else w.resource.value.status.retryTimestamp
  }

  /** No pod is there for the stage. */
  ghost predicate PodIsLost(w: World)
    requires w.resource.Some?
  {
    forall p :: p in w.pods ==> !IsPodOf(w.resource.value.status, p, RetryTime(w))
  }

  /** The step stores the stage as waiting for its pod again, and enters none. */
  ghost predicate TakesBack(w: World, w': World) {
    && w.resource.Some? && w'.resource.Some? && w'.trail == w.trail
    && w'.resource.value.status.stage == w.resource.value.status.stage.(state := StateInitializing)
  }

  /** The pass neither enters another stage nor stops before it looks for the pod. */
  ghost predicate LooksForPod(w: World, c: Choice) {
    && ComesThrough(w, c) && c.listOk
    && var r := w.resource.value;
    if r.status.stage.generation == r.generation then !LabelPends(r) else !r.status.stage.interruptible
  }

  lemma LostIff(w: World, s: Status)
    requires w.resource.Some? && s.stage == w.resource.value.status.stage && s.prefix == w.resource.value.status.prefix
    requires s.retryTimestamp == RetryTime(w)
    ensures Lookup(w.pods, s) == [] <==> PodIsLost(w)
  {
    LookupMeaning(w.pods, s);
    if !PodIsLost(w) {
      var p :| p in w.pods && IsPodOf(w.resource.value.status, p, RetryTime(w));
      assert p in Lookup(w.pods, s);
    }
    if Lookup(w.pods, s) != [] {
      assert Lookup(w.pods, s)[0] in Lookup(w.pods, s);
    }
  }

  lemma DecidesToLook(w: World, c: Choice)
    requires w.resource.Some? && w.resource.value.status.stage.state == StateInProgress
    ensures KindOf(w, c) == Working && c.listOk <==> LooksForPod(w, c)
  {
    ComesThroughIff(w, c);
    NoticedKeeps(w.resource.value, w.clock);
  }

  lemma WorkTakesBackIff(w: World, c: Choice)
    requires WellStagedWorld(w) && w.resource.Some? && w.resource.value.status.stage.state == StateInProgress
    requires KindOf(w, c) == Working
    ensures TakesBack(w, Pass(w, c)) <==> c.listOk && PodIsLost(w) && c.WriteOk(0)
    ensures TakesBack(w, Pass(w, c)) ==> OnlyStageChanges(w, Pass(w, c))
  {
    var r := w.resource.value;
    var s := Noticed(r, w.clock);
    NoticedKeeps(r, w.clock);
    LostIff(w, s);
    var t, events := WorkingPass(w, c);
    if Lookup(w.pods, s) == [] {
      WorkOnLost(w, r, s, c);
    } else {
      WorkOnFound(w, r, s, c);
    }
  }

  lemma WorkOnLost(w: World, r: Resource, s: Status, c: Choice)
    requires w.resource == Some(r) && s.stage == r.status.stage && s.stage.state == StateInProgress
    requires s.stage.task != RunNil && Lookup(w.pods, s) == []
    requires s.pluginsStarted == r.status.pluginsStarted && s.prefix == r.status.prefix
    requires !LabelPends(r) ==> s.retryReason == r.status.retryReason
    ensures TakesBack(w, Work(w, r, s, c)) <==> c.listOk && c.WriteOk(0)
    ensures TakesBack(w, Work(w, r, s, c)) ==> OnlyStageChanges(w, Work(w, r, s, c))
  {
    assert w.trail + [] == w.trail;
  }

  lemma WorkOnFound(w: World, r: Resource, s: Status, c: Choice)
    requires w.resource == Some(r) && s.stage == r.status.stage && s.stage.state == StateInProgress
    requires Lookup(w.pods, s) != []
    ensures !TakesBack(w, Work(w, r, s, c))
  {
  }

  /** All but the stage's state, and what the pass noticed, is as it was. */
  ghost predicate OnlyStageChanges(w: World, w': World) {
    && w.resource.Some? && w'.resource.Some?
    && w'.pods == w.pods && w'.provisioned == w.provisioned && w'.nextPod == w.nextPod
    && var s, s' := w.resource.value.status, w'.resource.value.status;
    && s'.pluginsStarted == s.pluginsStarted && s'.prefix == s.prefix
    && (!LabelPends(w.resource.value) ==> s'.retryReason == s.retryReason)
  }

  lemma OthersTakeNothingBack(w: World, c: Choice)
    requires WellStagedWorld(w) && w.resource.Some? && w.resource.value.status.stage.state == StateInProgress
    requires KindOf(w, c) != Working
    ensures !TakesBack(w, Pass(w, c))
  {
    var kind := KindOf(w, c);
    if kind.Entering? {
      EnteringOutcome(w, c);
    } else if kind == Finalizers {
      var f := FinalizerPass(w, c);
    }
  }

  /** In every reachable state with a stage in progress a pass takes the stage back if and only if it gets to look for
      the stage's pod, none is there that was made for the stage's name, generation and task since the last retry, and
      the write is stored. Pods, plugins and trail are then left as they are. */
  lemma LostPodIff(w: World, c: Choice)
    requires Reachable(w) && w.resource.Some? && w.resource.value.status.stage.state == StateInProgress
    ensures TakesBack(w, Pass(w, c)) <==> LooksForPod(w, c) && PodIsLost(w) && c.WriteOk(0)
    ensures TakesBack(w, Pass(w, c)) ==> OnlyStageChanges(w, Pass(w, c))
  {
    ReachableIsWellStaged(w);
    DecidesToLook(w, c);
    if KindOf(w, c) == Working {
      WorkTakesBackIff(w, c);
    } else {
      OthersTakeNothingBack(w, c);
    }
  }

  // ---------------------------------------------------------------------------------------------
  // Two rounds more

  /** The stage is in progress and its pod is gone. */
  ghost predicate IsLost(w: World, life: Life, t: TaskName) {
    && life.create == IsCreateTask(t) && Staged(w, life, t, StateInProgress) && Busy(w)
    && PodsBelow(w.pods, life.generation, t.Id()) && life.generation in w.provisioned
  }

  /** The pod of the current stage. */
  function StagePod(w: World): Pod
    requires w.resource.Some? && Lookup(w.pods, w.resource.value.status) != []
  {
    Lookup(w.pods, w.resource.value.status)[0]
  }

  /** What deleting the stage's pod makes of the state. */
  function WithoutStagePod(w: World): World
    requires w.resource.Some? && Lookup(w.pods, w.resource.value.status) != []
  {
    EnvNext(w, DeletePod(StagePod(w).name))
  }

  lemma {:induction false} WithoutPodNames(pods: seq<Pod>, name: nat)
    ensures forall p :: p in WithoutPod(pods, name) ==> p in pods && p.name != name
  {
    if pods != [] {
      WithoutPodNames(pods[1..], name);
    }
  }

  lemma DeletingLoses(w: World, life: Life, t: TaskName)
    requires IsLaunched(w, life, t)
    ensures IsLost(WithoutStagePod(w), life, t)
  {
    WithoutPodNames(w.pods, StagePod(w).name);
  }

  lemma LostPass(w: World, c: Choice, life: Life, t: TaskName)
    requires IsLost(w, life, t) && IsWorkflowTask(t) && Smooth(c, life.spec)
    ensures var r := w.resource.value;
      Pass(w, c) == Save(w, r, r.status.(stage := r.status.stage.(state := StateInitializing)), [], c)
  {
    ManagedWorks(w, c, life);
    NoPodFound(w.pods, w.resource.value.status);
  }

  lemma LostSettles(w: World, w': World, life: Life, t: TaskName)
    requires IsLost(w, life, t) && IsWorkflowTask(t)
    requires var r := w.resource.value;
      w'.resource == Some(r.(status := Stored(r.status.(stage := r.status.stage.(state := StateInitializing)))))
    requires w'.pods == w.pods && w'.clock == w.clock && w'.provisioned == w.provisioned
    ensures IsReady(w'.(pods := SettlePods(w'.pods)), life, t)
  {
    PodsBelowStays(w.pods, life.generation, t.Id(), t.Id());
  }

  lemma LostRound(w: World, c: Choice, life: Life, t: TaskName)
    requires IsLost(w, life, t) && IsWorkflowTask(t) && Smooth(c, life.spec)
    ensures IsReady(Round(w, c), life, t) && Round(w, c).nextPod == w.nextPod
  {
    LostPass(w, c, life, t);
    LostSettles(w, Pass(w, c), life, t);
  }

  /** The pod that is new in `w'` is for the generation and the task. */
  ghost predicate MakesPodFor(w: World, w': World, generation: nat, t: TaskName) {
    exists p :: p in w'.pods && p.name == w.nextPod && p.generation == generation && p.generateName.task == t
  }

  lemma ReadyMakesPod(w: World, c: Choice, life: Life, t: TaskName)
    requires IsReady(w, life, t) && IsWorkflowTask(t) && Smooth(c, life.spec)
    ensures MakesPodFor(w, Round(w, c), life.generation, t)
  {
    var r := w.resource.value;
    LaunchPass(w, c, life, t);
    SmoothLaunch(w, r, r.status, c);
    var pods := SettlePods(w.pods + [NewPod(w, r, r.status)]);
    assert pods[|w.pods|] == NewPod(w, r, r.status).(phase := PodSucceeded) && pods[|w.pods|] in pods;
  }

  ghost predicate IsKept(holds: (nat, Position) -> bool, next: Position -> Position, i: nat, p: Position) {
    holds(i, p) ==> holds(i + 1, next(p))
  }

  predicate Follows(position: nat -> Position, next: Position -> Position, k: nat) {
    position(k + 1) == next(position(k))
  }

  /** What holds in a position after some rounds holds in the positions that follow after as many rounds more. */
  lemma {:induction false} MovesOn(holds: (nat, Position) -> bool, position: nat -> Position,
      next: Position -> Position, i: nat, k: nat, n: nat, total: nat)
    requires i + n <= total && holds(i, position(k)) && forall m: nat :: Follows(position, next, m)
    requires forall m: nat, p :: m < total ==> IsKept(holds, next, m, p)
    ensures holds(i + n, position(k + n))
    decreases n
  {
    if n > 0 {
      MovesOn(holds, position, next, i, k, n - 1, total);
      assert Follows(position, next, k + n - 1) && IsKept(holds, next, i + n - 1, position(k + n - 1));
    }
  }

  function NextOf(life: Life): Position -> Position {
    (p: Position) => NextPosition(p, Successor(life.spec), life)
  }

  function PositionsOf(j: Journey): nat -> Position {
    (k: nat) => PositionAfter(j, k)
  }

  lemma RoundKeeps(rs: SmoothRounds, life: Life, i: nat, p: Position)
    requires life.spec == rs.spec && i < |rs.cs|
    ensures IsKept(Holds(rs, life), NextOf(life), i, p)
  {
    if Holds(rs, life)(i, p) {
      StepHolds(rs, i, p, life);
    }
  }

  lemma JourneyFollows(j: Journey, k: nat)
    requires IsJourney(j)
    ensures Follows(PositionsOf(j), NextOf(j.life), k)
  {
    NextOnWay(j, Successor(j.life.spec), k);
  }

  lemma JourneyFollowsOn(j: Journey)
    requires IsJourney(j)
    ensures forall m: nat :: Follows(PositionsOf(j), NextOf(j.life), m)
  {
    forall m: nat ensures Follows(PositionsOf(j), NextOf(j.life), m) {
      JourneyFollows(j, m);
    }
  }

  lemma RoundsMoveOn(rs: SmoothRounds, life: Life, position: nat -> Position, i: nat, k: nat, i': nat, k': nat)
    requires i <= i' <= |rs.cs| && i' - i == k' - k && life.spec == rs.spec
    requires Holds(rs, life)(i, position(k)) && forall m: nat :: Follows(position, NextOf(life), m)
    ensures Holds(rs, life)(i', position(k'))
  {
    forall m: nat, p | m < |rs.cs| ensures IsKept(Holds(rs, life), NextOf(life), m, p) {
      RoundKeeps(rs, life, m, p);
    }
    MovesOn(Holds(rs, life), position, NextOf(life), i, k, i' - i, |rs.cs|);
  }

  lemma ResumesAt(rs: SmoothRounds, i: nat, k: nat, i': nat, k': nat, j: Journey)
    requires i <= i' <= |rs.cs| && i' - i == k' - k && j.life.spec == rs.spec && IsJourney(j)
    requires Holds(rs, j.life)(i, PositionAfter(j, k))
    ensures Holds(rs, j.life)(i', PositionAfter(j, k'))
  {
    JourneyFollowsOn(j);
    assert PositionsOf(j)(k) == PositionAfter(j, k) && PositionsOf(j)(k') == PositionAfter(j, k');
    RoundsMoveOn(rs, j.life, PositionsOf(j), i, k, i', k');
  }

  /** Of two rounds with the pod gone the first takes the stage back, and the second makes a new pod for it. */
  lemma TwoRounds(rs: SmoothRounds, life: Life, t: TaskName)
    requires life.spec == rs.spec && 2 <= |rs.cs| && IsLost(rs.ws[0], life, t) && IsWorkflowTask(t)
    ensures IsLaunched(rs.ws[2], life, t) && MakesPodFor(rs.ws[0], rs.ws[2], life.generation, t)
  {
    LostFirst(rs, life, t);
    ReadyLaunches(rs, 1, life, t);
    SamePods(rs.ws[0], rs.ws[1], rs.ws[2], life.generation, t);
  }

  lemma LostFirst(rs: SmoothRounds, life: Life, t: TaskName)
    requires life.spec == rs.spec && 1 <= |rs.cs| && IsLost(rs.ws[0], life, t) && IsWorkflowTask(t)
    ensures IsReady(rs.ws[1], life, t) && rs.ws[1].nextPod == rs.ws[0].nextPod
  {
    assert IsRound(rs, 0);
    LostRound(rs.ws[0], rs.cs[0], life, t);
  }

  lemma ReadyLaunches(rs: SmoothRounds, i: nat, life: Life, t: TaskName)
    requires i < |rs.cs| && life.spec == rs.spec && IsReady(rs.ws[i], life, t) && IsWorkflowTask(t)
    ensures IsLaunched(rs.ws[i + 1], life, t) && MakesPodFor(rs.ws[i], rs.ws[i + 1], life.generation, t)
  {
    assert IsRound(rs, i);
    LaunchRound(rs.ws[i], rs.cs[i], life, t);
    ReadyMakesPod(rs.ws[i], rs.cs[i], life, t);
  }

  lemma SamePods(w: World, v: World, v': World, generation: nat, t: TaskName)
    requires w.nextPod == v.nextPod && MakesPodFor(v, v', generation, t)
    ensures MakesPodFor(w, v', generation, t)
  {
  }

  lemma LaunchedIsAt(w: World, p: Position, life: Life)
    requires p.Launched? && IsLaunched(w, life, p.task) && IsWorkflowTask(p.task) && (life.deleting || life.create)
    ensures At(w, p, life)
  {
  }

  /** `before` brings a resource on its way through a chain to where a pod was made and succeeded, and `after` goes on
      from there, but with that pod deleted. */
  ghost predicate LosesPod(before: SmoothRounds, after: SmoothRounds, j: Journey) {
    && j.life.spec == before.spec == after.spec && IsJourney(j) && Holds(before, j.life)(0, PositionAfter(j, 0))
    && PositionAfter(j, |before.cs|).Launched?
    && var w := before.ws[|before.cs|];
    && w.resource.Some? && Lookup(w.pods, w.resource.value.status) != [] && after.ws[0] == WithoutStagePod(w)
  }

  lemma LaunchedIsLost(before: SmoothRounds, after: SmoothRounds, j: Journey)
    requires LosesPod(before, after, j)
    ensures var t := PositionAfter(j, |before.cs|).task; IsLost(after.ws[0], j.life, t) && IsWorkflowTask(t)
    ensures j.life.deleting || j.life.create
    ensures after.ws[0].nextPod == before.ws[|before.cs|].nextPod
  {
    PositionReached(before, |before.cs|, j);
    DeletingLoses(before.ws[|before.cs|], j.life, PositionAfter(j, |before.cs|).task);
  }

  /** The second round after the loss makes a new pod for the generation and the task, and the resource is where it was
      before the loss. */
  lemma LostPodIsMadeAgain(before: SmoothRounds, after: SmoothRounds, j: Journey)
    requires LosesPod(before, after, j) && 2 <= |after.cs|
    ensures Holds(after, j.life)(2, PositionAfter(j, |before.cs|))
    ensures MakesPodFor(before.ws[|before.cs|], after.ws[2], j.life.generation, PositionAfter(j, |before.cs|).task)
  {
    var p := PositionAfter(j, |before.cs|);
    LaunchedIsLost(before, after, j);
    TwoRounds(after, j.life, p.task);
    SamePods(before.ws[|before.cs|], after.ws[0], after.ws[2], j.life.generation, p.task);
    LaunchedIsAt(after.ws[2], p, j.life);
  }

  /** Losing the pod costs exactly two rounds, whatever the chain: after m rounds more the resource is where it would
      have been after m - 2. */
  lemma LostPodCostsTwo(before: SmoothRounds, after: SmoothRounds, j: Journey, m: nat, k: nat)
    requires LosesPod(before, after, j) && 2 <= m <= |after.cs| && k + 2 == |before.cs| + m
    ensures Holds(after, j.life)(m, PositionAfter(j, k))
  {
    LostPodIsMadeAgain(before, after, j);
    ResumesAt(after, 2, |before.cs|, m, k, j);
  }

  // ---------------------------------------------------------------------------------------------
  // Whole chains

  lemma LostIsNotCompleted(w: World, life: Life, t: TaskName)
    requires IsLost(w, life, t) || (IsReady(w, life, t) && IsWorkflowTask(t))
    ensures !IsCompleted(w)
    ensures HoldsFinalizer(w)
  {
  }

  lemma SoonAfterLoss(before: SmoothRounds, after: SmoothRounds, j: Journey, m: nat)
    requires LosesPod(before, after, j) && m < 2 && m <= |after.cs|
    ensures !IsCompleted(after.ws[m]) && HoldsFinalizer(after.ws[m])
  {
    var t := PositionAfter(j, |before.cs|).task;
    LaunchedIsLost(before, after, j);
    LostIsNotCompleted(after.ws[0], j.life, t);
    if m == 1 {
      LostFirst(after, j.life, t);
      LostIsNotCompleted(after.ws[1], j.life, t);
    }
  }

  lemma LaunchedBeforeEnd(before: SmoothRounds, after: SmoothRounds, j: Journey)
    requires LosesPod(before, after, j) && forall i :: 0 <= i < |j.start| ==> !j.start[i].Launched?
    ensures |before.cs| < j.Walked()
  {
  }

  lemma CompletedAt(rs: SmoothRounds, j: Journey, i: nat, k: nat)
    requires !j.life.deleting && j.start == [NoFinalizer, NoPrefix, NoStage]
    requires Holds(rs, j.life)(i, PositionAfter(j, k))
    ensures i < |rs.ws| && (IsCompleted(rs.ws[i]) <==> k > j.Walked())
  {
    AtCompleted(rs.ws[i], j, k);
  }

  lemma CompletedLater(before: SmoothRounds, after: SmoothRounds, j: Journey, m: nat)
    requires LosesPod(before, after, j) && !j.life.deleting && j.start == [NoFinalizer, NoPrefix, NoStage]
    requires 2 <= m <= |after.cs|
    ensures IsCompleted(after.ws[m]) <==> |before.cs| + m - 2 > j.Walked()
  {
    var k := |before.cs| + m - 2;
    LostPodCostsTwo(before, after, j, m, k);
    CompletedAt(after, j, m, k);
  }

  lemma CompletedAfterLoss(before: SmoothRounds, after: SmoothRounds, j: Journey, m: nat)
    requires LosesPod(before, after, j) && !j.life.deleting && j.start == [NoFinalizer, NoPrefix, NoStage]
    requires m <= |after.cs|
    ensures IsCompleted(after.ws[m]) <==> |before.cs| + m > j.Walked() + 2
  {
    LaunchedBeforeEnd(before, after, j);
    if m < 2 {
      SoonAfterLoss(before, after, j, m);
    } else {
      CompletedLater(before, after, j, m);
    }
  }

  lemma KeepsFinalizerAt(rs: SmoothRounds, j: Journey, i: nat, k: nat)
    requires j.life.deleting && Dropped !in j.start && Lists.Count(j.life.finalizers, TF_FINALIZER) == 1
    requires Holds(rs, j.life)(i, PositionAfter(j, k)) && k <= j.Walked() + 1
    ensures i < |rs.ws| && HoldsFinalizer(rs.ws[i])
  {
    DroppedLast(j, k);
    assert TF_FINALIZER in multiset(j.life.finalizers);
    AtHoldsFinalizer(rs.ws[i], PositionAfter(j, k), j.life);
  }

  lemma DropsAt(rs: SmoothRounds, j: Journey, i: nat, k: nat)
    requires j.life.deleting && Dropped !in j.start && Lists.Count(j.life.finalizers, TF_FINALIZER) == 1
    requires Holds(rs, j.life)(i, PositionAfter(j, k)) && k == j.Walked() + 1 && i < |rs.cs|
    ensures Drops(rs.ws[i], rs.ws[i + 1])
  {
    DroppedLast(j, k);
    DropStep(rs, i);
  }

  lemma KeepsLonger(before: SmoothRounds, after: SmoothRounds, j: Journey, m: nat)
    requires LosesPod(before, after, j) && j.life.deleting && Dropped !in j.start
    requires Lists.Count(j.life.finalizers, TF_FINALIZER) == 1
    requires 2 <= m <= |after.cs| && |before.cs| + m - 2 <= j.Walked() + 1
    ensures HoldsFinalizer(after.ws[m])
  {
    var k := |before.cs| + m - 2;
    LostPodCostsTwo(before, after, j, m, k);
    KeepsFinalizerAt(after, j, m, k);
  }

  lemma DropsLater(before: SmoothRounds, after: SmoothRounds, j: Journey, m: nat)
    requires LosesPod(before, after, j) && j.life.deleting && Dropped !in j.start
    requires Lists.Count(j.life.finalizers, TF_FINALIZER) == 1
    requires 2 < m <= |after.cs| && |before.cs| + m - 2 == j.Walked() + 2
    ensures Drops(after.ws[m - 1], after.ws[m])
  {
    var k := |before.cs| + m - 3;
    LostPodCostsTwo(before, after, j, m - 1, k);
    DropsAt(after, j, m - 1, k);
  }

  lemma DroppedAfterLoss(before: SmoothRounds, after: SmoothRounds, j: Journey, m: nat)
    requires LosesPod(before, after, j) && j.life.deleting
    requires forall i :: 0 <= i < |j.start| ==> !j.start[i].Launched? && !j.start[i].Dropped?
    requires m <= |after.cs| && Lists.Count(j.life.finalizers, TF_FINALIZER) == 1
    ensures |before.cs| + m <= j.Walked() + 3 ==> HoldsFinalizer(after.ws[m])
    ensures |before.cs| + m == j.Walked() + 4 ==> Drops(after.ws[m - 1], after.ws[m])
  {
    LaunchedBeforeEnd(before, after, j);
    if m < 2 {
      SoonAfterLoss(before, after, j, m);
    } else if |before.cs| + m <= j.Walked() + 3 {
      KeepsLonger(before, after, j, m);
    } else if |before.cs| + m == j.Walked() + 4 {
      DropsLater(before, after, j, m);
    }
  }

  /** A fresh resource with n configured create tasks whose pod is deleted once, at any of its stages, is completed
      after exactly 3n + 4 + 2 rounds in all, before and after the loss. */
  lemma LostPodDelaysCreation(before: SmoothRounds, after: SmoothRounds, life: Life, m: nat)
    requires LosesPod(before, after, Creation(life)) && !life.deleting && m <= |after.cs|
    ensures IsCompleted(after.ws[m]) <==> |before.cs| + m >= CreateTotal(life.spec) + 2
  {
    CreationIsJourney(life);
    CompletedAfterLoss(before, after, Creation(life), m);
  }

  /** A resource with n configured delete tasks whose pod is deleted once on the way holds its finalizer for 3n + 3 + 1
      rounds in all and loses it in the next. */
  lemma LostPodDelaysDeletion(before: SmoothRounds, after: SmoothRounds, life: Life, m: nat)
    requires LosesPod(before, after, Destruction(life)) && life.deleting && !life.create && m <= |after.cs|
    requires Lists.Count(life.finalizers, TF_FINALIZER) == 1
    ensures |before.cs| + m < DeleteTotal(life.spec) + 2 ==> HoldsFinalizer(after.ws[m])
    ensures |before.cs| + m == DeleteTotal(life.spec) + 2 ==> Drops(after.ws[m - 1], after.ws[m])
  {
    DestructionIsJourney(life);
    DroppedAfterLoss(before, after, Destruction(life), m);
  }
}
