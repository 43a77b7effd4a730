/** How many passes a workflow takes when every call succeeds and every pod has succeeded by the next pass. */
module Progress {
  import opened Wrappers
  import opened Tasks
  import opened Workflow
  import opened WorkflowFacts
  import Lists

  /** Nothing fails in the pass. */
  ghost predicate Smooth(c: Choice, spec: Spec) {
    && c.readOk && c.secretsOk && c.updateOk && c.listOk && c.setupOk && c.podOk && c.approvalOk
    && (forall i: nat :: c.WriteOk(i))
    && forall p :: p in spec.plugins && spec.plugins[p].must ==> p in c.sidecarsBuilt
  }

  function SettlePods(pods: seq<Pod>): (settled: seq<Pod>)
    ensures |settled| == |pods|
    ensures forall i :: 0 <= i < |pods| ==> settled[i] == pods[i].(phase := PodSucceeded)
  {
    if pods == [] then [] else [pods[0].(phase := PodSucceeded)] + SettlePods(pods[1..])
  }

  /** A pass, after which every pod succeeds. */
  function Round(w: World, c: Choice): World {
    var w' := Pass(w, c);
    w'.(pods := SettlePods(w'.pods))
  }

  /** The states `ws` of as many rounds as there are choices, none of which fails anything. */
  datatype Rounds = Rounds(ws: seq<World>, cs: seq<Choice>, spec: Spec)

  ghost predicate IsRound(rs: Rounds, i: nat) {
    i < |rs.cs| && i + 1 < |rs.ws| && rs.ws[i + 1] == Round(rs.ws[i], rs.cs[i]) && Smooth(rs.cs[i], rs.spec)
  }

  const NO_SPEC := Spec(false, [], map[], false, false, false)
  const NO_WORLD := World(None, [], {}, Instant(0, false), 0, [])

  type SmoothRounds = rs: Rounds | |rs.ws| == |rs.cs| + 1 && forall i :: 0 <= i < |rs.cs| ==> IsRound(rs, i)
    ghost witness Rounds([NO_WORLD], [], NO_SPEC)

  // ---------------------------------------------------------------------------------------------
  // Positions

  /** How far a resource has come. At `Ready(t)` the stage for `t` was just entered, at `Launched(t)` its pod was
      made and has succeeded, at `Finished(t)` the stage is complete. At `Unnoticed(t)` the stage was just entered too,
      in the create chain, and no pass has noticed yet that the resource is to be deleted. */
  datatype Position =
    | NoFinalizer | NoPrefix | NoStage
    | Asked
    | Retried(task: TaskName)
    | Unnoticed(task: TaskName)
    | Ready(task: TaskName) | Launched(task: TaskName) | Finished(task: TaskName)
    | Resting | Deleted | Dropped

  /** What stays the same while a chain is walked: among others whether the resource is to be deleted, and whether the
      chain is the one that creates. */
  datatype Life = Life(spec: Spec, generation: nat, deleting: bool, create: bool, finalizers: seq<string>)

  /** The position in which a chain begins. */
  function First(t: TaskName, life: Life): Position {
    if life.deleting && life.create then Unnoticed(t) else Ready(t)
  }

  function NextPosition(p: Position, next: TaskName -> TaskName, life: Life): Position {
    match p
    case NoFinalizer => NoPrefix
    case NoPrefix => NoStage
    case NoStage => First(RunSetup, life)
    case Asked => Ready(RunSetupDelete)
    case Retried(t) => Unnoticed(t)
    case Unnoticed(t) => Launched(t)
    case Ready(t) => if t != RunNil then Launched(t) else if life.deleting then Deleted else Resting
    case Launched(t) => Finished(t)
    case Finished(t) => Ready(next(t))
    case Resting => Resting
    case Deleted => Dropped
    case Dropped => Dropped
  }

  /** The positions before a chain is entered, and the tasks of the chain. */
  datatype Journey = Journey(start: seq<Position>, walk: seq<TaskName>, life: Life)
  {
    /** After so many rounds the chain is walked. */
    function Walked(): nat { |start| + 3 * |walk| }
  }

  /** The position `k` rounds after the chain was entered. */
  function OnWalk(walk: seq<TaskName>, k: nat, life: Life): Position {
    if k < 3 * |walk| then
      if k == 0 then First(walk[0], life)
      else if k % 3 == 0 then Ready(walk[k / 3])
      else if k % 3 == 1 then Launched(walk[k / 3])
      else Finished(walk[k / 3])
    else if k == 3 * |walk| then Ready(RunNil)
    else if !life.deleting then Resting
    else if k == 3 * |walk| + 1 then Deleted
    else Dropped
  }

  function PositionAfter(j: Journey, k: nat): Position {
    if k < |j.start| then j.start[k] else OnWalk(j.walk, k - |j.start|, j.life)
  }

  function TaskAt(walk: seq<TaskName>, j: nat): TaskName { if j < |walk| then walk[j] else RunNil }

  ghost predicate IsStep(walk: seq<TaskName>, j: nat, next: TaskName -> TaskName) {
    j < |walk| && IsWorkflowTask(walk[j]) && next(walk[j]) == TaskAt(walk, j + 1)
  }

  ghost predicate IsWalk(walk: seq<TaskName>, first: TaskName, next: TaskName -> TaskName) {
    walk != [] && walk[0] == first && forall j :: 0 <= j < |walk| ==> IsStep(walk, j, next)
  }

  function Successor(spec: Spec): TaskName -> TaskName {
    (t: TaskName) => NextTask(t, ConfiguredTasks(spec.optionTasks))
  }

  lemma WalkCons(t: TaskName, rest: seq<TaskName>, next: TaskName -> TaskName)
    requires IsWorkflowTask(t)
    requires if next(t) == RunNil then rest == [] else IsWalk(rest, next(t), next)
    ensures IsWalk([t] + rest, t, next)
  {
    var walk := [t] + rest;
    forall j | 0 <= j < |walk| ensures IsStep(walk, j, next) {
      assert TaskAt(walk, j + 1) == TaskAt(rest, j);
      if j > 0 {
        assert walk[j] == rest[j - 1] && IsStep(rest, j - 1, next);
      }
    }
  }

  lemma {:induction false} WalkIsWalk(t: TaskName, spec: Spec)
    requires IsWorkflowTask(t)
    ensures IsWalk(Walk(t, ConfiguredTasks(spec.optionTasks)), t, Successor(spec))
    decreases Ahead(t)
  {
    var configured := ConfiguredTasks(spec.optionTasks);
    var u := NextTask(t, configured);
    NextTaskMeaning(t, configured);
    if u != RunNil {
      WalkIsWalk(u, spec);
    }
    WalkCons(t, Walk(u, configured), Successor(spec));
  }

  /** Each position leads to the next, and the last into the chain. */
  ghost predicate IsStart(start: seq<Position>, first: TaskName, next: TaskName -> TaskName, life: Life) {
    && start != []
    && (forall i :: 0 <= i < |start| - 1 ==> NextPosition(start[i], next, life) == start[i + 1])
    && NextPosition(start[|start| - 1], next, life) == First(first, life)
  }

  ghost predicate IsJourney(j: Journey) {
    && j.walk != [] && IsWalk(j.walk, j.walk[0], Successor(j.life.spec))
    && IsStart(j.start, j.walk[0], Successor(j.life.spec), j.life)
  }

  lemma NextOnWalk(walk: seq<TaskName>, next: TaskName -> TaskName, k: nat, life: Life)
    requires walk != [] && IsWalk(walk, walk[0], next)
    ensures NextPosition(OnWalk(walk, k, life), next, life) == OnWalk(walk, k + 1, life)
  {
    if k < 3 * |walk| {
      var j := k / 3;
      assert IsStep(walk, j, next) && walk[j] != RunNil;
    }
  }

  lemma NextOnWay(j: Journey, next: TaskName -> TaskName, k: nat)
    requires j.walk != [] && IsWalk(j.walk, j.walk[0], next) && IsStart(j.start, j.walk[0], next, j.life)
    ensures NextPosition(PositionAfter(j, k), next, j.life) == PositionAfter(j, k + 1)
  {
    if k >= |j.start| {
      NextOnWalk(j.walk, next, k - |j.start|, j.life);
    }
  }

  // ---------------------------------------------------------------------------------------------
  // What a position says of the world

  /** The task comes before `id` in its chain. While the create chain is walked, tasks of the other do not count. */
  predicate Earlier(t: TaskName, id: int) {
    if id > 100 then 100 < t.Id() < id else t.Id() < id || t.Id() > 100
  }

  /** No pod is of a later generation, and those of this generation are for tasks before `id`. */
  ghost predicate PodsBelow(pods: seq<Pod>, g: nat, id: int) {
    forall p :: p in pods ==> p.generation < g || (p.generation == g && Earlier(p.generateName.task, id))
  }

  /** The same of all pods but one. */
  ghost predicate OthersBelow(pods: seq<Pod>, g: nat, id: int, q: Pod) {
    forall p :: p in pods && p != q ==> p.generation < g || (p.generation == g && Earlier(p.generateName.task, id))
  }

  ghost predicate PodsOlder(pods: seq<Pod>, g: nat) {
    forall p :: p in pods ==> p.generation < g
  }

  /** An identifier past the tasks of the chain. */
  function End(life: Life): int { if life.create then 100 else 200 }

  /** A pod created now is not older than the last retry. */
  predicate RetryPast(status: Status, clock: Instant) {
    status.retryTimestamp.Some? ==>
      status.retryTimestamp.value.second <= clock.second && !status.retryTimestamp.value.late
  }

  /** The resource is in the hands of the stage machine: it has its finalizer and no retry is pending. */
  ghost predicate Managed(w: World, life: Life) {
    && w.resource.Some?
    && var r := w.resource.value;
    && r.spec == life.spec && !life.spec.ignoreDelete && r.finalizers == life.finalizers
       && TF_FINALIZER in life.finalizers
    && r.generation == life.generation != 0 && r.deletionRequested == life.deleting && !RetryPending(r)
    && RetryPast(r.status, w.clock)
  }

  ghost predicate Staged(w: World, life: Life, t: TaskName, state: StageState) {
    && Managed(w, life)
    && var s := w.resource.value.status;
    && s.prefix.Some? && s.stage.generation == life.generation && s.stage.task == t && s.stage.state == state
    && (if life.deleting then s.phase == PhaseInitDelete || s.phase == PhaseDeleting
        else s.phase == PhaseInitializing || s.phase == PhaseRunning)
  }

  predicate Busy(w: World) {
    w.resource.Some? && (w.resource.value.status.phase == PhaseRunning
      || w.resource.value.status.phase == PhaseDeleting)
  }

  /** Set-up finds or makes the objects of the generation. */
  ghost predicate CanSetUp(w: World, life: Life) {
    w.resource.Some? && (SetsUp(w.resource.value.status.stage.reason) || life.generation in w.provisioned)
  }

  ghost predicate IsReady(w: World, life: Life, t: TaskName) {
    && (t == RunNil || life.create == IsCreateTask(t))
    && Staged(w, life, t, if t == RunNil then StateComplete else StateInitializing)
    && if t == RunNil then Busy(w) && w.resource.value.status.stage.interruptible
       && PodsBelow(w.pods, life.generation, End(life))
       else PodsBelow(w.pods, life.generation, t.Id()) && CanSetUp(w, life)
  }

  /** A pass finds the stage's pod, and the pod has succeeded. It is the only one for this or a later task. */
  ghost predicate PodSucceededFor(w: World, life: Life, t: TaskName) {
    && w.resource.Some?
    && var found := Lookup(w.pods, w.resource.value.status);
       found != [] && found[0].phase == PodSucceeded && OthersBelow(w.pods, life.generation, t.Id(), found[0])
  }

  ghost predicate IsLaunched(w: World, life: Life, t: TaskName) {
    && life.create == IsCreateTask(t) && Staged(w, life, t, StateInProgress) && Busy(w) && PodSucceededFor(w, life, t)
    && PodsBelow(w.pods, life.generation, t.Id() + 1) && life.generation in w.provisioned
  }

  ghost predicate IsFinished(w: World, life: Life, t: TaskName) {
    && life.create == IsCreateTask(t) && Staged(w, life, t, StateComplete) && Busy(w)
    && PodsBelow(w.pods, life.generation, t.Id() + 1) && life.generation in w.provisioned
  }

  /** A resource as created, without deletion being ignored and without a label asking for a retry; its finalizer is
      still to come. */
  ghost predicate Fresh(w: World, life: Life) {
    && IsFresh(w)
    && var r := w.resource.value;
    && r.spec == life.spec && !r.spec.ignoreDelete && r.changeCause.None? && TF_FINALIZER !in r.finalizers
    && life == Life(r.spec, 1, false, true, r.finalizers + [TF_FINALIZER])
  }

  ghost predicate Prepared(w: World, life: Life, named: bool) {
    && Managed(w, life) && w.pods == [] && life.create
    && var s := w.resource.value.status;
    if named then s == NO_STATUS.(prefix := s.prefix, phase := PhaseInitializing) && s.prefix.Some? else s == NO_STATUS
  }

  /** Nothing is left to do. */
  ghost predicate AtRest(w: World, life: Life) {
    && Managed(w, life) && !life.deleting && life.create
    && w.pods == SettlePods(w.pods) && PodsBelow(w.pods, life.generation, End(life))
    && var s := w.resource.value.status;
    && s.prefix.Some? && s.phase == PhaseCompleted && s.stage.generation == life.generation
    && s.stage.task == RunNil && s.stage.state == StateComplete && s.stage.interruptible
  }

  /** Deletion was just asked for: the current stage is of an earlier generation and may be left. */
  ghost predicate IsAsked(w: World, life: Life) {
    && Managed(w, life) && life.deleting && !life.create
    && var s := w.resource.value.status;
    && !IsDeletePhase(s.phase) && s.prefix.Some? && s.stage.generation != 0 && s.stage.generation != life.generation
    && (s.stage.interruptible || s.stage.state != StateInProgress)
    && PodsOlder(w.pods, life.generation)
  }

  /** The task a label sends the resource back to. */
  function RetryTask(text: string): TaskName { if HasSetupSuffix(text) then RunSetup else RunInit }

  /** The resource is to be deleted, a label that no pass has seen asks for a retry, and no pod of this generation is
      for a task of the create chain. */
  ghost predicate IsRetried(w: World, life: Life, t: TaskName) {
    && w.resource.Some? && life.deleting && life.create
    && var r := w.resource.value;
    && r.spec == life.spec && !life.spec.ignoreDelete && r.finalizers == life.finalizers
       && TF_FINALIZER in life.finalizers
    && r.generation == life.generation != 0 && r.deletionRequested
    && RetryPending(r) && t == RetryTask(r.changeCause.value)
    && (SetsUp(ReasonOfLabel(r.changeCause.value)) || life.generation in w.provisioned)
    && r.status.prefix.Some? && r.status.phase != PhaseDeleted && r.status.stage.generation == life.generation
    && PodsBelow(w.pods, life.generation, t.Id())
  }

  ghost predicate IsUnnoticed(w: World, life: Life, t: TaskName) {
    && life.deleting && life.create && IsCreateTask(t) && Managed(w, life)
    && var s := w.resource.value.status;
    && s.phase == PhaseInitializing && s.prefix.Some?
    && s.stage.generation == life.generation && s.stage.task == t && s.stage.state == StateInitializing
    && PodsBelow(w.pods, life.generation, t.Id()) && CanSetUp(w, life)
  }

  ghost predicate IsDeleted(w: World, life: Life) {
    && w.resource.Some? && w.resource.value.status.phase == PhaseDeleted
       && w.resource.value.finalizers == life.finalizers
  }

  /** Nothing is said of a resource whose finalizer was dropped: with other finalizers left it lives on. */
  ghost predicate At(w: World, p: Position, life: Life) {
    match p
    case NoFinalizer => Fresh(w, life)
    case NoPrefix => Prepared(w, life, false)
    case NoStage => Prepared(w, life, true)
    case Asked => IsAsked(w, life)
    case Retried(t) => IsRetried(w, life, t)
    case Unnoticed(t) => IsUnnoticed(w, life, t)
    case Ready(t) => IsReady(w, life, t) && (IsWorkflowTask(t) || t == RunNil) && (life.deleting || life.create)
    case Launched(t) => IsLaunched(w, life, t) && IsWorkflowTask(t) && (life.deleting || life.create)
    case Finished(t) => IsFinished(w, life, t) && IsWorkflowTask(t) && (life.deleting || life.create)
    case Resting => AtRest(w, life)
    case Deleted => IsDeleted(w, life)
    case Dropped => true
  }

  // ---------------------------------------------------------------------------------------------
  // Passes in which nothing fails

  lemma {:induction false} ScanSmooth(order: seq<TaskName>, plugins: map<TaskName, Plugin>, started: seq<TaskName>,
      task: TaskName, built: set<TaskName>)
    requires forall p :: p in plugins && plugins[p].must ==> p in built
    ensures !ScanPlugins(order, plugins, started, task, built).aborted
  {
    if order != [] {
      ScanSmooth(order[1..], plugins, started, task, built);
    }
  }

  lemma {:induction false} AllStored(s: Status, contents: seq<Status>, base: Status, c: Choice, i: nat)
    requires contents != [] && forall k: nat :: c.WriteOk(k)
    requires forall k :: 0 <= k < |contents| ==> SameButPlugins(contents[k], base)
    ensures SameButPlugins(LastStored(s, contents, c, i), Stored(base))
    decreases contents
  {
    assert SameButPlugins(contents[0], base);
    assert forall k :: 0 <= k < |contents[1..]| ==> contents[1..][k] == contents[k + 1];
    LastStoredIsContent(Stored(contents[0]), contents[1..], base, c, i + 1);
  }

  lemma SmoothLaunch(w: World, r: Resource, s: Status, c: Choice)
    requires Smooth(c, r.spec) && HasObjects(w, r, s)
    ensures var w' := Launch(w, r, s, c);
      && LaunchStarts(w, r, s, c) && w'.resource.Some? && w'.resource.value.(status := r.status) == r
      && SameButPlugins(w'.resource.value.status, Stored(Started(s)))
      && w'.pods == w.pods + [NewPod(w, r, s)] && w'.clock == w.clock && r.generation in w'.provisioned
  {
    var scan := ScanPlugins(c.pluginOrder, r.spec.plugins, s.pluginsStarted, s.stage.task, c.sidecarsBuilt);
    ScanSmooth(c.pluginOrder, r.spec.plugins, s.pluginsStarted, s.stage.task, c.sidecarsBuilt);
    JobContentsSame(Started(s), Started(s), scan.deferred);
    AllStored(r.status, Contents(s, true, scan.deferred), Started(s), c, 0);
  }

  lemma {:induction false} LookupHas(pods: seq<Pod>, s: Status, p: Pod)
    requires p in pods && Matches(p, s) && Survives(p, s.retryTimestamp)
    ensures Lookup(pods, s) != [] && Lookup(pods, s)[0] in pods
  {
    if pods != [] {
      assert pods == [pods[0]] + pods[1..];
      if !(Matches(pods[0], s) && Survives(pods[0], s.retryTimestamp)) {
        LookupHas(pods[1..], s, p);
      }
    }
  }

  // ---------------------------------------------------------------------------------------------
  // One round from each position

  lemma PodsBelowStays(pods: seq<Pod>, g: nat, id: int, bound: int)
    requires PodsBelow(pods, g, id) && id <= bound && (id > 100 <==> bound > 100)
    ensures PodsBelow(SettlePods(pods), g, bound)
  {
    SettleKeeps(pods, (p: Pod) => p.generation < g || (p.generation == g && Earlier(p.generateName.task, bound)));
  }

  /** What holds of all pods whatever their phase holds of them once they succeeded. */
  lemma SettleKeeps(pods: seq<Pod>, holds: Pod -> bool)
    requires forall p :: p in pods ==> holds(p.(phase := PodSucceeded))
    ensures forall p :: p in SettlePods(pods) ==> holds(p)
  {
    forall p | p in SettlePods(pods) ensures holds(p) {
      var i :| 0 <= i < |pods| && SettlePods(pods)[i] == p;
      assert pods[i] in pods;
    }
  }

  lemma OlderIsBelow(pods: seq<Pod>, g: nat, id: int)
    requires PodsOlder(pods, g)
    ensures PodsBelow(SettlePods(pods), g, id)
  {
    SettleKeeps(pods, (p: Pod) => p.generation < g || (p.generation == g && Earlier(p.generateName.task, id)));
  }

  lemma ManagedWorks(w: World, c: Choice, life: Life)
    requires Managed(w, life) && Smooth(c, life.spec)
    requires var s := w.resource.value.status;
      s.prefix.Some? && s.stage.generation != 0 && s.phase != PhaseDeleted && (life.deleting ==> IsDeletePhase(s.phase))
    ensures var r := w.resource.value;
      Noticed(r, w.clock) == r.status && Pass(w, c) == Proceed(w, r, c)
  {
  }

  lemma FinalizerRound(w: World, c: Choice, life: Life)
    requires Fresh(w, life) && Smooth(c, life.spec)
    ensures Prepared(Round(w, c), life, false)
  {
  }

  lemma NameRound(w: World, c: Choice, life: Life)
    requires Prepared(w, life, false) && Smooth(c, life.spec)
    ensures Prepared(Round(w, c), life, true)
  {
  }

  lemma StageRound(w: World, c: Choice, life: Life)
    requires Prepared(w, life, true) && Smooth(c, life.spec)
    ensures if life.deleting then IsUnnoticed(Round(w, c), life, RunSetup) else IsReady(Round(w, c), life, RunSetup)
  {
  }

  /** The status once a retry of a resource to be deleted is noticed. */
  function RetriedStatus(r: Resource, clock: Instant): Status
    requires r.changeCause.Some?
  {
    var reason, t := ReasonOfLabel(r.changeCause.value), RetryTask(r.changeCause.value);
    var s := NoticeDeletion(r).(
      retryReason := r.changeCause, retryTimestamp := Some(clock), phase := PhaseInitializing);
    ResetFor(s, reason).(stage := NewStage(r.generation, t, reason, !Uninterruptible(t), StateInitializing))
  }

  lemma RetriedPass(w: World, c: Choice, life: Life, t: TaskName)
    requires IsRetried(w, life, t) && Smooth(c, life.spec)
    ensures var r := w.resource.value;
      && Pass(w, c).resource == Some(r.(status := Stored(RetriedStatus(r, w.clock)))) && Pass(w, c).clock == w.clock
         && Pass(w, c).provisioned == w.provisioned
      && forall p :: p in Pass(w, c).pods ==> p in w.pods
  {
    var r := w.resource.value;
    var s := Noticed(r, w.clock);
    OldPlanLeaves(w.pods, r.generation, s.stage.reason);
    var stage := RetriedStatus(r, w.clock).stage;
    assert CheckSetNewStage(r, s, true, w.pods, c) == Enter(stage, Retry);
    assert Pass(w, c) == EnterStage(w, r, s, stage, Retry, c);
  }

  lemma RetriedSettles(w: World, w': World, life: Life, t: TaskName)
    requires IsRetried(w, life, t)
    requires w'.resource == Some(w.resource.value.(status := Stored(RetriedStatus(w.resource.value, w.clock))))
    requires w'.clock == w.clock && w'.provisioned == w.provisioned && forall p :: p in w'.pods ==> p in w.pods
    ensures IsUnnoticed(w'.(pods := SettlePods(w'.pods)), life, t)
  {
    PodsBelowStays(w'.pods, life.generation, t.Id(), t.Id());
  }

  lemma RetriedRound(w: World, c: Choice, life: Life, t: TaskName)
    requires IsRetried(w, life, t) && Smooth(c, life.spec)
    ensures IsUnnoticed(Round(w, c), life, t)
  {
    RetriedPass(w, c, life, t);
    RetriedSettles(w, Pass(w, c), life, t);
  }

  /** The status once a deletion is noticed. */
  function AskedStatus(r: Resource): Status {
    r.status.(
      phase := PhaseInitDelete,
      stage := NewStage(r.generation, RunSetupDelete, ResourceDeleted, false, StateInitializing))
  }

  lemma AskedPass(w: World, c: Choice, life: Life)
    requires IsAsked(w, life) && Smooth(c, life.spec)
    ensures var r := w.resource.value;
      Pass(w, c).resource == Some(r.(status := Stored(AskedStatus(r)))) && Pass(w, c).pods == w.pods
        && Pass(w, c).clock == w.clock && Pass(w, c).provisioned == w.provisioned
  {
  }

  lemma AskedSettles(w: World, w': World, life: Life)
    requires IsAsked(w, life)
    requires w'.resource == Some(w.resource.value.(status := Stored(AskedStatus(w.resource.value))))
    requires w'.pods == w.pods && w'.clock == w.clock && w'.provisioned == w.provisioned
    ensures IsReady(w'.(pods := SettlePods(w'.pods)), life, RunSetupDelete)
  {
    var t: TaskName := RunSetupDelete;
    OlderIsBelow(w.pods, life.generation, t.Id());
  }

  lemma AskedRound(w: World, c: Choice, life: Life)
    requires IsAsked(w, life) && Smooth(c, life.spec)
    ensures IsReady(Round(w, c), life, RunSetupDelete)
  {
    AskedPass(w, c, life);
    AskedSettles(w, Pass(w, c), life);
  }

  lemma NewPodBelow(w: World, r: Resource, s: Status, t: TaskName)
    requires r.generation == s.stage.generation && s.stage.task == t && IsWorkflowTask(t)
    requires PodsBelow(w.pods, r.generation, t.Id())
    ensures PodsBelow(SettlePods(w.pods + [NewPod(w, r, s)]), r.generation, t.Id() + 1)
  {
    assert PodsBelow(w.pods + [NewPod(w, r, s)], r.generation, t.Id() + 1);
    PodsBelowStays(w.pods + [NewPod(w, r, s)], r.generation, t.Id() + 1, t.Id() + 1);
  }

  lemma NewPodOnly(w: World, r: Resource, s: Status, t: TaskName)
    requires s.stage.task == t && PodsBelow(w.pods, r.generation, t.Id())
    ensures var pods := SettlePods(w.pods + [NewPod(w, r, s)]);
      OthersBelow(pods, r.generation, t.Id(), pods[|w.pods|])
  {
    var before := w.pods + [NewPod(w, r, s)];
    var pods := SettlePods(before);
    forall p | p in pods && p != pods[|w.pods|]
      ensures p.generation < r.generation || (p.generation == r.generation && Earlier(p.generateName.task, t.Id()))
    {
      var i :| 0 <= i < |pods| && pods[i] == p;
      assert before[i] in w.pods;
    }
  }

  lemma NewPodFound(w: World, r: Resource, s: Status, t: TaskName, status: Status)
    requires r.generation == s.stage.generation && RetryPast(s, w.clock)
    requires s.stage.task == t && IsWorkflowTask(t) && PodsBelow(w.pods, r.generation, t.Id())
    requires SameButPlugins(status, Stored(Started(s)))
    ensures var pods := SettlePods(w.pods + [NewPod(w, r, s)]);
      var found := Lookup(pods, status);
      found != [] && found[0].phase == PodSucceeded && found[0] == pods[|w.pods|]
  {
    var pods := SettlePods(w.pods + [NewPod(w, r, s)]);
    var p := pods[|w.pods|];
    assert p == NewPod(w, r, s).(phase := PodSucceeded);
    LookupHas(pods, status, p);
    NewPodOnly(w, r, s, t);
    FoundIsOnly(pods, status, r.generation, t, p);
  }

  /** What is found for a task is the only pod that is not for an earlier one. */
  lemma FoundIsOnly(pods: seq<Pod>, status: Status, g: nat, t: TaskName, q: Pod)
    requires OthersBelow(pods, g, t.Id(), q) && Lookup(pods, status) != []
    requires status.stage.generation == g && status.stage.task == t && IsWorkflowTask(t)
    ensures Lookup(pods, status)[0] == q
  {
    LookupMeaning(pods, status);
    assert Lookup(pods, status)[0] in Lookup(pods, status);
  }

  /** The pod made for the status `s` the pass works on succeeds and is found. */
  lemma LaunchSettles(w: World, w': World, r: Resource, s: Status, t: TaskName, life: Life)
    requires w.resource == Some(r) && w'.resource.Some? && w'.clock == w.clock
    requires w'.pods == w.pods + [NewPod(w, r, s)]
    requires SameButPlugins(w'.resource.value.status, Stored(Started(s)))
    requires r.generation == s.stage.generation && s.stage.task == t && IsWorkflowTask(t)
    requires RetryPast(s, w.clock) && PodsBelow(w.pods, r.generation, t.Id())
    requires life.generation == r.generation
    ensures PodSucceededFor(w'.(pods := SettlePods(w'.pods)), life, t)
    ensures PodsBelow(SettlePods(w'.pods), r.generation, t.Id() + 1)
  {
    NewPodBelow(w, r, s, t);
    NewPodOnly(w, r, s, t);
    NewPodFound(w, r, s, t, w'.resource.value.status);
  }

  lemma NoPodFound(pods: seq<Pod>, s: Status)
    requires PodsBelow(pods, s.stage.generation, s.stage.task.Id()) && IsWorkflowTask(s.stage.task)
    ensures Lookup(pods, s) == []
  {
    LookupNone(pods, s);
  }

  lemma LaunchPass(w: World, c: Choice, life: Life, t: TaskName)
    requires IsReady(w, life, t) && IsWorkflowTask(t) && Smooth(c, life.spec)
    ensures Pass(w, c) == Launch(w, w.resource.value, w.resource.value.status, c)
  {
    ManagedWorks(w, c, life);
    NoPodFound(w.pods, w.resource.value.status);
  }

  lemma LaunchIsLaunched(w: World, w': World, c: Choice, life: Life, t: TaskName)
    requires IsReady(w, life, t) && IsWorkflowTask(t) && Smooth(c, life.spec)
    requires w' == Launch(w, w.resource.value, w.resource.value.status, c)
    ensures IsLaunched(w'.(pods := SettlePods(w'.pods)), life, t)
  {
    SmoothLaunch(w, w.resource.value, w.resource.value.status, c);
    LaunchSettles(w, w', w.resource.value, w.resource.value.status, t, life);
  }

  lemma LaunchRound(w: World, c: Choice, life: Life, t: TaskName)
    requires IsReady(w, life, t) && IsWorkflowTask(t) && Smooth(c, life.spec)
    ensures IsLaunched(Round(w, c), life, t)
  {
    LaunchPass(w, c, life, t);
    LaunchIsLaunched(w, Pass(w, c), c, life, t);
  }

  /** The pass that notices the deletion of a resource whose create chain was just entered launches all the same. */
  lemma UnnoticedPass(w: World, c: Choice, life: Life, t: TaskName)
    requires IsUnnoticed(w, life, t) && Smooth(c, life.spec)
    ensures var r := w.resource.value;
      Pass(w, c) == Launch(w, r, r.status.(phase := PhaseInitDelete), c)
  {
    var r := w.resource.value;
    NoPodFound(w.pods, r.status.(phase := PhaseInitDelete));
    assert Pass(w, c) == Proceed(w, r, c);
  }

  lemma UnnoticedIsLaunched(w: World, w': World, c: Choice, life: Life, t: TaskName)
    requires IsUnnoticed(w, life, t) && Smooth(c, life.spec)
    requires w' == Launch(w, w.resource.value, w.resource.value.status.(phase := PhaseInitDelete), c)
    ensures IsLaunched(w'.(pods := SettlePods(w'.pods)), life, t)
  {
    var s := w.resource.value.status.(phase := PhaseInitDelete);
    SmoothLaunch(w, w.resource.value, s, c);
    LaunchSettles(w, w', w.resource.value, s, t, life);
  }

  lemma UnnoticedRound(w: World, c: Choice, life: Life, t: TaskName)
    requires IsUnnoticed(w, life, t) && Smooth(c, life.spec)
    ensures IsLaunched(Round(w, c), life, t)
  {
    UnnoticedPass(w, c, life, t);
    UnnoticedIsLaunched(w, Pass(w, c), c, life, t);
  }

  /** The status once the stage's pod is seen to have succeeded. */
  function CompletedStatus(s: Status, pod: Pod): Status {
    s.(stage := s.stage.(podName := Some(pod.name), message := PodMessage(pod.name, pod.phase), state := StateComplete))
  }

  lemma CompletePass(w: World, c: Choice, life: Life, t: TaskName)
    requires IsLaunched(w, life, t) && IsWorkflowTask(t) && Smooth(c, life.spec)
    ensures var r := w.resource.value;
      && Pass(w, c).resource == Some(r.(status := Stored(CompletedStatus(r.status, Lookup(w.pods, r.status)[0]))))
      && Pass(w, c).clock == w.clock && Pass(w, c).provisioned == w.provisioned
      && forall p :: p in Pass(w, c).pods ==> p in w.pods
  {
    var r := w.resource.value;
    ManagedWorks(w, c, life);
    var pod := Lookup(w.pods, r.status)[0];
    assert Pass(w, c) == Observe(w, r, r.status, pod, c);
    WithoutPodIn(w.pods, pod.name);
  }

  lemma CompleteSettles(w: World, w': World, life: Life, t: TaskName)
    requires IsLaunched(w, life, t) && IsWorkflowTask(t)
    requires var r := w.resource.value;
      w'.resource == Some(r.(status := Stored(CompletedStatus(r.status, Lookup(w.pods, r.status)[0]))))
    requires w'.clock == w.clock && w'.provisioned == w.provisioned && forall p :: p in w'.pods ==> p in w.pods
    ensures IsFinished(w'.(pods := SettlePods(w'.pods)), life, t)
  {
    PodsBelowStays(w'.pods, life.generation, t.Id() + 1, t.Id() + 1);
  }

  lemma CompleteRound(w: World, c: Choice, life: Life, t: TaskName)
    requires IsLaunched(w, life, t) && IsWorkflowTask(t) && Smooth(c, life.spec)
    ensures IsFinished(Round(w, c), life, t)
  {
    CompletePass(w, c, life, t);
    CompleteSettles(w, Pass(w, c), life, t);
  }

  /** The stage after a completed one. */
  function StageAfter(r: Resource): Stage {
    var next := NextTask(r.status.stage.task, ConfiguredTasks(r.spec.optionTasks));
    NewStage(r.generation, next, CompletedTask(r.status.stage.task), !Uninterruptible(next),
             if next == RunNil then StateComplete else StateInitializing)
  }

  lemma AdvanceDecides(w: World, c: Choice, life: Life, t: TaskName)
    requires IsFinished(w, life, t) && IsWorkflowTask(t) && Smooth(c, life.spec)
    ensures var r := w.resource.value; Pass(w, c) == EnterStage(w, r, r.status, StageAfter(r), Advance, c)
  {
    var r := w.resource.value;
    ManagedWorks(w, c, life);
    assert CheckSetNewStage(r, r.status, false, w.pods, c) == Enter(StageAfter(r), Advance);
  }

  /** What entering a stage stores, when no pods are removed for it and nothing is reset. */
  lemma StageEnters(w: World, r: Resource, stage: Stage, cause: Cause, c: Choice)
    requires w.resource == Some(r) && c.WriteOk(0) && stage.reason != GenerationChange
    requires !c.oldPlanRemoved || (stage.reason != RestartedWorkflow && stage.reason != RestartedDeleteWorkflow)
    ensures var w' := EnterStage(w, r, r.status, stage, cause, c);
      && w'.resource == Some(r.(status := Stored(r.status.(stage := stage))))
      && w'.pods == w.pods && w'.provisioned == w.provisioned && w'.nextPod == w.nextPod && w'.clock == w.clock
      && w'.trail == w.trail + [Entered(stage.generation, stage.task, cause)]
  {
    var e := Entered(stage.generation, stage.task, cause);
    assert [e] + [] == [e];
  }

  lemma AdvancePass(w: World, c: Choice, life: Life, t: TaskName)
    requires IsFinished(w, life, t) && IsWorkflowTask(t) && Smooth(c, life.spec)
    ensures var r := w.resource.value;
      && Pass(w, c).resource == Some(r.(status := Stored(r.status.(stage := StageAfter(r)))))
      && Pass(w, c).pods == w.pods && Pass(w, c).clock == w.clock && Pass(w, c).provisioned == w.provisioned
  {
    AdvanceDecides(w, c, life, t);
    StageEnters(w, w.resource.value, StageAfter(w.resource.value), Advance, c);
  }

  lemma AdvanceRound(w: World, c: Choice, life: Life, t: TaskName)
    requires IsFinished(w, life, t) && IsWorkflowTask(t) && Smooth(c, life.spec)
    ensures var next := NextTask(t, ConfiguredTasks(life.spec.optionTasks));
      IsReady(Round(w, c), life, next) && (IsWorkflowTask(next) || next == RunNil)
  {
    var next := NextTask(t, ConfiguredTasks(life.spec.optionTasks));
    AdvancePass(w, c, life, t);
    NextTaskMeaning(t, ConfiguredTasks(life.spec.optionTasks));
    PodsBelowStays(w.pods, life.generation, t.Id() + 1, if next == RunNil then End(life) else next.Id());
  }

  lemma SettlesOnce(pods: seq<Pod>)
    ensures SettlePods(SettlePods(pods)) == SettlePods(pods)
  {
    var once, twice := SettlePods(pods), SettlePods(SettlePods(pods));
    assert forall i :: 0 <= i < |once| ==> twice[i] == once[i];
  }

  /** The pass at the end of a chain. */
  lemma EndPass(w: World, c: Choice, life: Life)
    requires IsReady(w, life, RunNil) && Smooth(c, life.spec)
    ensures var r := w.resource.value;
      && Pass(w, c).resource == Some(r.(status := Stored(r.status.(phase := if life.deleting then PhaseDeleted
            else PhaseCompleted))))
      && Pass(w, c).pods == w.pods && Pass(w, c).clock == w.clock && Pass(w, c).provisioned == w.provisioned
  {
    ManagedWorks(w, c, life);
  }

  lemma EndSettles(w: World, w': World, life: Life)
    requires IsReady(w, life, RunNil) && (life.deleting || life.create)
    requires var r := w.resource.value;
      w'.resource == Some(r.(status := Stored(r.status.(phase := if life.deleting then PhaseDeleted
        else PhaseCompleted))))
    requires w'.pods == w.pods && w'.clock == w.clock && w'.provisioned == w.provisioned
    ensures var settled := w'.(pods := SettlePods(w'.pods));
      if life.deleting then IsDeleted(settled, life) else AtRest(settled, life)
  {
    PodsBelowStays(w.pods, life.generation, End(life), End(life));
    SettlesOnce(w.pods);
  }

  lemma EndRound(w: World, c: Choice, life: Life)
    requires IsReady(w, life, RunNil) && (life.deleting || life.create) && Smooth(c, life.spec)
    ensures if life.deleting then IsDeleted(Round(w, c), life) else AtRest(Round(w, c), life)
  {
    EndPass(w, c, life);
    EndSettles(w, Pass(w, c), life);
  }

  lemma RestRound(w: World, c: Choice, life: Life)
    requires AtRest(w, life) && Smooth(c, life.spec)
    ensures Round(w, c) == w
  {
  }

  lemma FreshMoves(w: World, c: Choice, p: Position, life: Life)
    requires At(w, p, life) && Smooth(c, life.spec) && (p.NoFinalizer? || p.NoPrefix? || p.NoStage?)
    ensures At(Round(w, c), NextPosition(p, Successor(life.spec), life), life)
  {
    match p
    case NoFinalizer => FinalizerRound(w, c, life);
    case NoPrefix => NameRound(w, c, life);
    case NoStage => StageRound(w, c, life);
  }

  lemma EntryMoves(w: World, c: Choice, p: Position, life: Life)
    requires At(w, p, life) && Smooth(c, life.spec) && (p.Retried? || p.Unnoticed?)
    ensures At(Round(w, c), NextPosition(p, Successor(life.spec), life), life)
  {
    match p
    case Retried(t) => RetriedRound(w, c, life, t);
    case Unnoticed(t) => UnnoticedRound(w, c, life, t);
  }

  lemma TaskMoves(w: World, c: Choice, p: Position, life: Life)
    requires At(w, p, life) && Smooth(c, life.spec) && (p.Ready? || p.Launched? || p.Finished?) && p.task != RunNil
    ensures At(Round(w, c), NextPosition(p, Successor(life.spec), life), life)
  {
    match p
    case Ready(t) => LaunchRound(w, c, life, t);
    case Launched(t) => CompleteRound(w, c, life, t);
    case Finished(t) => AdvanceRound(w, c, life, t);
  }

  lemma LateMoves(w: World, c: Choice, p: Position, life: Life)
    requires At(w, p, life) && Smooth(c, life.spec) && (p == Ready(RunNil) || p.Resting?)
    ensures At(Round(w, c), NextPosition(p, Successor(life.spec), life), life)
  {
    if p.Resting? {
      RestRound(w, c, life);
    } else {
      EndRound(w, c, life);
    }
  }

  lemma LastMoves(w: World, c: Choice, p: Position, life: Life)
    requires p.Deleted? || p.Dropped?
    ensures At(Round(w, c), NextPosition(p, Successor(life.spec), life), life)
  {
  }

  lemma AskedMoves(w: World, c: Choice, life: Life)
    requires IsAsked(w, life) && Smooth(c, life.spec)
    ensures At(Round(w, c), Ready(RunSetupDelete), life)
  {
    AskedRound(w, c, life);
  }

  /** Before the first task of a chain. */
  predicate IsEarly(p: Position) {
    p.NoFinalizer? || p.NoPrefix? || p.NoStage? || p.Asked? || p.Retried? || p.Unnoticed?
  }

  lemma EarlyMoves(w: World, c: Choice, p: Position, life: Life)
    requires At(w, p, life) && Smooth(c, life.spec) && IsEarly(p)
    ensures At(Round(w, c), NextPosition(p, Successor(life.spec), life), life)
  {
    if p.Asked? {
      AskedMoves(w, c, life);
    } else if p.Retried? || p.Unnoticed? {
      EntryMoves(w, c, p, life);
    } else {
      FreshMoves(w, c, p, life);
    }
  }

  lemma ChainMoves(w: World, c: Choice, p: Position, life: Life)
    requires At(w, p, life) && Smooth(c, life.spec) && !IsEarly(p)
    ensures At(Round(w, c), NextPosition(p, Successor(life.spec), life), life)
  {
    if p.Deleted? || p.Dropped? {
      LastMoves(w, c, p, life);
    } else if p.Resting? || p.task == RunNil {
      LateMoves(w, c, p, life);
    } else {
      TaskMoves(w, c, p, life);
    }
  }

  /** A round moves a resource to the next position. */
  lemma RoundMoves(w: World, c: Choice, p: Position, life: Life)
    requires At(w, p, life) && Smooth(c, life.spec)
    ensures At(Round(w, c), NextPosition(p, Successor(life.spec), life), life)
  {
    if IsEarly(p) {
      EarlyMoves(w, c, p, life);
    } else {
      ChainMoves(w, c, p, life);
    }
  }

  // ---------------------------------------------------------------------------------------------
  // Many rounds

  lemma StepMoves(rs: SmoothRounds, i: nat, p: Position, life: Life)
    requires i < |rs.cs| && life.spec == rs.spec && At(rs.ws[i], p, life)
    ensures At(rs.ws[i + 1], NextPosition(p, Successor(life.spec), life), life)
  {
    assert IsRound(rs, i);
    RoundMoves(rs.ws[i], rs.cs[i], p, life);
  }

  lemma {:induction false} RoundsMove(holds: (nat, Position) -> bool, n: nat, k: nat, j: Journey,
      next: TaskName -> TaskName)
    requires j.walk != [] && IsWalk(j.walk, j.walk[0], next) && IsStart(j.start, j.walk[0], next, j.life)
    requires k <= n && holds(0, PositionAfter(j, 0))
    requires forall i: nat, p {:trigger holds(i, NextPosition(p, next, j.life))} ::
      0 < i <= n && holds(i - 1, p) ==> holds(i, NextPosition(p, next, j.life))
    ensures holds(k, PositionAfter(j, k))
    decreases k
  {
    if k > 0 {
      RoundsMove(holds, n, k - 1, j, next);
      NextOnWay(j, next, k - 1);
    }
  }

  ghost function Holds(rs: SmoothRounds, life: Life): (nat, Position) -> bool {
    (i: nat, p: Position) => i < |rs.ws| && At(rs.ws[i], p, life)
  }

  lemma StepHolds(rs: SmoothRounds, i: nat, p: Position, life: Life)
    requires life.spec == rs.spec && i < |rs.cs| && Holds(rs, life)(i, p)
    ensures Holds(rs, life)(i + 1, NextPosition(p, Successor(life.spec), life))
  {
    StepMoves(rs, i, p, life);
  }

  lemma EveryStepMoves(rs: SmoothRounds, life: Life)
    requires life.spec == rs.spec
    ensures var next := Successor(life.spec);
      forall i: nat, p {:trigger Holds(rs, life)(i, NextPosition(p, next, life))} ::
        0 < i <= |rs.cs| && Holds(rs, life)(i - 1, p) ==> Holds(rs, life)(i, NextPosition(p, next, life))
  {
    var next := Successor(life.spec);
    forall i: nat, p {:trigger Holds(rs, life)(i, NextPosition(p, next, life))} | 0 < i <= |rs.cs|
      && Holds(rs, life)(i - 1, p)
      ensures Holds(rs, life)(i, NextPosition(p, next, life))
    {
      StepHolds(rs, i - 1, p, life);
    }
  }

  /** Whoever starts on a journey is where the journey says after every number of rounds. */
  lemma PositionReached(rs: SmoothRounds, k: nat, j: Journey)
    requires k <= |rs.cs| && j.life.spec == rs.spec && IsJourney(j) && At(rs.ws[0], PositionAfter(j, 0), j.life)
    ensures At(rs.ws[k], PositionAfter(j, k), j.life)
  {
    EveryStepMoves(rs, j.life);
    assert Holds(rs, j.life)(0, PositionAfter(j, 0));
    RoundsMove(Holds(rs, j.life), |rs.cs|, k, j, Successor(j.life.spec));
  }

  lemma {:induction false} RestStays(rs: SmoothRounds, i: nat, k: nat, life: Life)
    requires i <= k <= |rs.cs| && life.spec == rs.spec && AtRest(rs.ws[i], life)
    ensures rs.ws[k] == rs.ws[i]
    decreases k
  {
    if i < k {
      RestStays(rs, i, k - 1, life);
      assert IsRound(rs, k - 1);
      RestRound(rs.ws[k - 1], rs.cs[k - 1], life);
    }
  }

  predicate IsCompleted(w: World) { w.resource.Some? && w.resource.value.status.phase == PhaseCompleted }

  predicate HoldsFinalizer(w: World) { w.resource.Some? && TF_FINALIZER in w.resource.value.finalizers }

  /** The tasks of a chain from `t` on that the resource configures. */
  function WalkFrom(t: TaskName, spec: Spec): seq<TaskName> { Walk(t, ConfiguredTasks(spec.optionTasks)) }

  function CreateTotal(spec: Spec): nat { 3 * |WalkFrom(RunSetup, spec)| + 4 }

  function DeleteTotal(spec: Spec): nat { 3 * |WalkFrom(RunSetupDelete, spec)| + 3 }

  function Creation(life: Life): Journey {
    Journey([NoFinalizer, NoPrefix, NoStage], WalkFrom(RunSetup, life.spec), life)
  }

  function Destruction(life: Life): Journey { Journey([Asked], WalkFrom(RunSetupDelete, life.spec), life) }

  lemma JourneyOn(start: seq<Position>, walk: seq<TaskName>, t: TaskName, life: Life)
    requires IsWalk(walk, t, Successor(life.spec)) && IsStart(start, t, Successor(life.spec), life)
    ensures IsJourney(Journey(start, walk, life))
  {
  }

  lemma CreationStarts(next: TaskName -> TaskName, life: Life)
    requires !life.deleting
    ensures IsStart([NoFinalizer, NoPrefix, NoStage], RunSetup, next, life)
  {
  }

  lemma DestructionStarts(next: TaskName -> TaskName, life: Life)
    requires !life.create
    ensures IsStart([Asked], RunSetupDelete, next, life)
  {
  }

  lemma CreationIsJourney(life: Life)
    requires !life.deleting
    ensures IsJourney(Creation(life)) && Creation(life).Walked() + 1 == CreateTotal(life.spec)
  {
    WalkIsWalk(RunSetup, life.spec);
    CreationStarts(Successor(life.spec), life);
    JourneyOn([NoFinalizer, NoPrefix, NoStage], WalkFrom(RunSetup, life.spec), RunSetup, life);
  }

  lemma DestructionIsJourney(life: Life)
    requires !life.create
    ensures IsJourney(Destruction(life)) && Destruction(life).Walked() + 2 == DeleteTotal(life.spec)
  {
    WalkIsWalk(RunSetupDelete, life.spec);
    DestructionStarts(Successor(life.spec), life);
    JourneyOn([Asked], WalkFrom(RunSetupDelete, life.spec), RunSetupDelete, life);
  }

  lemma AtCompleted(w: World, j: Journey, k: nat)
    requires !j.life.deleting && j.start == [NoFinalizer, NoPrefix, NoStage] && At(w, PositionAfter(j, k), j.life)
    ensures IsCompleted(w) <==> k > j.Walked()
    ensures k > j.Walked() ==> AtRest(w, j.life)
  {
  }

  /** A fresh resource with n configured create tasks is completed after exactly 3n + 4 rounds, and stays as it is. */
  lemma CreateTakes(rs: SmoothRounds, life: Life, k: nat)
    requires life.spec == rs.spec && Fresh(rs.ws[0], life) && k <= |rs.cs|
    ensures IsCompleted(rs.ws[k]) <==> k >= CreateTotal(rs.spec)
    ensures k >= CreateTotal(rs.spec) ==> rs.ws[k] == rs.ws[CreateTotal(rs.spec)] && AtRest(rs.ws[k], life)
  {
    var j := Creation(life);
    CreationIsJourney(life);
    PositionReached(rs, k, j);
    AtCompleted(rs.ws[k], j, k);
    var total := CreateTotal(rs.spec);
    if k >= total {
      PositionReached(rs, total, j);
      AtCompleted(rs.ws[total], j, total);
      RestStays(rs, total, k, life);
    }
  }

  /** The round that drops the finalizer. */
  ghost predicate Drops(w: World, w': World) {
    !HoldsFinalizer(w') && w'.trail == w.trail + [FinalizerDropped]
  }

  lemma DropRound(w: World, c: Choice)
    requires w.resource.Some? && w.resource.value.status.phase == PhaseDeleted
    requires Lists.Count(w.resource.value.finalizers, TF_FINALIZER) == 1
    requires c.readOk && c.secretsOk && c.updateOk
    ensures var r, w' := w.resource.value, Round(w, c);
      && Drops(w, w') && w'.resource == Kept(r.(finalizers := Lists.Without(r.finalizers, TF_FINALIZER)))
  {
    var finalizers := w.resource.value.finalizers;
    Lists.RemovesExactly(finalizers, TF_FINALIZER);
    assert TF_FINALIZER in multiset(finalizers);
  }

  lemma DropStep(rs: SmoothRounds, i: nat)
    requires i < |rs.cs| && rs.ws[i].resource.Some? && rs.ws[i].resource.value.status.phase == PhaseDeleted
    requires Lists.Count(rs.ws[i].resource.value.finalizers, TF_FINALIZER) == 1
    ensures Drops(rs.ws[i], rs.ws[i + 1])
  {
    assert IsRound(rs, i);
    DropRound(rs.ws[i], rs.cs[i]);
  }

  lemma AtHoldsFinalizer(w: World, p: Position, life: Life)
    requires At(w, p, life) && life.deleting && TF_FINALIZER in life.finalizers && p != Dropped
    ensures HoldsFinalizer(w)
  {
  }

  lemma DroppedLast(j: Journey, k: nat)
    requires j.life.deleting && Dropped !in j.start
    ensures k <= j.Walked() + 1 ==> PositionAfter(j, k) != Dropped
    ensures k == j.Walked() + 1 ==> PositionAfter(j, k) == Deleted
  {
  }

  /** A resource to be deleted holds its finalizer until its chain is walked, and loses it two rounds later. */
  lemma JourneyDrops(rs: SmoothRounds, j: Journey, k: nat)
    requires k <= |rs.cs| && j.life.spec == rs.spec && IsJourney(j) && At(rs.ws[0], PositionAfter(j, 0), j.life)
    requires j.life.deleting && Dropped !in j.start && Lists.Count(j.life.finalizers, TF_FINALIZER) == 1
    ensures k <= j.Walked() + 1 ==> HoldsFinalizer(rs.ws[k])
    ensures k == j.Walked() + 2 ==> Drops(rs.ws[k - 1], rs.ws[k])
  {
    if k <= j.Walked() + 1 {
      PositionReached(rs, k, j);
      DroppedLast(j, k);
      assert TF_FINALIZER in multiset(j.life.finalizers);
      AtHoldsFinalizer(rs.ws[k], PositionAfter(j, k), j.life);
    } else if k == j.Walked() + 2 {
      PositionReached(rs, k - 1, j);
      DroppedLast(j, k - 1);
      DropStep(rs, k - 1);
    }
  }

  lemma JourneyDropsAll(rs: SmoothRounds, j: Journey)
    requires j.life.spec == rs.spec && IsJourney(j) && At(rs.ws[0], PositionAfter(j, 0), j.life)
    requires j.life.deleting && Dropped !in j.start && Lists.Count(j.life.finalizers, TF_FINALIZER) == 1
    requires |rs.cs| == j.Walked() + 2
    ensures forall k :: 0 <= k < |rs.cs| ==> HoldsFinalizer(rs.ws[k])
    ensures Drops(rs.ws[|rs.cs| - 1], rs.ws[|rs.cs|])
  {
    forall k | 0 <= k < |rs.cs| ensures HoldsFinalizer(rs.ws[k]) {
      JourneyDrops(rs, j, k);
    }
    JourneyDrops(rs, j, |rs.cs|);
  }

  /** A resource with m configured delete tasks whose deletion was asked for loses its finalizer in exactly the
      (3m + 3)-rd round. */
  lemma DeleteTakes(rs: SmoothRounds, life: Life, k: nat)
    requires life.spec == rs.spec && IsAsked(rs.ws[0], life) && k <= |rs.cs|
    requires Lists.Count(life.finalizers, TF_FINALIZER) == 1
    ensures k < DeleteTotal(rs.spec) ==> HoldsFinalizer(rs.ws[k])
    ensures k == DeleteTotal(rs.spec) ==> Drops(rs.ws[k - 1], rs.ws[k])
  {
    DestructionIsJourney(life);
    JourneyDrops(rs, Destruction(life), k);
  }

  // ---------------------------------------------------------------------------------------------
  // A whole life

  /** The life of the resource once its deletion was asked for. */
  function AskedLife(life: Life): Life { life.(generation := life.generation + 1, deleting := true, create := false) }

  lemma RestIsAsked(w: World, life: Life)
    requires AtRest(w, life)
    ensures IsAsked(EnvNext(w, EditResource(RequestDelete)), AskedLife(life))
  {
  }

  lemma OneFinalizerMore(finalizers: seq<string>)
    requires TF_FINALIZER !in finalizers
    ensures Lists.Count(finalizers + [TF_FINALIZER], TF_FINALIZER) == 1
  {
  }

  lemma CreatedIsAsked(create: SmoothRounds, life: Life)
    requires create.spec == life.spec
    requires Fresh(create.ws[0], life) && |create.cs| == CreateTotal(life.spec)
    ensures IsCompleted(create.ws[|create.cs|]) && Lists.Count(life.finalizers, TF_FINALIZER) == 1
    ensures IsAsked(EnvNext(create.ws[|create.cs|], EditResource(RequestDelete)), AskedLife(life))
  {
    CreateTakes(create, life, |create.cs|);
    OneFinalizerMore(create.ws[0].resource.value.finalizers);
    RestIsAsked(create.ws[|create.cs|], life);
  }

  lemma DeleteTakesAll(delete: SmoothRounds, life: Life)
    requires delete.spec == life.spec && |delete.cs| == DeleteTotal(life.spec)
    requires IsAsked(delete.ws[0], life) && Lists.Count(life.finalizers, TF_FINALIZER) == 1
    ensures forall k :: 0 <= k < |delete.cs| ==> HoldsFinalizer(delete.ws[k])
    ensures Drops(delete.ws[|delete.cs| - 1], delete.ws[|delete.cs|])
  {
    DestructionIsJourney(life);
    JourneyDropsAll(delete, Destruction(life));
  }

  /** A resource that is created, completed and then asked to be deleted goes through 3n + 4 and 3m + 3 rounds, in
      the last of which its finalizer is dropped. */
  lemma WholeLife(create: SmoothRounds, delete: SmoothRounds, life: Life)
    requires create.spec == delete.spec == life.spec && Fresh(create.ws[0], life)
    ensures FollowOneAnother(create, delete) ==>
      && IsCompleted(create.ws[|create.cs|])
      && (forall k :: 0 <= k < |delete.cs| ==> HoldsFinalizer(delete.ws[k]))
      && Drops(delete.ws[|delete.cs| - 1], delete.ws[|delete.cs|])
  {
    if FollowOneAnother(create, delete) {
      CreatedIsAsked(create, life);
      DeleteTakesAll(delete, AskedLife(life));
    }
  }

  /** The one list is as long as a creation takes, and the other starts with the request to delete and is as long as
      a deletion takes. */
  ghost predicate FollowOneAnother(create: SmoothRounds, delete: SmoothRounds) {
    && |create.cs| == CreateTotal(create.spec) && |delete.cs| == DeleteTotal(delete.spec)
    && delete.ws[0] == EnvNext(create.ws[|create.cs|], EditResource(RequestDelete))
  }

  // ---------------------------------------------------------------------------------------------
  // Rounds are runs

  function MoveAll(pods: seq<Pod>, names: seq<nat>): seq<Pod> {
    if names == [] then pods else MovePods(MoveAll(pods, names[..|names| - 1]), names[|names| - 1], PodSucceeded)
  }

  lemma {:induction false} MovePodsAt(pods: seq<Pod>, name: nat, phase: PodPhase)
    ensures |MovePods(pods, name, phase)| == |pods|
    ensures forall i :: 0 <= i < |pods| ==>
      MovePods(pods, name, phase)[i] == if pods[i].name == name then pods[i].(phase := phase) else pods[i]
  {
    if pods != [] {
      MovePodsAt(pods[1..], name, phase);
    }
  }

  lemma {:induction false} MoveAllAt(pods: seq<Pod>, names: seq<nat>)
    ensures |MoveAll(pods, names)| == |pods|
    ensures forall i :: 0 <= i < |pods| ==>
      MoveAll(pods, names)[i] == if pods[i].name in names then pods[i].(phase := PodSucceeded) else pods[i]
  {
    if names != [] {
      var before, last := names[..|names| - 1], names[|names| - 1];
      assert names == before + [last];
      MoveAllAt(pods, before);
      MovePodsAt(MoveAll(pods, before), last, PodSucceeded);
    }
  }

  /** The step moves a pod to its success. */
  predicate IsSuccess(step: Step) { step.Environment? && step.step.MovePod? && step.step.phase == PodSucceeded }

  function MoveSteps(names: seq<nat>): (steps: seq<Step>)
    ensures forall i :: 0 <= i < |steps| ==> IsSuccess(steps[i])
  {
    if names == [] then []
    else MoveSteps(names[..|names| - 1]) + [Environment(MovePod(names[|names| - 1], PodSucceeded))]
  }

  lemma {:induction false} MoveStepsRun(w: World, names: seq<nat>)
    ensures Run(w, MoveSteps(names)) == w.(pods := MoveAll(w.pods, names))
  {
    if names != [] {
      MoveStepsRun(w, names[..|names| - 1]);
      assert MoveSteps(names)[..|MoveSteps(names)| - 1] == MoveSteps(names[..|names| - 1]);
    }
  }

  function NamesOf(pods: seq<Pod>): (names: seq<nat>)
    ensures |names| == |pods| && forall i :: 0 <= i < |pods| ==> names[i] == pods[i].name
  {
    if pods == [] then [] else NamesOf(pods[..|pods| - 1]) + [pods[|pods| - 1].name]
  }

  lemma {:induction false} RunAppend(w: World, a: seq<Step>, b: seq<Step>)
    ensures Run(w, a + b) == Run(Run(w, a), b)
    decreases b
  {
    if b == [] {
      assert a + b == a;
    } else {
      RunAppend(w, a, b[..|b| - 1]);
      assert (a + b)[..|a + b| - 1] == a + b[..|b| - 1];
    }
  }

  lemma NamesSettle(pods: seq<Pod>)
    ensures MoveAll(pods, NamesOf(pods)) == SettlePods(pods)
  {
    MoveAllAt(pods, NamesOf(pods));
  }

  lemma OnePass(w: World, c: Choice)
    ensures Run(w, [Controller(c)]) == Pass(w, c)
  {
    var one := [Controller(c)];
    assert one[..0] == [];
  }

  /** A round is a run of its own: a pass, and then every pod succeeds. */
  lemma RoundIsRun(w: World, c: Choice) returns (steps: seq<Step>)
    ensures Round(w, c) == Run(w, steps)
    ensures steps != [] && steps[0] == Controller(c)
    ensures forall i :: 0 < i < |steps| ==> IsSuccess(steps[i])
  {
    var names := NamesOf(Pass(w, c).pods);
    NamesSettle(Pass(w, c).pods);
    MoveStepsRun(Pass(w, c), names);
    var one := [Controller(c)];
    OnePass(w, c);
    steps := one + MoveSteps(names);
    RunAppend(w, one, MoveSteps(names));
  }

  /** Rounds lead from reachable states to reachable states only. */
  lemma {:induction false} RoundsAreReachable(rs: SmoothRounds, k: nat)
    requires Reachable(rs.ws[0]) && k <= |rs.cs|
    ensures Reachable(rs.ws[k])
  {
    if k > 0 {
      RoundsAreReachable(rs, k - 1);
      assert IsRound(rs, k - 1);
      var w0, before :| IsFresh(w0) && rs.ws[k - 1] == Run(w0, before);
      var steps := RoundIsRun(rs.ws[k - 1], rs.cs[k - 1]);
      RunAppend(w0, before, steps);
    }
  }
}
