/** When the jobs of a resource's plugins are launched while it is created and nothing fails. */
module PluginTimes {
  import opened Wrappers
  import opened Tasks
  import opened Workflow
  import opened WorkflowFacts
  import opened Progress
  import opened PluginLaunches

  /** The pass walks every plugin of the resource, once. */
  ghost predicate WalksAll(c: Choice, spec: Spec) {
    NoDuplicates(c.pluginOrder) && forall p :: p in spec.plugins ==> p in c.pluginOrder
  }

  /** The plugin's launch is on the list of the resource. */
  ghost predicate IsStarted(w: World, p: TaskName) {
    w.resource.Some? && p in w.resource.value.status.pluginsStarted
  }

  lemma SmoothReaches(r: Resource, s: Status, c: Choice, p: TaskName)
    requires Smooth(c, r.spec) && WalksAll(c, r.spec) && p in r.spec.plugins
    ensures GetsTo(ContextOf(r, s, c), c.pluginOrder, p)
  {
    var i :| 0 <= i < |c.pluginOrder| && c.pluginOrder[i] == p;
    assert IsReached(ContextOf(r, s, c), c.pluginOrder, i);
  }

  lemma {:induction false} AllRecordedCount(c: Choice, i: nat, n: nat)
    requires forall k: nat :: c.WriteOk(k)
    ensures RecordedCount(c, i, n) == n
    decreases n
  {
    if n > 0 {
      AllRecordedCount(c, i + 1, n - 1);
    }
  }

  /** A launching pass in which nothing fails adds exactly the plugins that are due. */
  lemma LaunchStartsDue(w: World, r: Resource, s: Status, c: Choice, p: TaskName)
    requires w.resource == Some(r) && Smooth(c, r.spec) && WalksAll(c, r.spec) && HasObjects(w, r, s)
    requires s.pluginsStarted == r.status.pluginsStarted && p in r.spec.plugins
    ensures IsStarted(Launch(w, r, s, c), p) <==> IsStarted(w, p) || IsDue(r.spec.plugins[p], s.stage.task)
  {
    var scan := ScanPlugins(c.pluginOrder, r.spec.plugins, s.pluginsStarted, s.stage.task, c.sidecarsBuilt);
    var base := Started(s);
    ScanSmooth(c.pluginOrder, r.spec.plugins, s.pluginsStarted, s.stage.task, c.sidecarsBuilt);
    ReversedSame(scan.deferred);
    JobsStored(Stored(base), base, scan.deferred, c, 1);
    AllRecordedCount(c, 1, |scan.deferred|);
    assert Contents(s, true, scan.deferred)[1..] == JobContents(base, scan.deferred);
    assert Reversed(scan.deferred)[..|scan.deferred|] == Reversed(scan.deferred);
    PutOffIff(ContextOf(r, s, c), c.pluginOrder, p);
    SmoothReaches(r, s, c, p);
  }

  // ---------------------------------------------------------------------------------------------
  // Rounds

  lemma ReadyStartsDue(w: World, c: Choice, life: Life, t: TaskName, p: TaskName)
    requires IsReady(w, life, t) && IsWorkflowTask(t) && Smooth(c, life.spec) && WalksAll(c, life.spec)
    requires p in life.spec.plugins
    ensures IsStarted(Round(w, c), p) <==> IsStarted(w, p) || IsDue(life.spec.plugins[p], t)
  {
    LaunchPass(w, c, life, t);
    LaunchStartsDue(w, w.resource.value, w.resource.value.status, c, p);
  }

  lemma EarlyStartsNothing(w: World, c: Choice, pos: Position, life: Life, p: TaskName)
    requires At(w, pos, life) && Smooth(c, life.spec) && (pos.NoFinalizer? || pos.NoPrefix? || pos.NoStage?)
    ensures !IsStarted(w, p) && !IsStarted(Round(w, c), p)
  {
  }

  lemma LaterStartsNothing(w: World, c: Choice, pos: Position, life: Life, p: TaskName)
    requires At(w, pos, life) && Smooth(c, life.spec) && !life.deleting
    requires (pos.Launched? || pos.Finished? || pos == Ready(RunNil) || pos.Resting?)
    ensures IsStarted(Round(w, c), p) <==> IsStarted(w, p)
  {
    match pos
    case Launched(t) => CompletePass(w, c, life, t);
    case Finished(t) => AdvancePass(w, c, life, t);
    case Ready(_) => EndPass(w, c, life);
    case Resting => RestRound(w, c, life);
  }

  /** The position is one of a resource that is created. */
  predicate OfCreation(pos: Position) {
    || pos.NoFinalizer? || pos.NoPrefix? || pos.NoStage?
    || pos.Ready? || pos.Launched? || pos.Finished? || pos.Resting?
  }

  /** The position is one from which the plugin is launched. */
  predicate StartsAt(pos: Position, plugin: Plugin) { pos.Ready? && pos.task != RunNil && IsDue(plugin, pos.task) }

  lemma RoundStarts(w: World, c: Choice, pos: Position, life: Life, p: TaskName)
    requires At(w, pos, life) && Smooth(c, life.spec) && WalksAll(c, life.spec) && !life.deleting && OfCreation(pos)
    requires p in life.spec.plugins
    ensures IsStarted(Round(w, c), p) <==> IsStarted(w, p) || StartsAt(pos, life.spec.plugins[p])
  {
    if pos.NoFinalizer? || pos.NoPrefix? || pos.NoStage? {
      EarlyStartsNothing(w, c, pos, life, p);
    } else if pos.Ready? && pos.task != RunNil {
      ReadyStartsDue(w, c, life, pos.task, p);
    } else {
      LaterStartsNothing(w, c, pos, life, p);
    }
  }

  /** Within `k` rounds the pod of a task at which the plugin is due was launched: the i-th task's, counting from 0,
      in round 3i + 4. */
  ghost predicate DueBy(walk: seq<TaskName>, plugin: Plugin, k: nat) {
    exists i: nat :: IsDueAt(walk, plugin, i) && 3 * i + 4 <= k
  }

  ghost predicate IsDueAt(walk: seq<TaskName>, plugin: Plugin, i: nat) { i < |walk| && IsDue(plugin, walk[i]) }

  /** The way of a resource that is created. */
  predicate IsCreation(j: Journey) {
    j.start == [NoFinalizer, NoPrefix, NoStage] && !j.life.deleting && j.walk != []
  }

  lemma CreationPosition(j: Journey, k: nat)
    requires IsCreation(j)
    ensures OfCreation(PositionAfter(j, k))
  {
  }

  lemma StartIs(j: Journey, k: nat, plugin: Plugin)
    requires IsCreation(j) && forall i :: 0 <= i < |j.walk| ==> IsWorkflowTask(j.walk[i])
    ensures StartsAt(PositionAfter(j, k), plugin) <==> exists i: nat :: IsDueAt(j.walk, plugin, i) && 3 * i + 3 == k
  {
    if StartsAt(PositionAfter(j, k), plugin) {
      assert k >= 3 && (k - 3) % 3 == 0 && IsDueAt(j.walk, plugin, (k - 3) / 3) && 3 * ((k - 3) / 3) + 3 == k;
    }
    if i: nat :| IsDueAt(j.walk, plugin, i) && 3 * i + 3 == k {
      StartPosition(j, i);
    }
  }

  lemma StartPosition(j: Journey, i: nat)
    requires IsCreation(j) && i < |j.walk|
    ensures PositionAfter(j, 3 * i + 3) == Ready(j.walk[i])
  {
  }

  lemma DueByNext(walk: seq<TaskName>, plugin: Plugin, k: nat)
    ensures DueBy(walk, plugin, k + 1) <==>
      DueBy(walk, plugin, k) || exists i: nat :: IsDueAt(walk, plugin, i) && 3 * i + 3 == k
  {
    if DueBy(walk, plugin, k) {
      var i: nat :| IsDueAt(walk, plugin, i) && 3 * i + 4 <= k;
      assert 3 * i + 4 <= k + 1;
    }
    if i: nat :| IsDueAt(walk, plugin, i) && 3 * i + 3 == k {
      assert 3 * i + 4 <= k + 1;
    }
  }

  /** All passes of the rounds walk every plugin once. */
  ghost predicate AllWalked(rs: SmoothRounds) {
    forall i :: 0 <= i < |rs.cs| ==> WalksAll(rs.cs[i], rs.spec)
  }

  lemma CreationTasks(j: Journey)
    requires IsCreation(j) && IsJourney(j)
    ensures forall i :: 0 <= i < |j.walk| ==> IsWorkflowTask(j.walk[i])
  {
    forall i | 0 <= i < |j.walk| ensures IsWorkflowTask(j.walk[i]) {
      assert IsStep(j.walk, i, Successor(j.life.spec));
    }
  }

  /** The rounds of a resource that is created on its way, in which every plugin is walked. */
  ghost predicate Creates(rs: SmoothRounds, j: Journey) {
    && j.life.spec == rs.spec && IsCreation(j) && IsJourney(j) && Holds(rs, j.life)(0, PositionAfter(j, 0))
    && AllWalked(rs)
  }

  lemma StepStarts(rs: SmoothRounds, j: Journey, k: nat, p: TaskName)
    requires Creates(rs, j) && k < |rs.cs| && p in rs.spec.plugins
    ensures IsStarted(rs.ws[k + 1], p) <==>
      IsStarted(rs.ws[k], p) || StartsAt(PositionAfter(j, k), rs.spec.plugins[p])
  {
    PositionReached(rs, k, j);
    CreationPosition(j, k);
    assert IsRound(rs, k);
    RoundStarts(rs.ws[k], rs.cs[k], PositionAfter(j, k), j.life, p);
  }

  lemma FirstHasNone(rs: SmoothRounds, j: Journey, p: TaskName)
    requires Creates(rs, j)
    ensures !IsStarted(rs.ws[0], p)
  {
  }

  lemma DueNext(rs: SmoothRounds, j: Journey, k: nat, p: TaskName)
    requires Creates(rs, j) && p in rs.spec.plugins
    ensures DueBy(j.walk, rs.spec.plugins[p], k + 1) <==>
      DueBy(j.walk, rs.spec.plugins[p], k) || StartsAt(PositionAfter(j, k), rs.spec.plugins[p])
  {
    CreationTasks(j);
    StartIs(j, k, rs.spec.plugins[p]);
    DueByNext(j.walk, rs.spec.plugins[p], k);
  }

  lemma {:induction false} StartedIff(rs: SmoothRounds, j: Journey, k: nat, p: TaskName)
    requires Creates(rs, j) && k <= |rs.cs| && p in rs.spec.plugins
    ensures IsStarted(rs.ws[k], p) <==> DueBy(j.walk, rs.spec.plugins[p], k)
    decreases k
  {
    if k == 0 {
      FirstHasNone(rs, j, p);
    } else {
      StartedIff(rs, j, k - 1, p);
      StepStarts(rs, j, k - 1, p);
      DueNext(rs, j, k - 1, p);
    }
  }

  lemma RoundInStep(w: World, c: Choice)
    requires InStep(w) && NoDuplicates(c.pluginOrder)
    ensures InStep(Round(w, c))
  {
    NextInStep(w, Controller(c));
  }

  lemma RoundKeepsStep(rs: SmoothRounds, k: nat)
    requires AllWalked(rs) && k < |rs.cs| && InStep(rs.ws[k])
    ensures InStep(rs.ws[k + 1])
  {
    assert IsRound(rs, k) && WalksAll(rs.cs[k], rs.spec);
    RoundInStep(rs.ws[k], rs.cs[k]);
  }

  lemma {:induction false} RoundsInStep(rs: SmoothRounds, k: nat)
    requires IsFresh(rs.ws[0]) && AllWalked(rs) && k <= |rs.cs|
    ensures InStep(rs.ws[k])
    decreases k
  {
    if k == 0 {
      RunInStep(rs.ws[0], []);
    } else {
      RoundsInStep(rs, k - 1);
      RoundKeepsStep(rs, k - 1);
    }
  }

  lemma FreshCreates(rs: SmoothRounds, life: Life)
    requires life.spec == rs.spec && Fresh(rs.ws[0], life) && AllWalked(rs)
    ensures Creates(rs, Creation(life))
  {
    CreationIsJourney(life);
  }

  /** While a new resource is created and nothing fails, the job of each of its plugins is on record after k passes if
      and only if by then the pod of a task was launched at which the plugin is due: of a later task than its own for
      After, of its own for At. So it is launched by the first such pass. */
  lemma PluginStartsOnTime(rs: SmoothRounds, life: Life, k: nat, p: TaskName)
    requires life.spec == rs.spec && Fresh(rs.ws[0], life) && k <= |rs.cs| && AllWalked(rs) && p in life.spec.plugins
    ensures var walk, plugin := WalkFrom(RunSetup, life.spec), life.spec.plugins[p];
      OnRecord(rs.ws[k].trail, p) <==>
        exists i: nat :: IsDueAt(walk, plugin, i) && 3 * i + 4 <= k
  {
    FreshCreates(rs, life);
    StartedIff(rs, Creation(life), k, p);
    RoundsInStep(rs, k);
    ResourceStays(rs, Creation(life), k);
  }

  lemma ResourceStays(rs: SmoothRounds, j: Journey, k: nat)
    requires Creates(rs, j) && k <= |rs.cs|
    ensures rs.ws[k].resource.Some?
  {
    PositionReached(rs, k, j);
    CreationPosition(j, k);
  }
}
