/** Plugin jobs: which stage launches which, and how often between two resets of the started list. */
module PluginLaunches {
  import opened Wrappers
  import opened Tasks
  import opened Workflow
  import opened WorkflowFacts

  function Reversed(s: seq<TaskName>): seq<TaskName> {
    if s == [] then [] else [s[|s| - 1]] + Reversed(s[..|s| - 1])
  }

  lemma {:induction false} ReversedSame(s: seq<TaskName>)
    ensures |Reversed(s)| == |s| && forall t :: t in Reversed(s) <==> t in s
    ensures NoDuplicates(s) ==> NoDuplicates(Reversed(s))
  {
    if s != [] {
      var rest, last := s[..|s| - 1], s[|s| - 1];
      assert s == rest + [last];
      ReversedSame(rest);
      if NoDuplicates(s) {
        assert NoDuplicates(rest);
        forall i | 0 <= i < |rest| ensures rest[i] != last {
          assert s[i] != s[|s| - 1];
        }
        assert last !in Reversed(rest);
      }
    }
  }

  lemma {:induction false} ScanMeaning(order: seq<TaskName>, plugins: map<TaskName, Plugin>, started: seq<TaskName>,
      task: TaskName, built: set<TaskName>)
    ensures var deferred := ScanPlugins(order, plugins, started, task, built).deferred;
      && (forall p :: p in deferred ==> p in order && p in plugins && p !in started && Triggers(plugins[p], task))
      && (NoDuplicates(order) ==> NoDuplicates(deferred))
  {
    if order != [] {
      ScanMeaning(order[1..], plugins, started, task, built);
      assert order == [order[0]] + order[1..];
    }
  }

  /** `events` launch the jobs in turn; the first `m` launches were recorded, the others were not. */
  ghost predicate LaunchedInTurn(events: seq<Event>, launches: seq<TaskName>, task: TaskName, m: nat) {
    && |events| == |launches| && m <= |launches|
    && forall k :: 0 <= k < |events| ==> events[k] == JobLaunched(launches[k], task, k < m)
  }

  /** How many of `n` launches in turn are recorded, the first by the i-th write: all up to the last stored write. */
  function RecordedCount(c: Choice, i: nat, n: nat): (m: nat)
    ensures m <= n
    ensures m > 0 <==> Recorded(c, i, i + n)
    decreases n
  {
    if n == 0 then 0
    else
      var k := RecordedCount(c, i + 1, n - 1);
      if k > 0 then k + 1 else if c.WriteOk(i) then 1 else 0
  }

  lemma {:induction false} JobEventsRecorded(deferred: seq<TaskName>, task: TaskName, c: Choice, i: nat)
    ensures LaunchedInTurn(JobEvents(deferred, task, c, i), Reversed(deferred), task, RecordedCount(c, i, |deferred|))
    decreases deferred
  {
    if deferred != [] {
      JobEventsRecorded(deferred[..|deferred| - 1], task, c, i + 1);
    }
  }

  /** The started list that is stored after `deferred` was launched with the list `started` in the working copy. */
  function ListStored(stored: seq<TaskName>, started: seq<TaskName>, deferred: seq<TaskName>, c: Choice, i: nat):
      seq<TaskName>
    decreases deferred
  {
    if deferred == [] then stored
    else
      var next := started + [deferred[|deferred| - 1]];
      ListStored(if c.WriteOk(i) then next else stored, next, deferred[..|deferred| - 1], c, i + 1)
  }

  lemma {:induction false} JobsStoreList(s: Status, base: Status, deferred: seq<TaskName>, c: Choice, i: nat)
    ensures LastStored(s, JobContents(base, deferred), c, i).pluginsStarted
            == ListStored(s.pluginsStarted, base.pluginsStarted, deferred, c, i)
    decreases deferred
  {
    if deferred != [] {
      var next := base.(pluginsStarted := base.pluginsStarted + [deferred[|deferred| - 1]]);
      JobsStoreList(if c.WriteOk(i) then Stored(next) else s, next, deferred[..|deferred| - 1], c, i + 1);
    }
  }

  /** The launches that are recorded. */
  function RecordedPart(deferred: seq<TaskName>, c: Choice, i: nat): seq<TaskName>
    decreases deferred
  {
    if deferred == [] then []
    else
      var part := RecordedPart(deferred[..|deferred| - 1], c, i + 1);
      if part != [] || c.WriteOk(i) then [deferred[|deferred| - 1]] + part else []
  }

  lemma {:induction false} ListStoredPart(stored: seq<TaskName>, started: seq<TaskName>, deferred: seq<TaskName>,
      c: Choice, i: nat)
    ensures var part := RecordedPart(deferred, c, i);
      ListStored(stored, started, deferred, c, i) == if part == [] then stored else started + part
    decreases deferred
  {
    if deferred != [] {
      var last, rest := deferred[|deferred| - 1], deferred[..|deferred| - 1];
      var next := started + [last];
      ListStoredPart(if c.WriteOk(i) then next else stored, next, rest, c, i + 1);
      assert next + RecordedPart(rest, c, i + 1) == started + ([last] + RecordedPart(rest, c, i + 1));
    }
  }

  lemma {:induction false} RecordedPartIsFirst(deferred: seq<TaskName>, c: Choice, i: nat)
    ensures |RecordedPart(deferred, c, i)| == RecordedCount(c, i, |deferred|)
    ensures RecordedPart(deferred, c, i) <= Reversed(deferred) && |Reversed(deferred)| == |deferred|
    decreases deferred
  {
    if deferred != [] {
      RecordedPartIsFirst(deferred[..|deferred| - 1], c, i + 1);
    }
  }

  lemma JobsStored(s: Status, base: Status, deferred: seq<TaskName>, c: Choice, i: nat)
    ensures var m := RecordedCount(c, i, |deferred|);
      && |Reversed(deferred)| == |deferred|
      && LastStored(s, JobContents(base, deferred), c, i).pluginsStarted
         == if m == 0 then s.pluginsStarted else base.pluginsStarted + Reversed(deferred)[..m]
  {
    JobsStoreList(s, base, deferred, c, i);
    ListStoredPart(s.pluginsStarted, base.pluginsStarted, deferred, c, i);
    RecordedPartIsFirst(deferred, c, i);
  }

  /** A launching pass stores the started list it found and the recorded ones of the jobs it launched. */
  lemma LaunchRecords(w: World, r: Resource, s: Status, c: Choice) returns (launches: seq<TaskName>,
      events: seq<Event>, m: nat)
    requires w.resource == Some(r) && s.pluginsStarted == r.status.pluginsStarted && NoDuplicates(c.pluginOrder)
    ensures var w' := Launch(w, r, s, c);
      w'.resource.Some? && w'.trail == w.trail + events && m <= |launches|
      && w'.resource.value.status.pluginsStarted == r.status.pluginsStarted + launches[..m]
    ensures LaunchedInTurn(events, launches, s.stage.task, m)
    ensures NoDuplicates(launches)
    ensures forall p :: p in launches ==>
      p in r.spec.plugins && p !in r.status.pluginsStarted && Triggers(r.spec.plugins[p], s.stage.task)
  {
    var scan := ScanPlugins(c.pluginOrder, r.spec.plugins, s.pluginsStarted, s.stage.task, c.sidecarsBuilt);
    ScanMeaning(c.pluginOrder, r.spec.plugins, s.pluginsStarted, s.stage.task, c.sidecarsBuilt);
    ReversedSame(scan.deferred);
    var started := LaunchStarts(w, r, s, c);
    var base := if started then Started(s) else s;
    var i := if started then 1 else 0;
    var first := if started && c.WriteOk(0) then Stored(base) else r.status;
    launches := Reversed(scan.deferred);
    events := JobEvents(scan.deferred, s.stage.task, c, i);
    m := RecordedCount(c, i, |scan.deferred|);
    JobEventsRecorded(scan.deferred, s.stage.task, c, i);
    JobsStored(first, base, scan.deferred, c, i);
    if started {
      assert Contents(s, started, scan.deferred)[1..] == JobContents(base, scan.deferred);
    } else {
      assert Contents(s, started, scan.deferred) == JobContents(base, scan.deferred);
    }
  }

  // ---------------------------------------------------------------------------------------------
  // Between two resets

  ghost predicate NoReset(events: seq<Event>) { PluginsReset !in events }

  /** `p` was launched on record since the last reset. */
  ghost predicate OnRecord(trail: seq<Event>, p: TaskName) {
    exists i :: 0 <= i < |trail| && trail[i].JobLaunched? && trail[i].plugin == p && trail[i].recorded
      && NoReset(trail[i + 1..])
  }

  /** The launches at `i` and `j` are of the same plugin and no reset is between them. */
  ghost predicate LaunchedTwice(trail: seq<Event>, i: nat, j: nat)
    requires i < j < |trail|
  {
    && trail[i].JobLaunched? && trail[j].JobLaunched?
    && trail[i].plugin == trail[j].plugin && NoReset(trail[i + 1..j])
  }

  /** Between two resets, no launch of a plugin follows one that was recorded. */
  ghost predicate OncePerReset(trail: seq<Event>) {
    forall i, j :: 0 <= i < j < |trail| && LaunchedTwice(trail, i, j) ==> !trail[i].recorded
  }

  ghost predicate InStep(w: World) {
    && OncePerReset(w.trail)
    && (w.resource.Some? ==>
          && WellStaged(w.resource.value)
          && NoDuplicates(w.resource.value.status.pluginsStarted)
          && forall p :: p in w.resource.value.status.pluginsStarted <==> OnRecord(w.trail, p))
  }

  lemma AppendOther(trail: seq<Event>, e: Event)
    requires OncePerReset(trail) && !e.JobLaunched?
    ensures OncePerReset(trail + [e])
    ensures forall p :: OnRecord(trail + [e], p) <==> (e != PluginsReset && OnRecord(trail, p))
  {
    var all := trail + [e];
    forall i, j | 0 <= i < j < |all| && LaunchedTwice(all, i, j) ensures !all[i].recorded {
      assert all[i + 1..j] == trail[i + 1..j];
      assert LaunchedTwice(trail, i, j);
    }
    forall p ensures OnRecord(all, p) <==> (e != PluginsReset && OnRecord(trail, p)) {
      RecordAppend(trail, e, p);
    }
  }

  lemma RecordAppend(trail: seq<Event>, e: Event, p: TaskName)
    ensures OnRecord(trail + [e], p)
       <==> (e.JobLaunched? && e.plugin == p && e.recorded) || (e != PluginsReset && OnRecord(trail, p))
  {
    var all := trail + [e];
    if OnRecord(all, p) {
      var i :| 0 <= i < |all| && all[i].JobLaunched? && all[i].plugin == p && all[i].recorded && NoReset(all[i + 1..]);
      if i < |trail| {
        assert all[i + 1..] == trail[i + 1..] + [e];
        assert trail[i].plugin == p;
      }
    }
    if e.JobLaunched? && e.plugin == p && e.recorded {
      assert all[|trail|] == e && all[|trail| + 1..] == [];
    } else if e != PluginsReset && OnRecord(trail, p) {
      var i :| 0 <= i < |trail| && trail[i].JobLaunched? && trail[i].plugin == p && trail[i].recorded
        && NoReset(trail[i + 1..]);
      assert all[i] == trail[i] && all[i + 1..] == trail[i + 1..] + [e];
    }
  }

  lemma AppendLaunch(trail: seq<Event>, e: Event)
    requires OncePerReset(trail) && e.JobLaunched? && !OnRecord(trail, e.plugin)
    ensures OncePerReset(trail + [e])
  {
    var all := trail + [e];
    forall i, j | 0 <= i < j < |all| && LaunchedTwice(all, i, j) ensures !all[i].recorded {
      assert all[i + 1..j] == trail[i + 1..j];
      if j == |trail| {
        assert trail[i + 1..j] == trail[i + 1..];
      } else {
        assert LaunchedTwice(trail, i, j);
      }
    }
  }

  lemma {:induction false} AppendLaunches(trail: seq<Event>, events: seq<Event>, launches: seq<TaskName>,
      task: TaskName, m: nat)
    requires OncePerReset(trail) && LaunchedInTurn(events, launches, task, m) && NoDuplicates(launches)
    requires forall p :: p in launches ==> !OnRecord(trail, p)
    ensures OncePerReset(trail + events)
    ensures forall p :: OnRecord(trail + events, p) <==> OnRecord(trail, p) || p in launches[..m]
    decreases events
  {
    if events == [] {
      assert trail + events == trail;
    } else {
      var n := |events| - 1;
      var e := events[n];
      var k := if m > n then n else m;
      AppendLaunches(trail, events[..n], launches[..n], task, k);
      assert trail + events == trail + events[..n] + [e];
      assert launches[..n][..k] == launches[..k];
      assert e.plugin !in launches[..n];
      AppendLaunch(trail + events[..n], e);
      forall p ensures OnRecord(trail + events, p) <==> OnRecord(trail, p) || p in launches[..m] {
        RecordAppend(trail + events[..n], e, p);
        assert m == n + 1 ==> launches[..m] == launches[..n] + [e.plugin];
      }
    }
  }

  lemma {:induction false} AppendOthers(trail: seq<Event>, events: seq<Event>)
    requires OncePerReset(trail) && forall e :: e in events ==> !e.JobLaunched? && e != PluginsReset
    ensures OncePerReset(trail + events)
    ensures forall p :: OnRecord(trail + events, p) <==> OnRecord(trail, p)
    decreases events
  {
    if events == [] {
      assert trail + events == trail;
    } else {
      AppendOthers(trail, events[..|events| - 1]);
      AppendOther(trail + events[..|events| - 1], events[|events| - 1]);
      assert trail + events == trail + events[..|events| - 1] + [events[|events| - 1]];
    }
  }

  lemma QuietStep(w: World, w': World, events: seq<Event>)
    requires InStep(w) && WellStagedWorld(w') && w'.trail == w.trail + events
    requires forall e :: e in events ==> !e.JobLaunched? && e != PluginsReset
    requires w'.resource.Some? ==>
      w.resource.Some? && w'.resource.value.status.pluginsStarted == w.resource.value.status.pluginsStarted
    ensures InStep(w')
  {
    AppendOthers(w.trail, events);
  }

  lemma ResetStep(w: World, w': World, entry: Event)
    requires InStep(w) && WellStagedWorld(w') && w'.trail == w.trail + ([entry] + [PluginsReset])
    requires entry.Entered? && w'.resource.Some? && w'.resource.value.status.pluginsStarted == []
    ensures InStep(w')
  {
    AppendOther(w.trail, entry);
    AppendOther(w.trail + [entry], PluginsReset);
    assert w'.trail == w.trail + [entry] + [PluginsReset];
  }

  lemma EnteringStep(w: World, c: Choice)
    requires KindOf(w, c).Entering? && InStep(w)
    ensures InStep(Pass(w, c))
  {
    EnteringStores(w, c);
    PassKeepsWellStaged(w, c);
    var m, w' := KindOf(w, c), Pass(w, c);
    NoticedKeeps(w.resource.value, w.clock);
    var entry := Entered(m.stage.generation, m.stage.task, m.cause);
    if !c.WriteOk(0) {
      QuietStep(w, w', []);
    } else if m.stage.reason == GenerationChange {
      ResetStep(w, w', entry);
    } else {
      assert [entry] + [] == [entry];
      QuietStep(w, w', [entry]);
    }
  }

  lemma OtherWork(w: World, r: Resource, s: Status, c: Choice) returns (events: seq<Event>)
    requires w.resource == Some(r) && !Launching(w, r, s, c) && s.pluginsStarted == r.status.pluginsStarted
    ensures var w' := Work(w, r, s, c);
      w'.resource.Some? && w'.resource.value.status.pluginsStarted == r.status.pluginsStarted
        && w'.trail == w.trail + events
    ensures forall e :: e in events ==> e.Completed?
  {
    var w' := Work(w, r, s, c);
    assert w.trail + [] == w.trail;
    events := w'.trail[|w.trail|..];
  }

  lemma StartedStays(started: seq<TaskName>, launches: seq<TaskName>, m: nat)
    requires NoDuplicates(started) && NoDuplicates(launches) && m <= |launches|
    requires forall p :: p in launches ==> p !in started
    ensures NoDuplicates(started + launches[..m])
  {
    forall i | 0 <= i < m ensures launches[..m][i] !in started {
      assert launches[..m][i] == launches[i];
    }
  }

  lemma WorkingStep(w: World, c: Choice)
    requires KindOf(w, c) == Working && InStep(w) && NoDuplicates(c.pluginOrder)
    ensures InStep(Pass(w, c))
  {
    PassKeepsWellStaged(w, c);
    var r, w' := w.resource.value, Pass(w, c);
    var s := Noticed(r, w.clock);
    NoticedKeeps(r, w.clock);
    var t, events := WorkingPass(w, c);
    if Launching(w, r, s, c) {
      var launches, launched, m := LaunchRecords(w, r, s, c);
      AppendLaunches(w.trail, launched, launches, s.stage.task, m);
      StartedStays(r.status.pluginsStarted, launches, m);
    } else {
      var completed := OtherWork(w, r, s, c);
      QuietStep(w, w', completed);
    }
  }

  lemma SavingStep(w: World, c: Choice)
    requires !KindOf(w, c).Entering? && KindOf(w, c) != Working && InStep(w)
    ensures InStep(Pass(w, c))
  {
    assert w.trail + [] == w.trail;
    PassKeepsWellStaged(w, c);
    var kind, w' := KindOf(w, c), Pass(w, c);
    if kind == Finalizers {
      var f := FinalizerPass(w, c);
      QuietStep(w, w', if w'.trail != w.trail then [FinalizerDropped] else []);
    } else if kind == Naming {
      QuietStep(w, w', []);
    } else if kind == First && c.WriteOk(0) {
      var entry := Entered(w.resource.value.generation, RunSetup, FirstStage);
      assert [entry, PluginsReset] == [entry] + [PluginsReset];
      ResetStep(w, w', entry);
    }
  }

  lemma NextInStep(w: World, step: Step)
    requires InStep(w) && (step.Controller? ==> NoDuplicates(step.choice.pluginOrder))
    ensures InStep(Next(w, step))
  {
    match step
    case Environment(e) =>
      NextKeepsWellStaged(w, step);
      assert w.trail + [] == w.trail;
      QuietStep(w, Next(w, step), []);
    case Controller(c) =>
      if KindOf(w, c).Entering? {
        EnteringStep(w, c);
      } else if KindOf(w, c) == Working {
        WorkingStep(w, c);
      } else {
        SavingStep(w, c);
      }
  }

  lemma {:induction false} RunInStep(w: World, steps: seq<Step>)
    requires IsFresh(w)
    requires forall i :: 0 <= i < |steps| && steps[i].Controller? ==> NoDuplicates(steps[i].choice.pluginOrder)
    ensures InStep(Run(w, steps))
    decreases steps
  {
    if steps != [] {
      RunInStep(w, steps[..|steps| - 1]);
      NextInStep(Run(w, steps[..|steps| - 1]), steps[|steps| - 1]);
    }
  }

  /** In every run whose passes range over the plugin map once each: between two resets of the started list no job
      of a plugin is launched after a launch that was recorded, and the list never holds a duplicate and is the
      list of the plugins launched on record since the last reset. So a plugin runs more than once only after
      the write recording its launch was lost. */
  lemma PluginsRunOnce(w: World, steps: seq<Step>)
    requires IsFresh(w)
    requires forall i :: 0 <= i < |steps| && steps[i].Controller? ==> NoDuplicates(steps[i].choice.pluginOrder)
    ensures var v := Run(w, steps);
      && OncePerReset(v.trail)
      && (v.resource.Some? ==>
            && NoDuplicates(v.resource.value.status.pluginsStarted)
            && forall p :: p in v.resource.value.status.pluginsStarted <==> OnRecord(v.trail, p))
  {
    RunInStep(w, steps);
  }

  /** The plugin is for after a task that comes before this one, or for this one. */
  predicate IsDue(p: Plugin, task: TaskName) {
    (p.when == WhenAfter && p.task.Id() < task.Id()) || (p.when == WhenAt && p.task.Id() == task.Id())
  }

  /** The launch is of a plugin of the resource that has not started and that the current stage triggers. */
  ghost predicate IsTriggered(r: Resource, e: Event) {
    && e.JobLaunched? && e.plugin in r.spec.plugins && e.plugin !in r.status.pluginsStarted
    && e.during == r.status.stage.task && r.status.stage.generation == r.generation
    && IsDue(r.spec.plugins[e.plugin], e.during)
  }

  ghost predicate AllTriggered(w: World, events: seq<Event>) {
    forall e :: e in events && e.JobLaunched? ==> w.resource.Some? && IsTriggered(w.resource.value, e)
  }

  lemma WorkIsTriggered(w: World, c: Choice) returns (events: seq<Event>)
    requires KindOf(w, c) == Working && NoDuplicates(c.pluginOrder)
    ensures Pass(w, c).trail == w.trail + events && AllTriggered(w, events)
  {
    var r := w.resource.value;
    var s := Noticed(r, w.clock);
    NoticedKeeps(r, w.clock);
    IdleStageIsCurrent(r, s, RetryPending(r), w.pods, c);
    var t, worked := WorkingPass(w, c);
    if Launching(w, r, s, c) {
      var launches, launched, m := LaunchRecords(w, r, s, c);
      events := launched;
    } else {
      events := OtherWork(w, r, s, c);
    }
  }

  /** A pass launches only plugins that the current stage triggers; in particular an After plugin is launched
      only for a stage whose task comes after its trigger. */
  lemma LaunchesAreTriggered(w: World, c: Choice) returns (events: seq<Event>)
    requires WellStagedWorld(w) && NoDuplicates(c.pluginOrder)
    ensures Pass(w, c).trail == w.trail + events && AllTriggered(w, events)
  {
    if KindOf(w, c) == Working {
      events := WorkIsTriggered(w, c);
    } else {
      events := OtherPass(w, c);
    }
  }

  // ---------------------------------------------------------------------------------------------
  // When no write is lost, and when one is

  ghost predicate StoresAll(c: Choice) {
    forall i: nat :: c.WriteOk(i)
  }

  ghost predicate AllRecorded(events: seq<Event>) {
    forall e :: e in events && e.JobLaunched? ==> e.recorded
  }

  lemma {:induction false} JobEventsAllRecorded(deferred: seq<TaskName>, task: TaskName, c: Choice, i: nat)
    requires StoresAll(c)
    ensures AllRecorded(JobEvents(deferred, task, c, i))
    decreases deferred
  {
    if deferred != [] {
      JobEventsAllRecorded(deferred[..|deferred| - 1], task, c, i + 1);
      assert c.WriteOk(i) && Recorded(c, i, i + |deferred|);
    }
  }

  lemma WorkRecords(w: World, c: Choice) returns (events: seq<Event>)
    requires KindOf(w, c) == Working && StoresAll(c)
    ensures Pass(w, c).trail == w.trail + events && AllRecorded(events)
  {
    var r := w.resource.value;
    var s := Noticed(r, w.clock);
    NoticedKeeps(r, w.clock);
    IdleStageIsCurrent(r, s, RetryPending(r), w.pods, c);
    var t, worked := WorkingPass(w, c);
    if Launching(w, r, s, c) {
      var scan := ScanPlugins(c.pluginOrder, r.spec.plugins, s.pluginsStarted, s.stage.task, c.sidecarsBuilt);
      var i := if LaunchStarts(w, r, s, c) then 1 else 0;
      events := JobEvents(scan.deferred, s.stage.task, c, i);
      JobEventsAllRecorded(scan.deferred, s.stage.task, c, i);
    } else {
      events := OtherWork(w, r, s, c);
    }
  }

  lemma PassRecords(w: World, c: Choice) returns (events: seq<Event>)
    requires WellStagedWorld(w) && StoresAll(c)
    ensures Pass(w, c).trail == w.trail + events && AllRecorded(events)
  {
    if KindOf(w, c) == Working {
      events := WorkRecords(w, c);
    } else {
      events := OtherPass(w, c);
    }
  }

  /** A pass that does not work on the stage launches nothing. */
  lemma OtherPass(w: World, c: Choice) returns (events: seq<Event>)
    requires WellStagedWorld(w) && KindOf(w, c) != Working
    ensures Pass(w, c).trail == w.trail + events && forall e :: e in events ==> !e.JobLaunched?
  {
    assert w.trail + [] == w.trail;
    events := [];
    var kind := KindOf(w, c);
    if kind.Entering? {
      EnteringStores(w, c);
      events := if c.WriteOk(0) then [Entered(kind.stage.generation, kind.stage.task, kind.cause)]
        + ResetEvents(kind.stage) else [];
    } else if kind == Finalizers {
      var f := FinalizerPass(w, c);
      events := if Pass(w, c).trail != w.trail then [FinalizerDropped] else [];
    } else if kind == First && c.WriteOk(0) {
      events := [Entered(w.resource.value.generation, RunSetup, FirstStage), PluginsReset];
    }
  }

  ghost predicate NothingLost(steps: seq<Step>) {
    forall i :: 0 <= i < |steps| && steps[i].Controller? ==>
      StoresAll(steps[i].choice) && NoDuplicates(steps[i].choice.pluginOrder)
  }

  lemma {:induction false} RunRecords(w: World, steps: seq<Step>)
    requires IsFresh(w) && NothingLost(steps)
    ensures AllRecorded(Run(w, steps).trail) && WellStagedWorld(Run(w, steps))
    decreases steps
  {
    if steps != [] {
      var v, step := Run(w, steps[..|steps| - 1]), steps[|steps| - 1];
      RunRecords(w, steps[..|steps| - 1]);
      NextKeepsWellStaged(v, step);
      match step
      case Environment(e) =>
      case Controller(c) => var events := PassRecords(v, c);
    }
  }

  /** As long as no status write is lost, each plugin has at most one job between two resets of the list. */
  lemma NothingLostRunsOnce(w: World, steps: seq<Step>)
    requires IsFresh(w) && NothingLost(steps)
    ensures var trail := Run(w, steps).trail;
      forall i, j :: 0 <= i < j < |trail| ==> !LaunchedTwice(trail, i, j)
  {
    PluginsRunOnce(w, steps);
    RunRecords(w, steps);
    var trail := Run(w, steps).trail;
    forall i, j | 0 <= i < j < |trail| ensures !LaunchedTwice(trail, i, j) {
      assert trail[i] in trail;
    }
  }

  // ---------------------------------------------------------------------------------------------
  // Exactly when a plugin is launched, and when a second time

  /** What a walk over the plugins goes by. */
  datatype Context = Context(plugins: map<TaskName, Plugin>, started: seq<TaskName>, task: TaskName,
      built: set<TaskName>)

  function ContextOf(r: Resource, s: Status, c: Choice): Context {
    Context(r.spec.plugins, s.pluginsStarted, s.stage.task, c.sidecarsBuilt)
  }

  /** The walk ends at the plugin: it is a sidecar of the task that must be built and was not. */
  predicate Stops(x: Context, p: TaskName) {
    && p in x.plugins && p !in x.started
    && x.plugins[p].when == WhenSidecar && x.plugins[p].task.Id() == x.task.Id() && x.plugins[p].must && p !in x.built
  }

  predicate PutsOff(x: Context, p: TaskName) { p in x.plugins && p !in x.started && IsDue(x.plugins[p], x.task) }

  /** The walk gets to the i-th plugin. */
  ghost predicate IsReached(x: Context, order: seq<TaskName>, i: nat)
    requires i <= |order|
  {
    forall j :: 0 <= j < i ==> !Stops(x, order[j])
  }

  ghost predicate GetsTo(x: Context, order: seq<TaskName>, p: TaskName) {
    exists i :: 0 <= i < |order| && order[i] == p && IsReached(x, order, i)
  }

  lemma GetsToRest(x: Context, order: seq<TaskName>, p: TaskName)
    requires order != [] && GetsTo(x, order, p)
    ensures p == order[0] || (!Stops(x, order[0]) && GetsTo(x, order[1..], p))
  {
    var rest := order[1..];
    var i :| 0 <= i < |order| && order[i] == p && IsReached(x, order, i);
    if i > 0 {
      assert rest[i - 1] == p && forall j :: 0 <= j < i - 1 ==> rest[j] == order[j + 1];
      assert IsReached(x, rest, i - 1);
    }
  }

  lemma GetsToFromRest(x: Context, order: seq<TaskName>, p: TaskName)
    requires order != [] && (p == order[0] || (!Stops(x, order[0]) && GetsTo(x, order[1..], p)))
    ensures GetsTo(x, order, p)
  {
    var rest := order[1..];
    if p == order[0] {
      assert IsReached(x, order, 0);
    } else {
      var i :| 0 <= i < |rest| && rest[i] == p && IsReached(x, rest, i);
      assert order[i + 1] == p && forall j :: 0 < j < i + 1 ==> order[j] == rest[j - 1];
      assert IsReached(x, order, i + 1);
    }
  }

  lemma {:induction false} PutOffIff(x: Context, order: seq<TaskName>, p: TaskName)
    ensures p in ScanPlugins(order, x.plugins, x.started, x.task, x.built).deferred <==>
      PutsOff(x, p) && GetsTo(x, order, p)
  {
    if order != [] {
      PutOffIff(x, order[1..], p);
      if GetsTo(x, order, p) {
        GetsToRest(x, order, p);
      }
      if p == order[0] || (!Stops(x, order[0]) && GetsTo(x, order[1..], p)) {
        GetsToFromRest(x, order, p);
      }
    }
  }

  /** A walk ends early exactly if it meets a sidecar of the task that must be built and was not. */
  lemma {:induction false} AbortsIff(x: Context, order: seq<TaskName>)
    ensures ScanPlugins(order, x.plugins, x.started, x.task, x.built).aborted <==>
      exists p :: p in order && Stops(x, p)
  {
    if order != [] {
      AbortsIff(x, order[1..]);
      assert order[0] in order && forall p :: p in order <==> p == order[0] || p in order[1..];
      if exists p :: p in order[1..] && Stops(x, p) {
        var p :| p in order[1..] && Stops(x, p);
        assert p in order;
      }
    }
  }

  /** The pass is launching, its walk gets to the plugin, the plugin is due at the stage's task, and no launch of it
      is on record since the last reset. */
  ghost predicate WillLaunch(w: World, c: Choice, p: TaskName) {
    && KindOf(w, c) == Working
    && var r, s := w.resource.value, Noticed(w.resource.value, w.clock);
    && Launching(w, r, s, c) && GetsTo(ContextOf(r, s, c), c.pluginOrder, p)
    && p in r.spec.plugins && IsDue(r.spec.plugins[p], s.stage.task) && !OnRecord(w.trail, p)
  }

  /** The events are launches of the plugins, one after another. */
  ghost predicate AreLaunches(events: seq<Event>, launches: seq<TaskName>) {
    && |events| == |launches|
    && forall k :: 0 <= k < |events| ==> events[k].JobLaunched? && events[k].plugin == launches[k]
  }

  lemma WorkLaunches(w: World, c: Choice) returns (events: seq<Event>, launches: seq<TaskName>)
    requires InStep(w) && KindOf(w, c) == Working && NoDuplicates(c.pluginOrder)
    requires Launching(w, w.resource.value, Noticed(w.resource.value, w.clock), c)
    ensures Pass(w, c).trail == w.trail + events && AreLaunches(events, launches) && NoDuplicates(launches)
    ensures forall p :: p in launches <==> WillLaunch(w, c, p)
  {
    var r, s := w.resource.value, Noticed(w.resource.value, w.clock);
    NoticedKeeps(r, w.clock);
    var t, worked := WorkingPass(w, c);
    var scan := ScanPlugins(c.pluginOrder, r.spec.plugins, s.pluginsStarted, s.stage.task, c.sidecarsBuilt);
    var i := if LaunchStarts(w, r, s, c) then 1 else 0;
    events, launches := JobEvents(scan.deferred, s.stage.task, c, i), Reversed(scan.deferred);
    JobEventsRecorded(scan.deferred, s.stage.task, c, i);
    ReversedSame(scan.deferred);
    ScanMeaning(c.pluginOrder, r.spec.plugins, s.pluginsStarted, s.stage.task, c.sidecarsBuilt);
    forall p ensures p in launches <==> WillLaunch(w, c, p) {
      PutOffIff(ContextOf(r, s, c), c.pluginOrder, p);
    }
  }

  /** What a pass launches, one job a plugin: exactly the plugins it will launch. */
  lemma PassLaunches(w: World, c: Choice) returns (events: seq<Event>, launches: seq<TaskName>)
    requires InStep(w) && NoDuplicates(c.pluginOrder)
    ensures Pass(w, c).trail == w.trail + events && NoDuplicates(launches)
    ensures AreLaunches(events, launches) || (launches == [] && forall e :: e in events ==> !e.JobLaunched?)
    ensures forall p :: p in launches <==> WillLaunch(w, c, p)
  {
    if KindOf(w, c) == Working {
      var r, s := w.resource.value, Noticed(w.resource.value, w.clock);
      if Launching(w, r, s, c) {
        events, launches := WorkLaunches(w, c);
      } else {
        NoticedKeeps(r, w.clock);
        var t, worked := WorkingPass(w, c);
        events := OtherWork(w, r, s, c);
        launches := [];
      }
    } else {
      events := OtherPass(w, c);
      launches := [];
    }
  }

  /** `p` was launched since the last reset. */
  ghost predicate LaunchedSince(trail: seq<Event>, p: TaskName) {
    exists i :: 0 <= i < |trail| && trail[i].JobLaunched? && trail[i].plugin == p && NoReset(trail[i + 1..])
  }

  /** Some plugin has two launches without a reset in between. */
  ghost predicate HasRepeat(trail: seq<Event>) {
    exists i, j :: 0 <= i < j < |trail| && LaunchedTwice(trail, i, j)
  }

  lemma RepeatStays(trail: seq<Event>, more: seq<Event>)
    requires HasRepeat(trail)
    ensures HasRepeat(trail + more)
  {
    var i, j :| 0 <= i < j < |trail| && LaunchedTwice(trail, i, j);
    var all := trail + more;
    assert all[i] == trail[i] && all[j] == trail[j] && all[i + 1..j] == trail[i + 1..j];
    assert LaunchedTwice(all, i, j);
  }

  lemma NoResetAcross(trail: seq<Event>, events: seq<Event>, i: nat, k: nat)
    requires i <= |trail| && NoReset(trail[i..])
    requires k <= |events| && forall l :: 0 <= l < k ==> events[l] != PluginsReset
    ensures NoReset((trail + events)[i..|trail| + k])
  {
    var after, between := trail[i..], (trail + events)[i..|trail| + k];
    forall l | 0 <= l < |between| ensures between[l] != PluginsReset {
      assert between[l] == if l < |after| then after[l] else events[l - |after|];
    }
  }

  lemma RepeatAcross(trail: seq<Event>, events: seq<Event>, k: nat)
    requires k < |events| && events[k].JobLaunched? && LaunchedSince(trail, events[k].plugin)
    requires forall l :: 0 <= l < k ==> events[l] != PluginsReset
    ensures HasRepeat(trail + events)
  {
    var p := events[k].plugin;
    var i :| 0 <= i < |trail| && trail[i].JobLaunched? && trail[i].plugin == p && NoReset(trail[i + 1..]);
    var all, j := trail + events, |trail| + k;
    assert all[i] == trail[i] && all[j] == events[k];
    NoResetAcross(trail, events, i + 1, k);
    assert LaunchedTwice(all, i, j);
  }

  lemma RepeatBefore(trail: seq<Event>, events: seq<Event>, i: nat, j: nat)
    requires i < j < |trail| && LaunchedTwice(trail + events, i, j)
    ensures HasRepeat(trail)
  {
    var all := trail + events;
    assert all[i] == trail[i] && all[j] == trail[j] && all[i + 1..j] == trail[i + 1..j];
    assert LaunchedTwice(trail, i, j);
  }

  lemma RepeatSince(trail: seq<Event>, events: seq<Event>, i: nat, j: nat)
    requires i < |trail| <= j < |trail + events| && LaunchedTwice(trail + events, i, j)
    ensures LaunchedSince(trail, (trail + events)[j].plugin)
  {
    var all := trail + events;
    assert all[i] == trail[i];
    var after := trail[i + 1..];
    forall e | e in after ensures e != PluginsReset {
      var l :| 0 <= l < |after| && after[l] == e;
      assert all[i + 1..j][l] == e;
    }
  }

  lemma RepeatWithin(trail: seq<Event>, events: seq<Event>, launches: seq<TaskName>, i: nat, j: nat)
    requires |trail| <= i < j < |trail + events| && LaunchedTwice(trail + events, i, j) && AreLaunches(events, launches)
    ensures !NoDuplicates(launches)
  {
    var a, b := i - |trail|, j - |trail|;
    assert (trail + events)[i] == events[a] && (trail + events)[j] == events[b];
    assert launches[a] == launches[b];
  }

  /** A repeat that launches bring about is of a plugin launched before. */
  lemma RepeatIsAcross(trail: seq<Event>, events: seq<Event>, launches: seq<TaskName>)
    requires AreLaunches(events, launches) && NoDuplicates(launches) && HasRepeat(trail + events)
    ensures HasRepeat(trail) || exists p :: p in launches && LaunchedSince(trail, p)
  {
    var i, j :| 0 <= i < j < |trail + events| && LaunchedTwice(trail + events, i, j);
    if j < |trail| {
      RepeatBefore(trail, events, i, j);
    } else if i < |trail| {
      RepeatSince(trail, events, i, j);
      assert (trail + events)[j] == events[j - |trail|] && launches[j - |trail|] in launches;
    } else {
      RepeatWithin(trail, events, launches, i, j);
    }
  }

  lemma NoLaunchNoRepeat(trail: seq<Event>, events: seq<Event>)
    requires HasRepeat(trail + events) && forall e :: e in events ==> !e.JobLaunched?
    ensures HasRepeat(trail)
  {
    var i, j :| 0 <= i < j < |trail + events| && LaunchedTwice(trail + events, i, j);
    if j < |trail| {
      RepeatBefore(trail, events, i, j);
    }
  }

  /** The step is a pass that will launch a plugin which was launched since the last reset, always off the record. */
  ghost predicate RepeatsAt(w: World, step: Step) {
    step.Controller? && exists p :: WillLaunch(w, step.choice, p) && LaunchedSince(w.trail, p)
  }

  lemma StepRepeatsIff(w: World, step: Step)
    requires InStep(w) && (step.Controller? ==> NoDuplicates(step.choice.pluginOrder))
    ensures HasRepeat(Next(w, step).trail) <==> HasRepeat(w.trail) || RepeatsAt(w, step)
  {
    match step
    case Environment(e) =>
    case Controller(c) =>
      var events, launches := PassLaunches(w, c);
      if HasRepeat(w.trail) {
        RepeatStays(w.trail, events);
      }
      if HasRepeat(w.trail + events) && !HasRepeat(w.trail) {
        if AreLaunches(events, launches) {
          RepeatIsAcross(w.trail, events, launches);
        } else {
          NoLaunchNoRepeat(w.trail, events);
        }
      }
      if RepeatsAt(w, step) {
        var p :| WillLaunch(w, c, p) && LaunchedSince(w.trail, p);
        var k :| 0 <= k < |launches| && launches[k] == p;
        RepeatAcross(w.trail, events, k);
      }
  }

  ghost predicate OrdersRepeatNothing(steps: seq<Step>) {
    forall i :: 0 <= i < |steps| && steps[i].Controller? ==> NoDuplicates(steps[i].choice.pluginOrder)
  }

  /** The step number `k` of the run repeats a launch. */
  ghost predicate RepeatsIn(w: World, steps: seq<Step>, k: nat) {
    k < |steps| && RepeatsAt(Run(w, steps[..k]), steps[k])
  }

  ghost predicate RepeatsSomewhere(w: World, steps: seq<Step>) {
    exists k: nat :: RepeatsIn(w, steps, k)
  }

  lemma RepeatsInBefore(w: World, before: seq<Step>, step: Step, k: nat)
    ensures RepeatsIn(w, before + [step], k) <==>
      if k == |before| then RepeatsAt(Run(w, before), step) else RepeatsIn(w, before, k)
  {
    var steps := before + [step];
    if k <= |before| {
      assert steps[..k] == before[..k];
      assert k < |before| ==> steps[k] == before[k];
      assert before[..|before|] == before;
    }
  }

  lemma RepeatsSomewhereNext(w: World, before: seq<Step>, step: Step)
    ensures RepeatsSomewhere(w, before + [step]) <==> RepeatsSomewhere(w, before) || RepeatsAt(Run(w, before), step)
  {
    if RepeatsSomewhere(w, before + [step]) {
      var k: nat :| RepeatsIn(w, before + [step], k);
      RepeatsInBefore(w, before, step, k);
    }
    if RepeatsSomewhere(w, before) {
      var k: nat :| RepeatsIn(w, before, k);
      RepeatsInBefore(w, before, step, k);
    }
    RepeatsInBefore(w, before, step, |before|);
  }

  /** Over any run, a plugin has two jobs between two resets of the started list if and only if some pass launches one
      whose earlier launches since the last reset all went unrecorded. */
  lemma {:induction false} RepeatsIff(w: World, steps: seq<Step>)
    requires IsFresh(w) && OrdersRepeatNothing(steps)
    ensures HasRepeat(Run(w, steps).trail) <==> RepeatsSomewhere(w, steps)
    decreases steps
  {
    if steps != [] {
      var before, step := steps[..|steps| - 1], steps[|steps| - 1];
      assert steps == before + [step];
      RepeatsIff(w, before);
      RunInStep(w, before);
      StepRepeatsIff(Run(w, before), step);
      RepeatsSomewhereNext(w, before, step);
    }
  }

  function ScanOf(w: World, c: Choice): Scan
    requires w.resource.Some?
  {
    var r, s := w.resource.value, Noticed(w.resource.value, w.clock);
    ScanPlugins(c.pluginOrder, r.spec.plugins, s.pluginsStarted, s.stage.task, c.sidecarsBuilt)
  }

  /** The pass is launching, its set-up fails and the writes of its jobs are lost. */
  ghost predicate LosesLaunches(w: World, c: Choice) {
    && KindOf(w, c) == Working && Launching(w, w.resource.value, Noticed(w.resource.value, w.clock), c)
    && !c.setupOk && forall i: nat :: i < |ScanOf(w, c).deferred| ==> !c.WriteOk(i)
  }

  /** Such a pass launches its jobs and leaves all else as it was. */
  lemma LosingPass(w: World, c: Choice)
    requires LosesLaunches(w, c)
    ensures var events := JobEvents(ScanOf(w, c).deferred, w.resource.value.status.stage.task, c, 0);
      Pass(w, c) == w.(trail := w.trail + events)
  {
    var r, s := w.resource.value, Noticed(w.resource.value, w.clock);
    NoticedKeeps(r, w.clock);
    var scan := ScanOf(w, c);
    var t, worked := WorkingPass(w, c);
    JobContentsSame(s, s, scan.deferred);
    assert [] + JobContents(s, scan.deferred) == JobContents(s, scan.deferred);
    LostStatus(r.status, Contents(s, false, scan.deferred), c, 0);
    assert Pass(w, c) == Launch(w, r, s, c);
  }

  lemma {:induction false} LostStatus(s: Status, contents: seq<Status>, c: Choice, i: nat)
    requires forall k: nat :: i <= k < i + |contents| ==> !c.WriteOk(k)
    ensures LastStored(s, contents, c, i) == s
    decreases contents
  {
    if contents != [] {
      LostStatus(s, contents[1..], c, i + 1);
    }
  }

  /** What a pass decides does not depend on the trail. */
  lemma TrailIsNotRead(w: World, c: Choice, trail: seq<Event>)
    ensures LosesLaunches(w, c) <==> LosesLaunches(w.(trail := trail), c)
  {
  }

  /** Two such passes in a row launch each of the jobs twice. */
  lemma LostLaunchRepeats(w: World, c: Choice)
    requires LosesLaunches(w, c) && ScanOf(w, c).deferred != []
    ensures HasRepeat(Pass(Pass(w, c), c).trail)
  {
    var deferred, task := ScanOf(w, c).deferred, w.resource.value.status.stage.task;
    var events := JobEvents(deferred, task, c, 0);
    LosingPass(w, c);
    var once := Pass(w, c);
    TrailIsNotRead(w, c, w.trail + events);
    LosingPass(once, c);
    JobEventsAreLaunches(deferred, task, c, 0);
    LaunchedByLast(w.trail, events);
    RepeatAcross(w.trail + events, events, 0);
  }

  lemma LaunchedByLast(trail: seq<Event>, events: seq<Event>)
    requires events != [] && forall k :: 0 <= k < |events| ==> events[k].JobLaunched?
    ensures LaunchedSince(trail + events, events[0].plugin)
  {
    var all := trail + events;
    assert all[|trail|] == events[0] && all[|trail| + 1..] == events[1..];
    assert NoReset(events[1..]);
  }

  // ---------------------------------------------------------------------------------------------
  // A run with a repeat

  const EXAMPLE_PLUGIN: TaskName := Custom("plugin")

  /** A resource with one plugin at setup, whose deletion is ignored. */
  const EXAMPLE_SPEC: Spec :=
    Spec(true, [], map[EXAMPLE_PLUGIN := Plugin(WhenAt, RunSetup, false)], false, false, false)

  const EXAMPLE_WORLD: World :=
    World(Some(Resource(1, false, None, [], EXAMPLE_SPEC, NO_STATUS)), [], {}, Instant(0, false), 0, [])

  /** A pass in which set-up fails, and which stores its first write or loses it. */
  function ExampleChoice(stored: bool): Choice {
    Choice(true, true, true, true, true, true, false, true, true, true, [EXAMPLE_PLUGIN], {}, "example", [stored])
  }

  /** The first stage is entered and its pod is still to be made. */
  ghost predicate AtSetup(w: World) {
    && w.resource.Some? && w.pods == []
    && var r := w.resource.value;
    && r.spec == EXAMPLE_SPEC && r.changeCause.None? && !r.deletionRequested && r.generation == 1 && r.finalizers == []
    && r.status.phase == PhaseInitializing && r.status.prefix.Some? && r.status.pluginsStarted == []
    && r.status.stage.generation == 1 && r.status.stage.task == RunSetup && r.status.stage.state == StateInitializing
  }

  lemma ExampleNamed()
    ensures var w := Pass(EXAMPLE_WORLD, ExampleChoice(true));
      w == EXAMPLE_WORLD.(resource := Some(EXAMPLE_WORLD.resource.value.(
             status := NO_STATUS.(prefix := Some("example"), phase := PhaseInitializing))))
  {
    assert EXAMPLE_WORLD.trail + [] == EXAMPLE_WORLD.trail;
  }

  lemma ExampleStaged()
    ensures AtSetup(Pass(Pass(EXAMPLE_WORLD, ExampleChoice(true)), ExampleChoice(true)))
  {
    ExampleNamed();
  }

  lemma ExampleLoses(w: World)
    requires AtSetup(w)
    ensures LosesLaunches(w, ExampleChoice(false)) && ScanOf(w, ExampleChoice(false)).deferred == [EXAMPLE_PLUGIN]
  {
    var c := ExampleChoice(false);
    assert c.pluginOrder[1..] == [];
    assert ScanPlugins([], EXAMPLE_SPEC.plugins, [], RunSetup, {}) == Scan([], false);
  }

  lemma SetupRepeats(w: World)
    requires AtSetup(w)
    ensures HasRepeat(Pass(Pass(w, ExampleChoice(false)), ExampleChoice(false)).trail)
  {
    ExampleLoses(w);
    LostLaunchRepeats(w, ExampleChoice(false));
  }

  const EXAMPLE_START: seq<Step> := [Controller(ExampleChoice(true)), Controller(ExampleChoice(true))]

  const EXAMPLE_LOSS: seq<Step> := [Controller(ExampleChoice(false)), Controller(ExampleChoice(false))]

  lemma RunOfTwo(w: World, before: seq<Step>, steps: seq<Step>)
    requires |steps| == 2
    ensures Run(w, before + steps) == Next(Next(Run(w, before), steps[0]), steps[1])
  {
    var all, one := before + steps, before + [steps[0]];
    assert all[..|all| - 1] == one && one[..|one| - 1] == before;
  }

  lemma ExampleReachesSetup()
    ensures AtSetup(Run(EXAMPLE_WORLD, EXAMPLE_START))
  {
    ExampleStaged();
    RunOfTwo(EXAMPLE_WORLD, [], EXAMPLE_START);
    assert [] + EXAMPLE_START == EXAMPLE_START;
  }

  lemma LossRepeats(w: World, before: seq<Step>)
    requires AtSetup(Run(w, before))
    ensures HasRepeat(Run(w, before + EXAMPLE_LOSS).trail)
  {
    SetupRepeats(Run(w, before));
    RunOfTwo(w, before, EXAMPLE_LOSS);
  }

  /** From a newly created resource a plugin can be launched twice without a reset in between: its name and first stage
      are stored, and then set-up fails twice and the write is lost twice. */
  lemma ExampleRepeats()
    ensures var steps := EXAMPLE_START + EXAMPLE_LOSS;
      IsFresh(EXAMPLE_WORLD) && OrdersRepeatNothing(steps) && HasRepeat(Run(EXAMPLE_WORLD, steps).trail)
  {
    ExampleReachesSetup();
    LossRepeats(EXAMPLE_WORLD, EXAMPLE_START);
  }
}
