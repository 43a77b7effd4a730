/** Facts about single passes that the theorems about runs share. */
module WorkflowFacts {
  import opened Wrappers
  import opened Tasks
  import opened Workflow

  /** `t` is `s` up to the list of started plugins. */
  ghost predicate SameButPlugins(s: Status, t: Status) {
    s.(pluginsStarted := []) == t.(pluginsStarted := [])
  }

  lemma {:induction false} LastStoredIsContent(s: Status, contents: seq<Status>, base: Status, c: Choice, i: nat)
    requires forall k :: 0 <= k < |contents| ==> SameButPlugins(contents[k], base)
    ensures LastStored(s, contents, c, i) == s || SameButPlugins(LastStored(s, contents, c, i), Stored(base))
    decreases contents
  {
    if contents != [] {
      assert SameButPlugins(contents[0], base);
      var t := if c.WriteOk(i) then Stored(contents[0]) else s;
      assert forall k :: 0 <= k < |contents[1..]| ==> contents[1..][k] == contents[k + 1];
      LastStoredIsContent(t, contents[1..], base, c, i + 1);
    }
  }

  lemma {:induction false} JobContentsSame(s: Status, base: Status, deferred: seq<TaskName>)
    requires SameButPlugins(s, base)
    ensures |JobContents(s, deferred)| == |deferred|
    ensures forall k :: 0 <= k < |deferred| ==> SameButPlugins(JobContents(s, deferred)[k], base)
    decreases deferred
  {
    if deferred != [] {
      var next := s.(pluginsStarted := s.pluginsStarted + [deferred[|deferred| - 1]]);
      JobContentsSame(next, base, deferred[..|deferred| - 1]);
    }
  }

  /** The stage's pod is not there and is to be made. */
  predicate Launching(w: World, r: Resource, s: Status, c: Choice) {
    s.stage.task != RunNil && c.listOk && Lookup(w.pods, s) == [] && s.stage.state != StateInProgress
  }

  /** No call that a launching pass makes fails. */
  ghost predicate CallsSucceed(r: Resource, s: Status, c: Choice) {
    && !ScanPlugins(c.pluginOrder, r.spec.plugins, s.pluginsStarted, s.stage.task, c.sidecarsBuilt).aborted
    && ((s.stage.task == RunPlan || s.stage.task == RunPlanDelete) && r.spec.requireApproval ==> c.approvalOk)
    && c.setupOk && c.podOk
  }

  ghost predicate LaunchStarts(w: World, r: Resource, s: Status, c: Choice) {
    CallsSucceed(r, s, c) && HasObjects(w, r, s)
  }

  /** A launching pass stores nothing, or the status it worked on, with the stage in progress if it made the pod. */
  lemma LaunchStatus(w: World, r: Resource, s: Status, c: Choice)
    ensures var w' := Launch(w, r, s, c);
      && w'.resource.Some? && w'.resource.value.(status := r.status) == r
      && (w'.resource.value.status == r.status
          || SameButPlugins(w'.resource.value.status, Stored(if LaunchStarts(w, r, s, c) then Started(s) else s)))
  {
    var scan := ScanPlugins(c.pluginOrder, r.spec.plugins, s.pluginsStarted, s.stage.task, c.sidecarsBuilt);
    var started := LaunchStarts(w, r, s, c);
    var base := if started then Started(s) else s;
    JobContentsSame(base, base, scan.deferred);
    LastStoredIsContent(r.status, Contents(s, started, scan.deferred), base, c, 0);
  }

  lemma {:induction false} JobEventsAreLaunches(deferred: seq<TaskName>, task: TaskName, c: Choice, i: nat)
    ensures |JobEvents(deferred, task, c, i)| == |deferred|
    ensures forall k :: 0 <= k < |deferred| ==> JobEvents(deferred, task, c, i)[k].JobLaunched?
    decreases deferred
  {
    if deferred != [] {
      JobEventsAreLaunches(deferred[..|deferred| - 1], task, c, i + 1);
    }
  }

  lemma {:induction false} LookupMeaning(pods: seq<Pod>, s: Status)
    ensures forall p :: p in Lookup(pods, s) <==> p in pods && Matches(p, s) && Survives(p, s.retryTimestamp)
  {
    if pods != [] {
      assert pods == [pods[0]] + pods[1..];
      LookupMeaning(pods[1..], s);
    }
  }

  lemma {:induction false} LookupNone(pods: seq<Pod>, s: Status)
    requires forall p :: p in pods ==> !Matches(p, s)
    ensures Lookup(pods, s) == []
  {
    if pods != [] {
      LookupNone(pods[1..], s);
    }
  }

  /** The stage a pass works on is the stored one, and a retry needs a label. */
  lemma NoticedKeeps(r: Resource, clock: Instant)
    ensures var s := Noticed(r, clock);
      && s.stage == r.status.stage && s.prefix == r.status.prefix && s.pluginsStarted == r.status.pluginsStarted
      && (RetryPending(r) ==> s.retryReason.Some? && s.phase == PhaseInitializing)
      && (!RetryPending(r) ==> s == NoticeDeletion(r))
  {
  }

  predicate StageTask(t: TaskName) { t == RunNil || IsWorkflowTask(t) }

  /** The stages a pass may enter, by cause. */
  ghost predicate MoveFits(r: Resource, s: Status, isRetry: bool, pods: seq<Pod>, c: Choice, stage: Stage,
      cause: Cause) {
    match cause
    case FirstStage => false
    case Advance =>
      && !isRetry && s.stage.generation == r.generation && s.stage.state == StateComplete
         && IsWorkflowTask(s.stage.task)
      && stage.reason == CompletedTask(s.stage.task)
      && IsNextTask(s.stage.task, ConfiguredTasks(r.spec.optionTasks), stage.task)
    case NewGeneration =>
      && s.stage.generation != r.generation
      && (if IsDeletePhase(s.phase) then stage.task == RunSetupDelete && stage.reason == ResourceDeleted
          else stage.task == RunSetup && stage.reason == GenerationChange)
    case Retry =>
      && isRetry && s.stage.generation == r.generation && s.retryReason.Some?
      && (if IsDeletePhase(s.phase) then stage.task == RunSetupDelete || stage.task == RunInitDelete
          else stage.task == RunSetup || stage.task == RunInit)
      && stage.reason == ReasonOfLabel(s.retryReason.value)
    case Restart =>
      && !isRetry && s.stage.generation == r.generation && s.stage.state == StateFailed
         && PodGone(pods, s.stage.podName, c)
      && ((s.stage.task == RunApply && (stage.task == RunPrePlan || stage.task == RunPlan)
           && stage.reason == RestartedWorkflow)
          || (s.stage.task == RunApplyDelete && (stage.task == RunPrePlanDelete || stage.task == RunPlanDelete)
              && stage.reason == RestartedDeleteWorkflow))
  }

  ghost predicate FreshStage(r: Resource, stage: Stage) {
    && stage == NewStage(r.generation, stage.task, stage.reason, stage.interruptible,
                         if stage.task == RunNil then StateComplete else StateInitializing)
    && StageTask(stage.task)
  }

  predicate PlanOrBefore(point: TaskName, next: TaskName) {
    if point.RunPostInit? then next == RunPrePlan || next == RunPlan
    else next == RunPrePlanDelete || next == RunPlanDelete
  }

  lemma RestartTask(options: seq<seq<TaskName>>, point: TaskName)
    requires point.RunPostInit? || point.RunPostInitDelete?
    ensures PlanOrBefore(point, NextTask(point, ConfiguredTasks(options)))
  {
    RestartLandsOnPlan(options, point);
  }

  /** The stage a restart enters. */
  function RestartStage(r: Resource, next: TaskName, reason: Reason): Stage {
    NewStage(r.generation, next, reason, !Uninterruptible(next), StateInitializing)
  }

  lemma RestartIsFresh(r: Resource, point: TaskName, next: TaskName, reason: Reason)
    requires PlanOrBefore(point, next)
    ensures FreshStage(r, RestartStage(r, next, reason)) && RestartStage(r, next, reason).reason == reason
  {
  }

  lemma RestartMeaning(r: Resource, point: TaskName, reason: Reason)
    requires point.RunPostInit? || point.RunPostInitDelete?
    ensures var m := RestartAfter(r, point, reason);
      m.Enter? && m.cause == Restart && FreshStage(r, m.stage) && m.stage.reason == reason
        && PlanOrBefore(point, m.stage.task)
  {
    var next := NextTask(point, ConfiguredTasks(r.spec.optionTasks));
    RestartTask(r.spec.optionTasks, point);
    RestartIsFresh(r, point, next, reason);
    assert RestartAfter(r, point, reason) == Enter(RestartStage(r, next, reason), Restart);
  }

  lemma AdvanceIs(r: Resource, s: Status, isRetry: bool, pods: seq<Pod>, c: Choice)
    requires isRetry ==> s.retryReason.Some?
    ensures var m, next := CheckSetNewStage(r, s, isRetry, pods, c),
            NextTask(s.stage.task, ConfiguredTasks(r.spec.optionTasks));
      m.Enter? && m.cause == Advance ==>
        && !isRetry && s.stage.generation == r.generation && s.stage.state == StateComplete && s.stage.task != RunNil
        && m.stage == NewStage(r.generation, next, CompletedTask(s.stage.task), !Uninterruptible(next),
                               if next == RunNil then StateComplete else StateInitializing)
  {
  }

  lemma AdvanceMeaning(r: Resource, s: Status, isRetry: bool, pods: seq<Pod>, c: Choice)
    requires isRetry ==> s.retryReason.Some?
    requires StageTask(s.stage.task)
    ensures var m := CheckSetNewStage(r, s, isRetry, pods, c);
      m.Enter? && m.cause == Advance ==> FreshStage(r, m.stage) && MoveFits(r, s, isRetry, pods, c, m.stage, m.cause)
  {
    AdvanceIs(r, s, isRetry, pods, c);
    if IsWorkflowTask(s.stage.task) {
      NextTaskMeaning(s.stage.task, ConfiguredTasks(r.spec.optionTasks));
    }
  }

  lemma RestartMoveMeaning(r: Resource, s: Status, isRetry: bool, pods: seq<Pod>, c: Choice)
    requires isRetry ==> s.retryReason.Some?
    requires StageTask(s.stage.task)
    ensures var m := CheckSetNewStage(r, s, isRetry, pods, c);
      m.Enter? && m.cause == Restart ==> FreshStage(r, m.stage) && MoveFits(r, s, isRetry, pods, c, m.stage, m.cause)
  {
    RestartMeaning(r, RunPostInit, RestartedWorkflow);
    RestartMeaning(r, RunPostInitDelete, RestartedDeleteWorkflow);
  }

  lemma RetryMeaning(r: Resource, s: Status, isRetry: bool, pods: seq<Pod>, c: Choice)
    requires isRetry ==> s.retryReason.Some?
    requires StageTask(s.stage.task)
    ensures var m := CheckSetNewStage(r, s, isRetry, pods, c);
      m.Enter? && m.cause == Retry ==> FreshStage(r, m.stage) && MoveFits(r, s, isRetry, pods, c, m.stage, m.cause)
  {
  }

  lemma NewGenerationMeaning(r: Resource, s: Status, isRetry: bool, pods: seq<Pod>, c: Choice)
    requires isRetry ==> s.retryReason.Some?
    requires StageTask(s.stage.task)
    ensures var m := CheckSetNewStage(r, s, isRetry, pods, c);
      m.Enter? && m.cause == NewGeneration ==>
        FreshStage(r, m.stage) && MoveFits(r, s, isRetry, pods, c, m.stage, m.cause)
  {
  }

  lemma MoveMeaning(r: Resource, s: Status, isRetry: bool, pods: seq<Pod>, c: Choice)
    requires isRetry ==> s.retryReason.Some?
    requires StageTask(s.stage.task)
    ensures var m := CheckSetNewStage(r, s, isRetry, pods, c);
      m.Enter? ==> FreshStage(r, m.stage) && MoveFits(r, s, isRetry, pods, c, m.stage, m.cause)
  {
    var m := CheckSetNewStage(r, s, isRetry, pods, c);
    if m.Enter? {
      match m.cause
      case Advance => AdvanceMeaning(r, s, isRetry, pods, c);
      case Restart => RestartMoveMeaning(r, s, isRetry, pods, c);
      case Retry => RetryMeaning(r, s, isRetry, pods, c);
      case NewGeneration => NewGenerationMeaning(r, s, isRetry, pods, c);
      case FirstStage =>
    }
  }

  // ---------------------------------------------------------------------------------------------
  // What a pass that enters no stage stores

  ghost predicate Launches(events: seq<Event>) {
    forall e :: e in events ==> e.JobLaunched?
  }

  /** `t` is `s` but for plugins, the phase, and how far the stage's pod has come. */
  ghost predicate Touched(r: Resource, s: Status, t: Status) {
    && SameButPlugins(t, Stored(s).(phase := t.phase, stage := t.stage))
    && t.stage == s.stage.(state := t.stage.state, podName := t.stage.podName, message := t.stage.message)
    && t.stage.state != StateComplete
    && (t.stage.state == StateFailed ==>
          t.stage.podName.Some? || (s.stage.state == StateFailed && t.stage.podName == s.stage.podName))
    && (t.phase == s.phase || (t.phase == Started(s).phase && s.stage.generation == r.generation))
  }

  ghost predicate Finished(s: Status, t: Status) {
    && s.stage.task == RunNil
    && ((s.phase == PhaseRunning && t == Stored(s.(phase := PhaseCompleted)))
        || (s.phase == PhaseDeleting && t == Stored(s.(phase := PhaseDeleted))))
  }

  ghost predicate CompletedStage(s: Status, t: Status) {
    && s.stage.task != RunNil && t.stage.podName.Some?
    && t == Stored(s.(stage := s.stage.(state := StateComplete, podName := t.stage.podName,
                                        message := t.stage.message)))
  }

  /** The task of the generation completed. */
  predicate Completes(e: Event, generation: nat, task: TaskName) {
    e.Completed? && e.generation == generation && e.task == task
  }

  /** The event that goes with it. */
  function CompletionOf(stage: Stage): Event
    requires stage.podName.Some?
  {
    Completed(stage.generation, stage.task, stage.podName.value)
  }

  /** What a pass that enters no stage may store, with the events it adds to the trail. */
  ghost predicate WorkEffect(r: Resource, s: Status, t: Status, events: seq<Event>) {
    || (t == r.status && Launches(events))
    || (s.stage.task != RunNil && Touched(r, s, t) && Launches(events))
    || (Finished(s, t) && events == [])
    || (CompletedStage(s, t) && events == [CompletionOf(t.stage)])
  }

  ghost predicate WorkStores(w: World, w': World, r: Resource, t: Status, events: seq<Event>) {
    w'.resource == Some(r.(status := t)) && w'.trail == w.trail + events && w'.clock == w.clock
  }

  /** A pass that enters no stage and waits for no pod works on a stage of the current generation. */
  lemma IdleStageIsCurrent(r: Resource, s: Status, isRetry: bool, pods: seq<Pod>, c: Choice)
    requires isRetry ==> s.retryReason.Some?
    requires CheckSetNewStage(r, s, isRetry, pods, c) == Stay
    ensures s.stage.generation == r.generation || s.stage.state == StateInProgress
    ensures isRetry ==> s.stage.state == StateInProgress && s.stage.generation != r.generation
    ensures s.stage.state == StateComplete ==> s.stage.task == RunNil
  {
  }

  lemma LaunchEffect(w: World, r: Resource, s: Status, c: Choice) returns (t: Status, events: seq<Event>)
    requires w.resource == Some(r) && s.stage.generation == r.generation
    requires s.stage.task != RunNil && s.stage.state != StateComplete
    ensures WorkEffect(r, s, t, events) && WorkStores(w, Launch(w, r, s, c), r, t, events)
  {
    LaunchStatus(w, r, s, c);
    t := Launch(w, r, s, c).resource.value.status;
    var scan := ScanPlugins(c.pluginOrder, r.spec.plugins, s.pluginsStarted, s.stage.task, c.sidecarsBuilt);
    var i := if LaunchStarts(w, r, s, c) then 1 else 0;
    events := JobEvents(scan.deferred, s.stage.task, c, i);
    JobEventsAreLaunches(scan.deferred, s.stage.task, c, i);
  }

  lemma ObserveEffect(w: World, r: Resource, s: Status, pod: Pod, c: Choice) returns (t: Status, events: seq<Event>)
    requires w.resource == Some(r) && s.stage.task != RunNil
    ensures WorkEffect(r, s, t, events) && WorkStores(w, Observe(w, r, s, pod, c), r, t, events)
  {
    var w' := Observe(w, r, s, pod, c);
    t := w'.resource.value.status;
    events := if pod.phase == PodSucceeded && c.WriteOk(0) then [Completed(s.stage.generation, s.stage.task, pod.name)]
      else [];
    if c.WriteOk(0) {
      var stage := s.stage.(podName := Some(pod.name), message := PodMessage(pod.name, pod.phase));
      match pod.phase
      case PodSucceeded => assert CompletedStage(s, t);
      case PodFailed => assert t == Stored(s.(stage := stage.(state := StateFailed)));
      case _ => assert t == Stored(s.(stage := stage.(state := StateOfPod(pod.phase))));
    } else {
      assert t == r.status;
    }
  }

  lemma WorkMeaning(w: World, r: Resource, s: Status, c: Choice) returns (t: Status, events: seq<Event>)
    requires w.resource == Some(r)
    requires s.stage.generation == r.generation || s.stage.state == StateInProgress
    requires s.stage.state == StateComplete ==> s.stage.task == RunNil
    ensures WorkEffect(r, s, t, events) && WorkStores(w, Work(w, r, s, c), r, t, events)
  {
    if s.stage.task == RunNil {
      t, events := Work(w, r, s, c).resource.value.status, [];
    } else if !c.listOk {
      t, events := r.status, [];
    } else {
      var found := Lookup(w.pods, s);
      if found != [] {
        t, events := ObserveEffect(w, r, s, found[0], c);
      } else if s.stage.state == StateInProgress {
        t, events := Work(w, r, s, c).resource.value.status, [];
        assert t == r.status || t == Stored(s.(stage := s.stage.(state := StateInitializing)));
      } else {
        t, events := LaunchEffect(w, r, s, c);
      }
    }
  }

  // ---------------------------------------------------------------------------------------------
  // The kinds of pass

  datatype Kind = Nothing | Finalizers | Naming | First | Entering(stage: Stage, cause: Cause) | Working

  function KindOf(w: World, c: Choice): Kind {
    if w.resource.None? || !c.readOk then Nothing
    else
      var r := w.resource.value;
      var update := UpdatedFinalizers(r.status.phase, r.spec.ignoreDelete, r.finalizers);
      if r.status.phase == PhaseDeleted || !update.Unchanged? then Finalizers
      else if r.status.prefix.None? then Naming
      else if r.status.stage.generation == 0 then First
      else
        match CheckSetNewStage(r, Noticed(r, w.clock), RetryPending(r), w.pods, c)
        case Stay => Working
        case Enter(stage, cause) => Entering(stage, cause)
  }

  /** What a finalizer pass stores. */
  lemma FinalizerPass(w: World, c: Choice) returns (finalizers: seq<string>)
    requires KindOf(w, c) == Finalizers
    ensures var w' := Pass(w, c);
      w' == w || (w' == SaveFinalizers(w, w.resource.value, finalizers)
                  && (TF_FINALIZER in w.resource.value.finalizers && TF_FINALIZER !in finalizers ==>
                        w.resource.value.status.phase == PhaseDeleted || w.resource.value.spec.ignoreDelete))
  {
    var r := w.resource.value;
    var u := UpdatedFinalizers(r.status.phase, r.spec.ignoreDelete, r.finalizers);
    finalizers := if u.Changed? then u.finalizers else r.finalizers;
  }

  /** What a working pass stores. */
  lemma WorkingPass(w: World, c: Choice) returns (t: Status, events: seq<Event>)
    requires KindOf(w, c) == Working
    ensures w.resource.Some?
    ensures var r := w.resource.value;
      WorkEffect(r, Noticed(r, w.clock), t, events) && WorkStores(w, Pass(w, c), r, t, events)
      && Pass(w, c) == Work(w, r, Noticed(r, w.clock), c)
  {
    var r := w.resource.value;
    var s := Noticed(r, w.clock);
    NoticedKeeps(r, w.clock);
    IdleStageIsCurrent(r, s, RetryPending(r), w.pods, c);
    t, events := WorkMeaning(w, r, s, c);
  }

  /** What a pass entering a stage stores. */
  lemma EnteringPass(w: World, c: Choice)
    requires KindOf(w, c).Entering?
    requires w.resource.Some? && StageTask(w.resource.value.status.stage.task)
    ensures var r, stage, cause := w.resource.value, KindOf(w, c).stage, KindOf(w, c).cause;
      var s := Noticed(r, w.clock);
      && Pass(w, c) == EnterStage(w, r, s, stage, cause, c)
      && FreshStage(r, stage) && MoveFits(r, s, RetryPending(r), w.pods, c, stage, cause)
  {
    var r := w.resource.value;
    NoticedKeeps(r, w.clock);
    MoveMeaning(r, Noticed(r, w.clock), RetryPending(r), w.pods, c);
  }

  function ResetEvents(stage: Stage): seq<Event> {
    if stage.reason == GenerationChange then [PluginsReset] else []
  }

  /** From `w` to `w'` a stage was entered and stored, or nothing was. */
  ghost predicate EntersInto(w: World, w': World, stage: Stage, cause: Cause, stored: bool) {
    && w.resource.Some? && FreshStage(w.resource.value, stage)
    && var r := w.resource.value;
    && w'.resource == (if stored
                       then Some(r.(status := Stored(ResetFor(Noticed(r, w.clock), stage.reason).(stage := stage))))
                       else w.resource)
    && w'.trail == w.trail + if stored then [Entered(stage.generation, stage.task, cause)] + ResetEvents(stage) else []
  }

  lemma EnteringOutcome(w: World, c: Choice)
    requires KindOf(w, c).Entering?
    requires w.resource.Some? && StageTask(w.resource.value.status.stage.task)
    ensures EntersInto(w, Pass(w, c), KindOf(w, c).stage, KindOf(w, c).cause, c.WriteOk(0))
  {
    EnteringStores(w, c);
  }

  /** A pass entering a stage stores it and the status it came from, or nothing. */
  lemma EnteringStores(w: World, c: Choice)
    requires KindOf(w, c).Entering?
    requires w.resource.Some? && StageTask(w.resource.value.status.stage.task)
    ensures var r, stage, cause, w' := w.resource.value, KindOf(w, c).stage, KindOf(w, c).cause, Pass(w, c);
      if c.WriteOk(0) then
        && w'.resource == Some(r.(status := Stored(ResetFor(Noticed(r, w.clock), stage.reason).(stage := stage))))
        && w'.trail == w.trail + ([Entered(stage.generation, stage.task, cause)] + ResetEvents(stage))
      else w'.resource == w.resource && w'.trail == w.trail + []
    ensures FreshStage(w.resource.value, KindOf(w, c).stage)
  {
    EnteringPass(w, c);
    assert w.trail + [] == w.trail;
  }

  /** The causes of a pass's move, told of the stored stage. */
  lemma EnteringFits(w: World, c: Choice)
    requires KindOf(w, c).Entering?
    requires w.resource.Some? && StageTask(w.resource.value.status.stage.task)
    ensures var r := w.resource.value;
      MoveFits(r, Noticed(r, w.clock), RetryPending(r), w.pods, c, KindOf(w, c).stage, KindOf(w, c).cause)
      && Noticed(r, w.clock).stage == r.status.stage
  {
    EnteringPass(w, c);
    NoticedKeeps(w.resource.value, w.clock);
  }

  // ---------------------------------------------------------------------------------------------
  // Shape of the stored status

  /** No stage, or a stage of the workflow for this or an earlier generation. */
  ghost predicate WellStaged(r: Resource) {
    && StageTask(r.status.stage.task)
    && r.status.stage.generation <= r.generation && 1 <= r.generation
    && (r.status.stage.generation == 0 ==> r.status.stage == NO_STAGE)
    && (r.status.stage.generation != 0 ==> r.status.prefix.Some?)
    && (r.status.stage.state == StateFailed ==> r.status.stage.podName.Some?)
    && (r.status.stage.generation != 0 && r.status.stage.task == RunNil ==> r.status.stage.state == StateComplete)
  }

  ghost predicate WellStagedWorld(w: World) {
    w.resource.Some? ==> WellStaged(w.resource.value)
  }

  lemma WorkKeepsWellStaged(r: Resource, s: Status, t: Status, events: seq<Event>)
    requires WellStaged(r) && r.status.stage.generation != 0 && s.stage == r.status.stage && s.prefix == r.status.prefix
    requires WorkEffect(r, s, t, events)
    ensures WellStaged(r.(status := t))
  {
  }

  lemma EntersKeepsWellStaged(w: World, w': World, stage: Stage, cause: Cause, stored: bool)
    requires EntersInto(w, w', stage, cause, stored) && WellStagedWorld(w) && w.resource.value.status.prefix.Some?
    ensures WellStagedWorld(w')
  {
  }

  lemma KindNeedsPrefix(w: World, c: Choice)
    requires KindOf(w, c).Entering?
    ensures w.resource.Some? && w.resource.value.status.prefix.Some?
  {
  }

  lemma EnterKeepsWellStaged(w: World, c: Choice)
    requires KindOf(w, c).Entering? && WellStagedWorld(w)
    ensures WellStagedWorld(Pass(w, c))
  {
    EnteringOutcome(w, c);
    KindNeedsPrefix(w, c);
    EntersKeepsWellStaged(w, Pass(w, c), KindOf(w, c).stage, KindOf(w, c).cause, c.WriteOk(0));
  }

  lemma PassKeepsWellStaged(w: World, c: Choice)
    requires WellStagedWorld(w)
    ensures WellStagedWorld(Pass(w, c))
  {
    match KindOf(w, c)
    case Finalizers =>
      var f := FinalizerPass(w, c);
    case Entering(_, _) =>
      EnterKeepsWellStaged(w, c);
    case Working =>
      var r := w.resource.value;
      NoticedKeeps(r, w.clock);
      var t, events := WorkingPass(w, c);
      WorkKeepsWellStaged(r, Noticed(r, w.clock), t, events);
    case _ =>
  }

  /** All that is needed of a pass that enters a stage. */
  lemma EnteringFacts(w: World, c: Choice) returns (stage: Stage, cause: Cause)
    requires KindOf(w, c).Entering? && WellStagedWorld(w)
    ensures EntersInto(w, Pass(w, c), stage, cause, c.WriteOk(0)) && WellStagedWorld(Pass(w, c))
    ensures var r := w.resource.value;
      && MoveFits(r, Noticed(r, w.clock), RetryPending(r), w.pods, c, stage, cause)
      && Noticed(r, w.clock).stage == r.status.stage && r.status.stage.generation != 0
  {
    EnteringNeedsStage(w, c);
    EnteringOutcome(w, c);
    EnteringFits(w, c);
    EnterKeepsWellStaged(w, c);
    stage, cause := KindOf(w, c).stage, KindOf(w, c).cause;
  }

  lemma EnteringNeedsStage(w: World, c: Choice)
    requires KindOf(w, c).Entering?
    ensures w.resource.Some? && w.resource.value.status.stage.generation != 0
  {
  }

  lemma NextKeepsWellStaged(w: World, step: Step)
    requires WellStagedWorld(w)
    ensures WellStagedWorld(Next(w, step))
  {
    match step
    case Controller(c) => PassKeepsWellStaged(w, c);
    case Environment(e) =>
  }

  /** What every step keeps holds after every run. */
  lemma {:induction false} RunInduction(inv: World -> bool, w: World, steps: seq<Step>)
    requires inv(w)
    requires forall v, step :: inv(v) ==> inv(Next(v, step))
    ensures inv(Run(w, steps))
    decreases steps
  {
    if steps != [] {
      RunInduction(inv, w, steps[..|steps| - 1]);
    }
  }

  /** In every reachable state the stage is one of the workflow, and a failed stage knows its pod. */
  lemma ReachableIsWellStaged(w: World)
    requires Reachable(w)
    ensures WellStagedWorld(w)
  {
    var w0, steps :| IsFresh(w0) && w == Run(w0, steps);
    forall v, step | WellStagedWorld(v) ensures WellStagedWorld(Next(v, step)) {
      NextKeepsWellStaged(v, step);
    }
    RunInduction(v => WellStagedWorld(v), w0, steps);
  }

  // ---------------------------------------------------------------------------------------------
  // Which pods a step leaves

  lemma {:induction false} WithoutPodIn(pods: seq<Pod>, name: nat)
    ensures forall p :: p in WithoutPod(pods, name) ==> p in pods
  {
    if pods != [] {
      WithoutPodIn(pods[1..], name);
    }
  }

  lemma {:induction false} OldPlanLeaves(pods: seq<Pod>, generation: nat, reason: Reason)
    ensures forall p :: p in WithoutOldPlan(pods, generation, reason) ==> p in pods
  {
    if pods != [] {
      OldPlanLeaves(pods[1..], generation, reason);
    }
  }

  /** `p` is one of the pods but for its phase. */
  ghost predicate MovedFrom(p: Pod, pods: seq<Pod>) {
    exists q :: q in pods && p == q.(phase := p.phase)
  }

  lemma {:induction false} MovePodsFrom(pods: seq<Pod>, name: nat, phase: PodPhase)
    ensures forall p :: p in MovePods(pods, name, phase) ==> MovedFrom(p, pods)
  {
    if pods != [] {
      MovePodsFrom(pods[1..], name, phase);
      var rest := MovePods(pods[1..], name, phase);
      forall p | p in MovePods(pods, name, phase) ensures MovedFrom(p, pods) {
        if p in rest {
          var q :| q in pods[1..] && p == q.(phase := p.phase);
          assert q in pods;
        } else {
          assert pods[0] in pods && p == pods[0].(phase := p.phase);
        }
      }
    }
  }

  /** The pod is new, made for the resource's generation. */
  ghost predicate IsNew(p: Pod, w: World, w': World) {
    && w.resource.Some? && p.generation == w.resource.value.generation && p.name == w.nextPod
    && p.generation in w'.provisioned && w'.nextPod == w.nextPod + 1
  }

  ghost predicate PodsFollow(w: World, w': World) {
    && (forall p :: p in w'.pods ==> p in w.pods || IsNew(p, w, w'))
    && w.provisioned <= w'.provisioned && w.nextPod <= w'.nextPod
    && forall g :: g in w'.provisioned ==> g in w.provisioned || (w.resource.Some? && g == w.resource.value.generation)
  }

  lemma WorkPodsAre(w: World, r: Resource, s: Status, c: Choice)
    requires w.resource == Some(r) && (s.stage.generation == r.generation || s.stage.state == StateInProgress)
    ensures PodsFollow(w, Work(w, r, s, c))
  {
    var found := Lookup(w.pods, s);
    if s.stage.task != RunNil && c.listOk && found != [] {
      WithoutPodIn(w.pods, found[0].name);
    }
  }

  lemma EnteringPods(w: World, c: Choice)
    requires KindOf(w, c).Entering? && WellStagedWorld(w)
    ensures PodsFollow(w, Pass(w, c))
  {
    EnteringPass(w, c);
    OldPlanLeaves(w.pods, w.resource.value.generation, Noticed(w.resource.value, w.clock).stage.reason);
  }

  lemma WorkingPods(w: World, c: Choice)
    requires KindOf(w, c) == Working
    ensures PodsFollow(w, Pass(w, c))
  {
    var r := w.resource.value;
    NoticedKeeps(r, w.clock);
    IdleStageIsCurrent(r, Noticed(r, w.clock), RetryPending(r), w.pods, c);
    var t, events := WorkingPass(w, c);
    WorkPodsAre(w, r, Noticed(r, w.clock), c);
  }

  lemma SavingPods(w: World, c: Choice)
    requires !KindOf(w, c).Entering? && KindOf(w, c) != Working
    ensures PodsFollow(w, Pass(w, c))
  {
  }

  /** The pods after a pass were there before, but for one it may have made. */
  lemma PassPods(w: World, c: Choice)
    requires WellStagedWorld(w)
    ensures PodsFollow(w, Pass(w, c))
  {
    if KindOf(w, c).Entering? {
      EnteringPods(w, c);
    } else if KindOf(w, c) == Working {
      WorkingPods(w, c);
    } else {
      SavingPods(w, c);
    }
  }

  /** Or they were before, but for their phase. */
  lemma EnvPods(w: World, e: EnvStep)
    ensures var w' := EnvNext(w, e);
      && (forall p :: p in w'.pods ==> MovedFrom(p, w.pods))
      && w'.provisioned == w.provisioned && w'.nextPod == w.nextPod && w'.trail == w.trail
  {
    match e
    case MovePod(name, phase) => MovePodsFrom(w.pods, name, phase);
    case DeletePod(name) => WithoutPodIn(w.pods, name);
    case _ =>
  }
}
