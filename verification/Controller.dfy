/** The controller as it is written: a pass reads the resource into memory, changes that copy step by step and
    writes it back. Every method is proved against the functions of the module Workflow. */
module Controller {
  import opened Wrappers
  import opened Tasks
  import opened Workflow
  import opened WorkflowFacts
  import Lists

  /** The copy of a resource that a pass works on. */
  class Terraform {
    const generation: nat
    const deletionRequested: bool
    const changeCause: Option<string>
    const spec: Spec
    var finalizers: seq<string>
    var status: Status

    constructor (r: Resource)
      ensures Value() == r
    {
      generation, deletionRequested, changeCause, spec := r.generation, r.deletionRequested, r.changeCause, r.spec;
      finalizers, status := r.finalizers, r.status;
    }

    function Value(): Resource
      reads this
    {
      Resource(generation, deletionRequested, changeCause, finalizers, spec, status)
    }

    method RemoveFinalizer() returns (panics: bool)
      modifies this`finalizers
      ensures panics <==> Lists.ListRemove(old(finalizers), TF_FINALIZER).None?
      ensures !panics ==> Some(finalizers) == Lists.ListRemove(old(finalizers), TF_FINALIZER)
    {
      var list := new string[|finalizers|](i requires 0 <= i < |finalizers| reads this => finalizers[i]);
      assert list[..] == finalizers;
      var len: nat;
      panics, len := Lists.ListRemoveStr(list, TF_FINALIZER);
      if !panics {
        finalizers := list[..len];
      }
    }

    method UpdateFinalizer() returns (panics: bool, changed: bool)
      modifies this`finalizers
      ensures match UpdatedFinalizers(status.phase, spec.ignoreDelete, old(finalizers))
              case Panics => panics
              case Changed(f) => !panics && changed && finalizers == f
              case Unchanged => !panics && !changed && finalizers == old(finalizers)
    {
      panics, changed := false, false;
      var present := Lists.ListContainsStr(finalizers, TF_FINALIZER);
      if status.phase == PhaseDeleted {
        if present {
          panics := RemoveFinalizer();
          return panics, true;
        }
      }
      if spec.ignoreDelete && |finalizers| > 0 {
        if present {
          panics := RemoveFinalizer();
          return panics, true;
        }
      }
      if !spec.ignoreDelete {
        if !present {
          finalizers := finalizers + [TF_FINALIZER];
          return false, true;
        }
      }
    }

    /** Makes a stage for the current generation; a change of generation also resets the plugins and the phase. */
    method NewStage(task: TaskName, reason: Reason, interruptible: bool, state: StageState) returns (stage: Stage)
      modifies this`status
      ensures status == ResetFor(old(status), reason)
      ensures stage == Workflow.NewStage(generation, task, reason, interruptible, state)
    {
      if reason == GenerationChange {
        status := status.(pluginsStarted := []);
        status := status.(phase := PhaseInitializing);
      }
      stage := Stage(generation, task, state, interruptible, reason, NoMessage, None);
    }

    method IsTaskInterruptable(task: TaskName) returns (interruptible: bool)
      ensures interruptible <==> !Uninterruptible(task)
    {
      var uninterruptible: seq<TaskName> := [RunInit, RunPlan, RunApply, RunInitDelete, RunPlanDelete, RunApplyDelete];
      assert uninterruptible[0] == RunInit && uninterruptible[1] == RunPlan && uninterruptible[2] == RunApply;
      assert uninterruptible[3] == RunInitDelete && uninterruptible[4] == RunPlanDelete
        && uninterruptible[5] == RunApplyDelete;
      var found := ListContainsTask(uninterruptible, task);
      return !found;
    }

    /** The next stage, if the current one is to be left. */
    method CheckSetNewStage(isRetry: bool, pods: seq<Pod>, c: Choice) returns (stage: Option<Stage>)
      requires isRetry ==> status.retryReason.Some?
      modifies this`status
      ensures match Workflow.CheckSetNewStage(old(Value()), old(status), isRetry, pods, c)
              case Stay => stage == None && status == old(status)
              case Enter(s, _) => stage == Some(s) && status == ResetFor(old(status), s.reason)
    {
      var isNewStage := false;
      var task: TaskName := RunNil;
      var reason := NoReason;
      var configured := GetConfiguredTasks(spec.optionTasks);
      var deleting := IsDeletePhase(status.phase);
      var initDelete := status.phase == PhaseInitDelete;
      var state := StateInitializing;
      var interruptible := true;
      var current := status.stage;
      var isNewGeneration := current.generation != generation;

      if isRetry && !deleting && !isNewGeneration {
        isNewStage := true;
        reason := ReasonOfLabel(status.retryReason.value);
        task := RunInit;
        if HasSetupSuffix(status.retryReason.value) {
          task := RunSetup;
        }
        interruptible := IsTaskInterruptable(task);
      } else if isRetry && deleting && !isNewGeneration {
        isNewStage := true;
        reason := ReasonOfLabel(status.retryReason.value);
        task := RunInitDelete;
        if HasSetupSuffix(status.retryReason.value) {
          task := RunSetupDelete;
        }
        interruptible := IsTaskInterruptable(task);
      } else if !current.interruptible && current.state == StateInProgress {
        isNewStage := false;
      } else if isNewGeneration && !deleting {
        isNewStage := true;
        reason := GenerationChange;
        task := RunSetup;
      } else if isNewGeneration && initDelete {
        isNewStage := true;
        reason := ResourceDeleted;
        task := RunSetupDelete;
        interruptible := false;
      } else if isNewGeneration && deleting {
        isNewStage := true;
        reason := ResourceDeleted;
        task := RunSetupDelete;
      } else if current.state == StateComplete {
        isNewStage := true;
        reason := CompletedTask(current.task);
        if current.task == RunNil {
          isNewStage := false;
        } else {
          task := FindNextTask(current.task, configured);
          interruptible := IsTaskInterruptable(task);
          if task == RunNil {
            state := StateComplete;
          }
        }
      } else if current.state == StateFailed {
        if current.task == RunApply {
          if PodGone(pods, current.podName, c) {
            isNewStage := true;
            reason := RestartedWorkflow;
            task := FindNextTask(RunPostInit, configured);
            interruptible := IsTaskInterruptable(task);
          }
        } else if current.task == RunApplyDelete {
          if PodGone(pods, current.podName, c) {
            isNewStage := true;
            reason := RestartedDeleteWorkflow;
            task := FindNextTask(RunPostInitDelete, configured);
            interruptible := IsTaskInterruptable(task);
          }
        }
      }
      if !isNewStage {
        return None;
      }
      var made := NewStage(task, reason, interruptible, state);
      return Some(made);
    }
  }

  // ---------------------------------------------------------------------------------------------
  // Listing pods

  /** What the API server lists for a stage. */
  function Listed(pods: seq<Pod>, s: Status): seq<Pod> {
    if pods == [] then []
    else if Matches(pods[0], s) then [pods[0]] + Listed(pods[1..], s)
    else Listed(pods[1..], s)
  }

  function Surviving(pods: seq<Pod>, cutoff: Option<Instant>): seq<Pod> {
    if pods == [] then []
    else if Survives(pods[0], cutoff) then [pods[0]] + Surviving(pods[1..], cutoff)
    else Surviving(pods[1..], cutoff)
  }

  lemma {:induction false} LookupIsFiltered(pods: seq<Pod>, s: Status)
    ensures Lookup(pods, s) == Surviving(Listed(pods, s), s.retryTimestamp)
  {
    if pods != [] {
      LookupIsFiltered(pods[1..], s);
      if Matches(pods[0], s) {
        assert Listed(pods, s)[1..] == Listed(pods[1..], s);
      }
    }
  }

  lemma {:induction false} AllSurvive(pods: seq<Pod>)
    ensures Surviving(pods, None) == pods
  {
    if pods != [] {
      AllSurvive(pods[1..]);
    }
  }

  /** Drops the pods made before the last retry. */
  method FilterByRetry(pods: seq<Pod>, cutoff: Option<Instant>) returns (slice: seq<Pod>)
    ensures slice == Surviving(pods, cutoff)
  {
    if cutoff.None? {
      AllSurvive(pods);
      return pods;
    }
    slice := [];
    for i := 0 to |pods|
      invariant slice + Surviving(pods[i..], cutoff) == Surviving(pods, cutoff)
    {
      assert pods[i..][1..] == pods[i + 1..];
      if Survives(pods[i], cutoff) {
        slice := slice + [pods[i]];
      }
    }
    assert pods[|pods|..] == [];
  }

  // ---------------------------------------------------------------------------------------------
  // Plugins

  /** Whether a plugin's job is to be put off, or its missing sidecar ends the pass. */
  method JudgePlugin(plugin: Plugin, task: TaskName, built: bool) returns (defers: bool, aborts: bool)
    ensures defers == Triggers(plugin, task)
    ensures aborts == Aborts(plugin, task, built)
  {
    match plugin.when
    case WhenAfter => return plugin.task.Id() < task.Id(), false;
    case WhenAt => return plugin.task.Id() == task.Id(), false;
    case WhenSidecar => return false, plugin.task.Id() == task.Id() && !built && plugin.must;
    case WhenOther => return false, false;
  }

  /** The scan of the plugins, of which those before are put off already. */
  function ScanAfter(before: seq<TaskName>, rest: Scan): Scan { Scan(before + rest.deferred, rest.aborted) }

  lemma ScanStep(before: seq<TaskName>, order: seq<TaskName>, i: nat, plugins: map<TaskName, Plugin>,
      started: seq<TaskName>, task: TaskName, built: set<TaskName>)
    requires i < |order|
    ensures var name := order[i];
      var now, rest := ScanPlugins(order[i..], plugins, started, task, built),
        ScanPlugins(order[i + 1..], plugins, started, task, built);
      if name !in plugins || name in started then ScanAfter(before, now) == ScanAfter(before, rest)
      else if Triggers(plugins[name], task) then ScanAfter(before, now) == ScanAfter(before + [name], rest)
      else if Aborts(plugins[name], task, name in built) then ScanAfter(before, now) == Scan(before, true)
      else ScanAfter(before, now) == ScanAfter(before, rest)
  {
  }

  /** Walks the plugins in the order the map yields them, putting off the jobs that the task triggers. */
  method ScanAll(order: seq<TaskName>, plugins: map<TaskName, Plugin>, started: seq<TaskName>, task: TaskName,
      built: set<TaskName>)
    returns (deferred: seq<TaskName>, aborted: bool)
    ensures Scan(deferred, aborted) == ScanPlugins(order, plugins, started, task, built)
  {
    deferred := [];
    ghost var whole := ScanPlugins(order, plugins, started, task, built);
    assert order[0..] == order && ScanAfter([], whole) == whole;
    for i := 0 to |order|
      invariant ScanAfter(deferred, ScanPlugins(order[i..], plugins, started, task, built)) == whole
    {
      var name := order[i];
      ScanStep(deferred, order, i, plugins, started, task, built);
      if name in plugins {
        var known := ListContainsTask(started, name);
        if !known {
          var defers, aborts := JudgePlugin(plugins[name], task, name in built);
          if defers {
            deferred := deferred + [name];
          } else if aborts {
            return deferred, true;
          }
        }
      }
    }
    assert order[|order|..] == [] && deferred + [] == deferred;
    return deferred, false;
  }

  // ---------------------------------------------------------------------------------------------
  // The cluster and a pass

  /** The stored resource and its pods, as the API server holds them. */
  class Reconciler {
    var resource: Option<Resource>
    var pods: seq<Pod>
    var provisioned: set<nat>
    var clock: Instant
    var nextPod: nat
    var writes: nat
    ghost var trail: seq<Event>

    constructor (w: World)
      ensures State() == w
    {
      resource, pods, provisioned, clock := w.resource, w.pods, w.provisioned, w.clock;
      nextPod, writes, trail := w.nextPod, 0, w.trail;
    }

    ghost function State(): World
      reads this
    {
      World(resource, pods, provisioned, clock, nextPod, trail)
    }

    /** Asks the API server to store the status of the copy; the server may turn it down. */
    method UpdateStatus(tf: Terraform, c: Choice) returns (ok: bool)
      requires resource.Some?
      modifies this`resource, this`writes
      ensures writes == old(writes) + 1 && ok == c.WriteOk(old(writes))
      ensures resource == if ok then Some(old(resource).value.(status := Stored(tf.status))) else old(resource)
    {
      ok := c.WriteOk(writes);
      writes := writes + 1;
      if ok {
        resource := Some(resource.value.(status := Stored(tf.status)));
      }
    }

    /** The first write of a pass, and what it puts on the trail if it is stored. */
    method SaveStatus(tf: Terraform, c: Choice, ghost events: seq<Event>) returns (ok: bool)
      requires resource.Some? && writes == 0
      modifies this`resource, this`writes, this`trail
      ensures ok == c.WriteOk(0)
      ensures State() == Save(old(State()), old(resource).value, tf.status, events, c)
    {
      ok := UpdateStatus(tf, c);
      if ok {
        trail := trail + events;
      }
    }

    method Update(tf: Terraform)
      requires resource.Some? && resource.value == tf.Value().(finalizers := resource.value.finalizers)
      modifies this`resource, this`trail
      ensures State() == SaveFinalizers(old(State()), old(resource).value, tf.finalizers)
    {
      ghost var r := resource.value;
      if TF_FINALIZER in resource.value.finalizers && TF_FINALIZER !in tf.finalizers {
        trail := trail + [FinalizerDropped];
      } else {
        assert trail + [] == trail;
      }
      resource := Kept(resource.value.(finalizers := tf.finalizers));
    }

    method Reconcile(c: Choice)
      modifies this
      ensures State() == Pass(old(State()), c)
    {
      writes := 0;
      if resource.None? || !c.readOk {
        return;
      }
      var tf := new Terraform(resource.value);

      if tf.status.phase == PhaseDeleted {
        if !c.secretsOk {
          return;
        }
        var panics, changed := tf.UpdateFinalizer();
        if !panics && changed && c.updateOk {
          Update(tf);
        }
        return;
      }

      var panics, changed := tf.UpdateFinalizer();
      if panics {
        return;
      }
      if changed {
        if c.updateOk {
          Update(tf);
        }
        return;
      }

      if tf.status.prefix.None? {
        tf.status := tf.status.(prefix := Some(c.prefix));
        tf.status := tf.status.(phase := PhaseInitializing);
        var ok := SaveStatus(tf, c, []);
        return;
      }

      if tf.status.stage.generation == 0 {
        AddFirstStage(tf, c);
        return;
      }
      ReconcileStage(tf, c);
    }

    method AddFirstStage(tf: Terraform, c: Choice)
      requires resource == Some(tf.Value()) && writes == 0
      modifies this, tf
      ensures State() == Save(old(State()), old(tf.Value()), FirstStatus(old(tf.Value())),
                              [Entered(tf.generation, RunSetup, FirstStage), PluginsReset], c)
    {
      var stage := tf.NewStage(RunSetup, ResourceCreated, false, StateInitializing);
      tf.status := tf.status.(stage := stage);
      tf.status := tf.status.(pluginsStarted := []);
      var ok := SaveStatus(tf, c, [Entered(tf.generation, RunSetup, FirstStage), PluginsReset]);
    }

    /** Notices a deletion and a retry. */
    method Notice(tf: Terraform) returns (retry: bool)
      modifies tf`status
      ensures retry == RetryPending(old(tf.Value())) && tf.status == Noticed(old(tf.Value()), clock)
    {
      if tf.deletionRequested && !IsDeletePhase(tf.status.phase) {
        tf.status := tf.status.(phase := PhaseInitDelete);
      }
      retry := false;
      if tf.changeCause.Some? {
        if tf.status.retryReason.None? {
          retry := true;
        } else if tf.status.retryReason.value != tf.changeCause.value {
          retry := true;
        }
        if retry {
          tf.status := tf.status.(retryReason := tf.changeCause, retryTimestamp := Some(clock));
          tf.status := tf.status.(phase := PhaseInitializing);
        }
      }
    }

    method ReconcileStage(tf: Terraform, c: Choice)
      requires resource == Some(tf.Value()) && writes == 0
      modifies this, tf
      ensures State() == Proceed(old(State()), old(tf.Value()), c)
    {
      ghost var r, s := tf.Value(), Noticed(tf.Value(), clock);
      ghost var w := State();
      var retry := Notice(tf);
      ghost var move := CheckSetNewStage(r, s, retry, pods, c);
      CheckIgnoresStatus(tf.Value(), r, s, retry, pods, c);
      var stage := tf.CheckSetNewStage(retry, pods, c);
      if stage.Some? {
        if stage.value.reason == RestartedWorkflow || stage.value.reason == RestartedDeleteWorkflow {
          if c.oldPlanRemoved {
            // the reason passed is still the one of the stage that is left
            pods := WithoutOldPlan(pods, tf.generation, tf.status.stage.reason);
          }
        }
        tf.status := tf.status.(stage := stage.value);
        ghost var resets := if stage.value.reason == GenerationChange then [PluginsReset] else [];
        var ok := SaveStatus(tf, c, [Entered(stage.value.generation, stage.value.task, move.cause)] + resets);
        assert State() == EnterStage(w, r, s, move.stage, move.cause, c);
        return;
      }
      WorkOnStage(tf, r, c);
    }

    method WorkOnStage(tf: Terraform, ghost r: Resource, c: Choice)
      requires resource == Some(r) && writes == 0 && tf.Value().(status := r.status) == r
      modifies this, tf
      ensures State() == Work(old(State()), r, old(tf.status), c)
    {
      ghost var s := tf.status;
      if tf.status.stage.task == RunNil {
        if tf.status.phase == PhaseRunning {
          tf.status := tf.status.(phase := PhaseCompleted);
          var ok := SaveStatus(tf, c, []);
        } else if tf.status.phase == PhaseDeleting {
          tf.status := tf.status.(phase := PhaseDeleted);
          var ok := SaveStatus(tf, c, []);
        }
        return;
      }
      if !c.listOk {
        return;
      }
      var found := FilterByRetry(Listed(pods, tf.status), tf.status.retryTimestamp);
      LookupIsFiltered(pods, s);
      if |found| == 0 && tf.status.stage.state == StateInProgress {
        tf.status := tf.status.(stage := tf.status.stage.(state := StateInitializing));
        var ok := SaveStatus(tf, c, []);
        return;
      }
      if |found| == 0 {
        LaunchPod(tf, r, c);
        return;
      }
      ObservePod(tf, r, found[0], c);
    }

    /** The phase and the stage once the stage's pod is made. */
    method MarkStarted(tf: Terraform)
      modifies tf`status
      ensures tf.status == Started(old(tf.status))
    {
      if tf.status.phase == PhaseInitializing {
        tf.status := tf.status.(phase := PhaseRunning);
      } else if tf.status.phase == PhaseInitDelete {
        tf.status := tf.status.(phase := PhaseDeleting);
      }
      tf.status := tf.status.(stage := tf.status.stage.(state := StateInProgress));
    }

    /** Makes the objects of the generation, or looks for them, and then the pod. */
    method SetUpAndRun(tf: Terraform, c: Choice) returns (ok: bool)
      modifies this`pods, this`provisioned, this`nextPod
      ensures var found := SetsUp(tf.status.stage.reason) || tf.generation in old(provisioned);
        && ok == (c.setupOk && found && c.podOk)
        && provisioned == if c.setupOk && found then old(provisioned) + {tf.generation} else old(provisioned)
      ensures if ok then
          && pods == old(pods) + [Pod(old(nextPod), GenerateName(tf.status.prefix, tf.generation, tf.status.stage.task),
                                      tf.status.stage.generation, clock.second, PodPending)]
          && nextPod == old(nextPod) + 1
        else pods == old(pods) && nextPod == old(nextPod)
    {
      var reason := tf.status.stage.reason;
      var isNewGeneration := reason == GenerationChange || reason == ResourceDeleted;
      var isFirstInstall := reason == ResourceCreated;
      if isFirstInstall || isNewGeneration {
        if !c.setupOk {
          return false;
        }
        provisioned := provisioned + {tf.generation};
      } else {
        if !c.setupOk || tf.generation !in provisioned {
          return false;
        }
        assert provisioned + {tf.generation} == provisioned;
      }
      if !c.podOk {
        return false;
      }
      pods := pods + [Pod(nextPod, GenerateName(tf.status.prefix, tf.generation, tf.status.stage.task),
                          tf.status.stage.generation, clock.second, PodPending)];
      nextPod := nextPod + 1;
      return true;
    }

    /** Unless a sidecar that must be there is missing: sets up, makes the pod, and stores that it was made. */
    method StartPod(tf: Terraform, aborted: bool, c: Choice) returns (started: bool)
      requires resource.Some? && writes == 0
      modifies this`resource, this`pods, this`provisioned, this`nextPod, this`writes, tf`status
      ensures
        var task, reason := old(tf.status).stage.task, old(tf.status).stage.reason;
        var needsApproval := (task == RunPlan || task == RunPlanDelete) && tf.spec.requireApproval;
        var prepared := && !aborted && (needsApproval ==> c.approvalOk) && c.setupOk
                        && (SetsUp(reason) || tf.generation in old(provisioned));
        && started == (prepared && c.podOk)
        && provisioned == if prepared then old(provisioned) + {tf.generation} else old(provisioned)
      ensures if started then
          && pods == old(pods) + [Pod(old(nextPod), GenerateName(old(tf.status).prefix, tf.generation,
                old(tf.status).stage.task),
                                      old(tf.status).stage.generation, clock.second, PodPending)]
          && nextPod == old(nextPod) + 1 && tf.status == Started(old(tf.status)) && writes == 1
          && resource == if c.WriteOk(0) then Some(old(resource).value.(status := Stored(tf.status))) else old(resource)
        else
          && pods == old(pods) && nextPod == old(nextPod) && tf.status == old(tf.status)
          && writes == 0 && resource == old(resource)
    {
      started := false;
      var needsApproval := (tf.status.stage.task == RunPlan || tf.status.stage.task == RunPlanDelete)
                           && tf.spec.requireApproval;
      if !aborted && (needsApproval ==> c.approvalOk) {
        started := SetUpAndRun(tf, c);
      }
      if started {
        MarkStarted(tf);
        var ok := UpdateStatus(tf, c);
      }
    }

    method LaunchPod(tf: Terraform, ghost r: Resource, c: Choice)
      requires resource == Some(r) && writes == 0 && tf.Value().(status := r.status) == r
      modifies this, tf
      ensures State() == Launch(old(State()), r, old(tf.status), c)
    {
      ghost var s, w := tf.status, State();
      var deferred, aborted := ScanAll(c.pluginOrder, tf.spec.plugins, tf.status.pluginsStarted, tf.status.stage.task,
                                       c.sidecarsBuilt);
      var started := StartPod(tf, aborted, c);
      FirstContent(r.status, tf.status, deferred, c);
      assert [] + JobContents(s, deferred) == JobContents(s, deferred);
      // the jobs put off run as the pass returns, whichever way it does
      RunDeferred(tf, deferred, c);
    }

    /** Runs the jobs put off, the last one first. */
    method RunDeferred(tf: Terraform, deferred: seq<TaskName>, c: Choice)
      requires resource.Some?
      modifies this`resource, this`writes, this`trail, tf`status
      ensures resource == Some(old(resource).value.(status :=
                LastStored(old(resource).value.status, JobContents(old(tf.status), deferred), c, old(writes))))
      ensures trail == old(trail) + JobEvents(deferred, old(tf.status).stage.task, c, old(writes))
    {
      ghost var first, task := resource.value, tf.status.stage.task;
      ghost var status, before, w := tf.status, trail, writes;
      var left := deferred;
      assert left + [] == left;
      while left != []
        invariant resource.Some? && resource.value.(status := first.status) == first
        invariant left <= deferred && writes == w + |deferred| - |left| && tf.status.stage.task == task
        invariant LastStored(resource.value.status, JobContents(tf.status, left), c, writes)
               == LastStored(first.status, JobContents(status, deferred), c, w)
        invariant trail + JobEvents(left, task, c, writes) == before + JobEvents(deferred, task, c, w)
        decreases |left|
      {
        var plugin := left[|left| - 1];
        ghost var now := resource.value.status;
        ghost var contents := JobContents(tf.status, left);
        trail := trail + [JobLaunched(plugin, task, Recorded(c, writes, writes + |left|))];
        tf.status := tf.status.(pluginsStarted := tf.status.pluginsStarted + [plugin]);
        left := left[..|left| - 1];
        assert contents[0] == tf.status && contents[1..] == JobContents(tf.status, left);
        var ok := UpdateStatus(tf, c);
      }
    }

    method ObservePod(tf: Terraform, ghost r: Resource, pod: Pod, c: Choice)
      requires resource == Some(r) && writes == 0 && tf.Value().(status := r.status) == r
      modifies this, tf
      ensures State() == Observe(old(State()), r, old(tf.status), pod, c)
    {
      tf.status := tf.status.(stage := tf.status.stage.(podName := Some(pod.name)));
      if tf.status.stage.message != PodMessage(pod.name, pod.phase) {
        tf.status := tf.status.(stage := tf.status.stage.(message := PodMessage(pod.name, pod.phase)));
      }
      if pod.phase == PodFailed {
        tf.status := tf.status.(stage := tf.status.stage.(state := StateFailed));
        var ok := SaveStatus(tf, c, []);
        return;
      }
      if pod.phase == PodSucceeded {
        tf.status := tf.status.(stage := tf.status.stage.(state := StateComplete));
        var ok := SaveStatus(tf, c, [Completed(tf.status.stage.generation, tf.status.stage.task, pod.name)]);
        if !ok {
          return;
        }
        if !tf.spec.keepCompletedPods && !tf.spec.keepLatestPodsOnly {
          if c.podRemoved {
            pods := WithoutPod(pods, pod.name);
          }
        }
        return;
      }
      tf.status := tf.status.(stage := tf.status.stage.(state := StateOfPod(pod.phase)));
      var ok := SaveStatus(tf, c, []);
    }
  }

  /** The decision reads the status only through the one it is given. */
  lemma CheckIgnoresStatus(a: Resource, b: Resource, s: Status, isRetry: bool, pods: seq<Pod>, c: Choice)
    requires a.(status := b.status) == b && (isRetry ==> s.retryReason.Some?)
    ensures CheckSetNewStage(a, s, isRetry, pods, c) == CheckSetNewStage(b, s, isRetry, pods, c)
  {
  }

  lemma FirstContent(stored: Status, started: Status, deferred: seq<TaskName>, c: Choice)
    ensures LastStored(stored, [started] + JobContents(started, deferred), c, 0)
         == LastStored(if c.WriteOk(0) then Stored(started) else stored, JobContents(started, deferred), c, 1)
  {
  }
}
