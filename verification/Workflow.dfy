/** One resource under the workflow controller: what a reconcile pass makes of the stored resource and its
    pods, and what the rest of the cluster may do between passes. The Terraform and the Tofu controller are
    the same machine. */
module Workflow {
  import opened Wrappers
  import opened Tasks
  import Lists

  const TF_FINALIZER := "finalizer.infrakube.galleybytes.com"

  datatype Phase =
    | PhaseNone | PhaseInitializing | PhaseCompleted | PhaseRunning | PhaseInitDelete | PhaseDeleting | PhaseDeleted

  datatype PodPhase = PodPending | PodRunning | PodSucceeded | PodFailed | PodUnknown | PodPhaseEmpty

  /** A stage that is neither waiting nor finished carries the raw phase of its pod. */
  datatype StageState =
    | StateNone | StateInitializing | StateComplete | StateFailed | StateInProgress | StateOfPod(pod: PodPhase)

  datatype Reason =
    | NoReason
    | ResourceCreated | GenerationChange | ResourceDeleted
    | RestartedWorkflow | RestartedDeleteWorkflow
    | CompletedTask(task: TaskName)
    | ChangeCause(text: string)

  datatype Message = NoMessage | PodMessage(pod: nat, phase: PodPhase)

  datatype Stage = Stage(
    generation: nat, task: TaskName, state: StageState, interruptible: bool,
    reason: Reason, message: Message, podName: Option<nat>)

  const NO_STAGE := Stage(0, RunNil, StateNone, false, NoReason, NoMessage, None)

  /** A point in time as a whole second and whether some of that second has passed. Stored times keep the
      second only. */
  datatype Instant = Instant(second: nat, late: bool)

  datatype Status = Status(
    prefix: Option<string>, phase: Phase, stage: Stage, pluginsStarted: seq<TaskName>,
    retryReason: Option<string>, retryTimestamp: Option<Instant>)

  const NO_STATUS := Status(None, PhaseNone, NO_STAGE, [], None, None)

  datatype When = WhenAt | WhenAfter | WhenSidecar | WhenOther

  datatype Plugin = Plugin(when: When, task: TaskName, must: bool)

  datatype Spec = Spec(
    ignoreDelete: bool, optionTasks: seq<seq<TaskName>>, plugins: map<TaskName, Plugin>,
    requireApproval: bool, keepCompletedPods: bool, keepLatestPodsOnly: bool)

  datatype Resource = Resource(
    generation: nat, deletionRequested: bool, changeCause: Option<string>, finalizers: seq<string>,
    spec: Spec, status: Status)

  /** The name a pod is generated from: the resource's prefix, the generation of the resource and the task. */
  datatype GenerateName = GenerateName(prefix: Option<string>, generation: nat, task: TaskName)

  datatype Pod = Pod(name: nat, generateName: GenerateName, generation: nat, created: nat, phase: PodPhase)

  datatype Cause = FirstStage | NewGeneration | Retry | Advance | Restart

  datatype Event =
    | Entered(generation: nat, task: TaskName, cause: Cause)
    | Completed(generation: nat, task: TaskName, pod: nat)
    | PluginsReset
    | JobLaunched(plugin: TaskName, during: TaskName, recorded: bool)
    | FinalizerDropped

  /** One resource, from its creation until it is gone, and the trail of what its passes stored or launched. The
      provisioned generations are those whose config map, secrets, roles and service account a pass has made. */
  datatype World = World(
    resource: Option<Resource>, pods: seq<Pod>, provisioned: set<nat>, clock: Instant, nextPod: nat,
    trail: seq<Event>)

  /** Everything a pass does not decide itself: which calls succeed, the iteration order of the plugin map and
      the random prefix. Set-up fails too when an object it looks for was lost since it was made. The i-th status
      write of the pass is lost when `writes[i]` says so. */
  datatype Choice = Choice(
    readOk: bool, secretsOk: bool, updateOk: bool, podGetOk: bool, oldPlanRemoved: bool, listOk: bool,
    setupOk: bool, podOk: bool, approvalOk: bool, podRemoved: bool,
    pluginOrder: seq<TaskName>, sidecarsBuilt: set<TaskName>, prefix: string, writes: seq<bool>)
  {
    predicate WriteOk(i: nat) { i < |writes| ==> writes[i] }
  }

  predicate IsDeletePhase(phase: Phase) {
    phase == PhaseInitDelete || phase == PhaseDeleting || phase == PhaseDeleted
  }

  /** Reasons are compared as text, so a label that spells one of the controller's own reasons is that reason. */
  function ReasonOfLabel(text: string): Reason {
    if text == "GENERATION_CHANGE" then GenerationChange
    else if text == "TF_RESOURCE_CREATED" then ResourceCreated
    else if text == "TF_RESOURCE_DELETED" then ResourceDeleted
    else if text == "RESTARTED_WORKFLOW" then RestartedWorkflow
    else if text == "RESTARTED_DELETE_WORKFLOW" then RestartedDeleteWorkflow
    else ChangeCause(text)
  }

  const SETUP_SUFFIX := ".setup"

  predicate HasSetupSuffix(text: string) {
    |text| >= |SETUP_SUFFIX| && text[|text| - |SETUP_SUFFIX|..] == SETUP_SUFFIX
  }

  // ---------------------------------------------------------------------------------------------
  // Finalizers

  datatype FinalizerUpdate = Unchanged | Changed(finalizers: seq<string>) | Panics

  function UpdatedFinalizers(phase: Phase, ignoreDelete: bool, finalizers: seq<string>): FinalizerUpdate {
    if TF_FINALIZER in finalizers && (phase == PhaseDeleted || ignoreDelete) then
      match Lists.ListRemove(finalizers, TF_FINALIZER)
      case None => Panics
      case Some(rest) => Changed(rest)
    else if TF_FINALIZER !in finalizers && !ignoreDelete then Changed(finalizers + [TF_FINALIZER])
    else Unchanged
  }

  // ---------------------------------------------------------------------------------------------
  // Stages

  predicate Uninterruptible(task: TaskName) {
    || task.RunInit? || task.RunPlan? || task.RunApply?
    || task.RunInitDelete? || task.RunPlanDelete? || task.RunApplyDelete?
  }

  /** What newStage changes of the status besides making the stage. */
  function ResetFor(s: Status, reason: Reason): Status {
    if reason == GenerationChange then s.(pluginsStarted := [], phase := PhaseInitializing) else s
  }

  function NewStage(generation: nat, task: TaskName, reason: Reason, interruptible: bool, state: StageState): Stage {
    Stage(generation, task, state, interruptible, reason, NoMessage, None)
  }

  datatype Move = Stay | Enter(stage: Stage, cause: Cause)

  /** The pod the failed apply stage ran in is known to be gone. */
  predicate PodGone(pods: seq<Pod>, name: Option<nat>, c: Choice) {
    c.podGetOk && (name.Some? ==> forall i :: 0 <= i < |pods| ==> pods[i].name != name.value)
  }

  function CheckSetNewStage(r: Resource, s: Status, isRetry: bool, pods: seq<Pod>, c: Choice): Move
    requires isRetry ==> s.retryReason.Some?
  {
    var configured := ConfiguredTasks(r.spec.optionTasks);
    var current := s.stage;
    var deleting := IsDeletePhase(s.phase);
    var isNewGeneration := current.generation != r.generation;
    if isRetry && !deleting && !isNewGeneration then
      var text := s.retryReason.value;
      var task := if HasSetupSuffix(text) then RunSetup else RunInit;
      Enter(NewStage(r.generation, task, ReasonOfLabel(text), !Uninterruptible(task), StateInitializing), Retry)
    else if isRetry && deleting && !isNewGeneration then
      var text := s.retryReason.value;
      var task := if HasSetupSuffix(text) then RunSetupDelete else RunInitDelete;
      Enter(NewStage(r.generation, task, ReasonOfLabel(text), !Uninterruptible(task), StateInitializing), Retry)
    else if !current.interruptible && current.state == StateInProgress then
      Stay
    else if isNewGeneration && !deleting then
      Enter(NewStage(r.generation, RunSetup, GenerationChange, true, StateInitializing), NewGeneration)
    else if isNewGeneration && s.phase == PhaseInitDelete then
      Enter(NewStage(r.generation, RunSetupDelete, ResourceDeleted, false, StateInitializing), NewGeneration)
    else if isNewGeneration then
      Enter(NewStage(r.generation, RunSetupDelete, ResourceDeleted, true, StateInitializing), NewGeneration)
    else if current.state == StateComplete then
      if current.task == RunNil then Stay
      else
        var task := NextTask(current.task, configured);
        Enter(NewStage(r.generation, task, CompletedTask(current.task), !Uninterruptible(task),
                       if task == RunNil then StateComplete else StateInitializing), Advance)
    else if current.state == StateFailed && current.task == RunApply && PodGone(pods, current.podName, c) then
      RestartAfter(r, RunPostInit, RestartedWorkflow)
    else if current.state == StateFailed && current.task == RunApplyDelete && PodGone(pods, current.podName, c) then
      RestartAfter(r, RunPostInitDelete, RestartedDeleteWorkflow)
    else
      Stay
  }

  function RestartAfter(r: Resource, task: TaskName, reason: Reason): Move {
    var next := NextTask(task, ConfiguredTasks(r.spec.optionTasks));
    Enter(NewStage(r.generation, next, reason, !Uninterruptible(next), StateInitializing), Restart)
  }

  /** The pods that removeOldPlan leaves, given the reason it is passed. */
  function WithoutOldPlan(pods: seq<Pod>, generation: nat, reason: Reason): seq<Pod> {
    if pods == [] then []
    else if IsOldPlan(pods[0], generation, reason) then WithoutOldPlan(pods[1..], generation, reason)
    else [pods[0]] + WithoutOldPlan(pods[1..], generation, reason)
  }

  predicate IsOldPlan(p: Pod, generation: nat, reason: Reason) {
    && p.generation == generation && p.phase != PodRunning
    && (reason == RestartedWorkflow ==> !(1 <= p.generateName.task.Id() <= 4))
    && (reason == RestartedDeleteWorkflow ==> !(101 <= p.generateName.task.Id() <= 104))
  }

  // ---------------------------------------------------------------------------------------------
  // Plugins

  /** The plugin jobs a pass has put off to its end, and whether a sidecar that must be built was not. */
  datatype Scan = Scan(deferred: seq<TaskName>, aborted: bool)

  predicate Triggers(p: Plugin, task: TaskName) {
    || (p.when == WhenAfter && p.task.Id() < task.Id())
    || (p.when == WhenAt && p.task.Id() == task.Id())
  }

  /** The plugin is a sidecar of the stage that must be built and was not. */
  predicate Aborts(p: Plugin, task: TaskName, built: bool) {
    p.when == WhenSidecar && p.task.Id() == task.Id() && !built && p.must
  }

  function ScanPlugins(order: seq<TaskName>, plugins: map<TaskName, Plugin>, started: seq<TaskName>, task: TaskName,
      built: set<TaskName>): Scan {
    if order == [] then Scan([], false)
    else
      var name := order[0];
      if name !in plugins || name in started then
        ScanPlugins(order[1..], plugins, started, task, built)
      else if Triggers(plugins[name], task) then
        var rest := ScanPlugins(order[1..], plugins, started, task, built);
        Scan([name] + rest.deferred, rest.aborted)
      else if Aborts(plugins[name], task, name in built) then Scan([], true)
      else
        ScanPlugins(order[1..], plugins, started, task, built)
  }

  /** The i-th status a launching pass writes. A pass that started its pod first writes the started stage;
      each put-off job then adds its plugin to the list, the last one put off first. */
  function Contents(s: Status, started: bool, deferred: seq<TaskName>): seq<Status> {
    var base := if started then Started(s) else s;
    (if started then [base] else []) + JobContents(base, deferred)
  }

  function JobContents(s: Status, deferred: seq<TaskName>): seq<Status>
    decreases deferred
  {
    if deferred == [] then []
    else
      var last := deferred[|deferred| - 1];
      var next := s.(pluginsStarted := s.pluginsStarted + [last]);
      [next] + JobContents(next, deferred[..|deferred| - 1])
  }

  /** Whether some write from the i-th to the last of the pass's n writes is stored. */
  predicate Recorded(c: Choice, i: nat, n: nat) {
    exists j :: i <= j < n && c.WriteOk(j)
  }

  function JobEvents(deferred: seq<TaskName>, task: TaskName, c: Choice, i: nat): seq<Event> {
    if deferred == [] then []
    else
      [JobLaunched(deferred[|deferred| - 1], task, Recorded(c, i, i + |deferred|))]
      + JobEvents(deferred[..|deferred| - 1], task, c, i + 1)
  }

  /** The last stored status. */
  function LastStored(s: Status, contents: seq<Status>, c: Choice, i: nat): Status
    decreases contents
  {
    if contents == [] then s
    else LastStored(if c.WriteOk(i) then Stored(contents[0]) else s, contents[1..], c, i + 1)
  }

  function Started(s: Status): Status {
    var phase :=
      if s.phase == PhaseInitializing then PhaseRunning
      else if s.phase == PhaseInitDelete then PhaseDeleting
      else s.phase;
    s.(phase := phase, stage := s.stage.(state := StateInProgress))
  }

  // ---------------------------------------------------------------------------------------------
  // Pods

  predicate Survives(p: Pod, cutoff: Option<Instant>) {
    cutoff.Some? ==> cutoff.value.second < p.created || (cutoff.value.second == p.created && !cutoff.value.late)
  }

  function Lookup(pods: seq<Pod>, s: Status): seq<Pod> {
    if pods == [] then []
    else if Matches(pods[0], s) && Survives(pods[0], s.retryTimestamp) then [pods[0]] + Lookup(pods[1..], s)
    else Lookup(pods[1..], s)
  }

  /** The list of the current stage's pods is by generated name and by generation label. */
  predicate Matches(p: Pod, s: Status) {
    p.generateName == GenerateName(s.prefix, s.stage.generation, s.stage.task) && p.generation == s.stage.generation
  }

  function WithoutPod(pods: seq<Pod>, name: nat): seq<Pod> {
    if pods == [] then []
    else if pods[0].name == name then WithoutPod(pods[1..], name)
    else [pods[0]] + WithoutPod(pods[1..], name)
  }

  // ---------------------------------------------------------------------------------------------
  // A pass

  /** The API server drops the part of a second, and a resource without finalizers once deletion is asked for. */
  function Stored(s: Status): Status {
    match s.retryTimestamp
    case None => s
    case Some(t) => s.(retryTimestamp := Some(t.(late := false)))
  }

  function Kept(r: Resource): Option<Resource> {
    if r.deletionRequested && r.finalizers == [] then None else Some(r)
  }

  function Save(w: World, r: Resource, s: Status, events: seq<Event>, c: Choice): World {
    if c.WriteOk(0) then w.(resource := Some(r.(status := Stored(s))), trail := w.trail + events) else w
  }

  function SaveFinalizers(w: World, r: Resource, finalizers: seq<string>): World {
    var dropped := TF_FINALIZER in r.finalizers && TF_FINALIZER !in finalizers;
    w.(resource := Kept(r.(finalizers := finalizers)), trail := w.trail + if dropped then [FinalizerDropped] else [])
  }

  function Pass(w: World, c: Choice): World {
    if w.resource.None? || !c.readOk then w
    else
      var r := w.resource.value;
      if r.status.phase == PhaseDeleted then FinishDeletion(w, r, c)
      else
        match UpdatedFinalizers(r.status.phase, r.spec.ignoreDelete, r.finalizers)
        case Panics => w
        case Changed(finalizers) => if c.updateOk then SaveFinalizers(w, r, finalizers) else w
        case Unchanged =>
          if r.status.prefix.None? then
            Save(w, r, r.status.(prefix := Some(c.prefix), phase := PhaseInitializing), [], c)
          else if r.status.stage.generation == 0 then
            Save(w, r, FirstStatus(r), [Entered(r.generation, RunSetup, FirstStage), PluginsReset], c)
          else
            Proceed(w, r, c)
  }

  function FinishDeletion(w: World, r: Resource, c: Choice): World {
    if !c.secretsOk then w
    else
      match UpdatedFinalizers(r.status.phase, r.spec.ignoreDelete, r.finalizers)
      case Panics => w
      case Changed(finalizers) => if c.updateOk then SaveFinalizers(w, r, finalizers) else w
      case Unchanged => w
  }

  function FirstStatus(r: Resource): Status {
    r.status.(
      stage := NewStage(r.generation, RunSetup, ResourceCreated, false, StateInitializing),
      pluginsStarted := [])
  }

  function NoticeDeletion(r: Resource): Status {
    if r.deletionRequested && !IsDeletePhase(r.status.phase) then r.status.(phase := PhaseInitDelete) else r.status
  }

  predicate RetryPending(r: Resource) {
    r.changeCause.Some? && r.status.retryReason != r.changeCause
  }

  /** The status a pass works on: deletion noticed first, then a pending retry, which overwrites the phase. */
  function Noticed(r: Resource, clock: Instant): Status {
    var s := NoticeDeletion(r);
    if RetryPending(r)
    then s.(retryReason := r.changeCause, retryTimestamp := Some(clock), phase := PhaseInitializing)
    else s
  }

  function Proceed(w: World, r: Resource, c: Choice): World {
    var s := Noticed(r, w.clock);
    match CheckSetNewStage(r, s, RetryPending(r), w.pods, c)
    case Enter(stage, cause) => EnterStage(w, r, s, stage, cause, c)
    case Stay => Work(w, r, s, c)
  }

  function EnterStage(w: World, r: Resource, s: Status, stage: Stage, cause: Cause, c: Choice): World {
    var removesPlan := stage.reason == RestartedWorkflow || stage.reason == RestartedDeleteWorkflow;
    var pods := if removesPlan && c.oldPlanRemoved then WithoutOldPlan(w.pods, r.generation, s.stage.reason)
      else w.pods;
    var resets := if stage.reason == GenerationChange then [PluginsReset] else [];
    Save(w.(pods := pods), r, ResetFor(s, stage.reason).(stage := stage),
         [Entered(stage.generation, stage.task, cause)] + resets, c)
  }

  function Work(w: World, r: Resource, s: Status, c: Choice): World {
    if s.stage.task == RunNil then
      if s.phase == PhaseRunning then Save(w, r, s.(phase := PhaseCompleted), [], c)
      else if s.phase == PhaseDeleting then Save(w, r, s.(phase := PhaseDeleted), [], c)
      else w
    else if !c.listOk then w
    else
      var found := Lookup(w.pods, s);
      if found != [] then Observe(w, r, s, found[0], c)
      else if s.stage.state == StateInProgress then Save(w, r, s.(stage := s.stage.(state := StateInitializing)), [], c)
      else Launch(w, r, s, c)
  }

  /** For these reasons set-up makes the objects of the generation; for any other it only looks for them. */
  predicate SetsUp(reason: Reason) {
    reason == ResourceCreated || reason == GenerationChange || reason == ResourceDeleted
  }

  /** The objects of the resource's generation are there once set-up went through. */
  predicate HasObjects(w: World, r: Resource, s: Status) {
    SetsUp(s.stage.reason) || r.generation in w.provisioned
  }

  function Launch(w: World, r: Resource, s: Status, c: Choice): World {
    var scan := ScanPlugins(c.pluginOrder, r.spec.plugins, s.pluginsStarted, s.stage.task, c.sidecarsBuilt);
    var needsApproval := (s.stage.task == RunPlan || s.stage.task == RunPlanDelete) && r.spec.requireApproval;
    var prepared := !scan.aborted && (needsApproval ==> c.approvalOk) && c.setupOk && HasObjects(w, r, s);
    var started := prepared && c.podOk;
    var status := LastStored(r.status, Contents(s, started, scan.deferred), c, 0);
    w.(
      resource := Some(r.(status := status)),
      pods := if started then w.pods + [NewPod(w, r, s)] else w.pods,
      provisioned := if prepared then w.provisioned + {r.generation} else w.provisioned,
      nextPod := if started then w.nextPod + 1 else w.nextPod,
      trail := w.trail + JobEvents(scan.deferred, s.stage.task, c, if started then 1 else 0))
  }

  /** The generated name carries the generation of the resource, the label that of the stage. */
  function NewPod(w: World, r: Resource, s: Status): Pod {
    Pod(w.nextPod, GenerateName(s.prefix, r.generation, s.stage.task), s.stage.generation, w.clock.second, PodPending)
  }

  function Observe(w: World, r: Resource, s: Status, pod: Pod, c: Choice): World {
    var stage := s.stage.(podName := Some(pod.name), message := PodMessage(pod.name, pod.phase));
    match pod.phase
    case PodFailed => Save(w, r, s.(stage := stage.(state := StateFailed)), [], c)
    case PodSucceeded =>
      var completed := Completed(stage.generation, stage.task, pod.name);
      var saved := Save(w, r, s.(stage := stage.(state := StateComplete)), [completed], c);
      if c.WriteOk(0) && !r.spec.keepCompletedPods && !r.spec.keepLatestPodsOnly && c.podRemoved
      then saved.(pods := WithoutPod(saved.pods, pod.name))
      else saved
    case _ => Save(w, r, s.(stage := stage.(state := StateOfPod(pod.phase))), [], c)
  }

  // ---------------------------------------------------------------------------------------------
  // Runs

  datatype Edit =
    | EditSpec(spec: Spec)
    | RequestDelete
    | SetChangeCause(cause: Option<string>)
    | EditFinalizers(finalizers: seq<string>)

  datatype EnvStep =
    | EditResource(edit: Edit)
    | MovePod(name: nat, phase: PodPhase)
    | DeletePod(name: nat)
    | Wait(until: Instant)

  /** A change of the spec and a request for deletion start a new generation. */
  function Edited(r: Resource, edit: Edit): Resource {
    match edit
    case EditSpec(spec) => if spec == r.spec then r else r.(spec := spec, generation := r.generation + 1)
    case RequestDelete =>
      if r.deletionRequested then r else r.(deletionRequested := true, generation := r.generation + 1)
    case SetChangeCause(cause) => r.(changeCause := cause)
    case EditFinalizers(finalizers) => r.(finalizers := finalizers)
  }

  function MovePods(pods: seq<Pod>, name: nat, phase: PodPhase): seq<Pod> {
    if pods == [] then []
    else [if pods[0].name == name then pods[0].(phase := phase) else pods[0]] + MovePods(pods[1..], name, phase)
  }

  predicate NotBefore(t: Instant, u: Instant) {
    u.second < t.second || (u.second == t.second && (u.late ==> t.late))
  }

  /** What users, the API server and the kubelet may do between two passes. */
  function EnvNext(w: World, e: EnvStep): World {
    match e
    case EditResource(edit) => if w.resource.None? then w else w.(resource := Kept(Edited(w.resource.value, edit)))
    case MovePod(name, phase) => w.(pods := MovePods(w.pods, name, phase))
    case DeletePod(name) => w.(pods := WithoutPod(w.pods, name))
    case Wait(until) => if NotBefore(until, w.clock) then w.(clock := until) else w
  }

  datatype Step = Controller(choice: Choice) | Environment(step: EnvStep)

  function Next(w: World, step: Step): World {
    match step
    case Controller(c) => Pass(w, c)
    case Environment(e) => EnvNext(w, e)
  }

  function Run(w: World, steps: seq<Step>): World {
    if steps == [] then w else Next(Run(w, steps[..|steps| - 1]), steps[|steps| - 1])
  }

  /** A resource as its creator made it. */
  predicate IsFresh(w: World) {
    && w.resource.Some? && w.pods == [] && w.provisioned == {} && w.trail == []
    && var r := w.resource.value;
       r.generation == 1 && !r.deletionRequested && r.status == NO_STATUS
  }

  ghost predicate Reachable(w: World) {
    exists w0: World, steps :: IsFresh(w0) && w == Run(w0, steps)
  }
}
