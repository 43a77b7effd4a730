# Infrakube: a verified model

Infrakube runs Terraform and Tofu workflows on Kubernetes. A custom resource names a module; a controller takes the
resource through a chain of tasks (setup, init, plan, apply and the optional scripts around them), each in a pod of its
own, and through a second chain when the resource is deleted. This project models the parts of it whose behaviour is
hardest to see from one function, and proves what they promise.

| file | what it models |
|---|---|
| `Tasks.dfy` | the tasks, the two chains, the configured tasks and the search for the next one |
| `Lists.dfy`, `Finalizers.dfy` | removal from a slice while ranging over it, and the finalizer update built on it |
| `Workflow.dfy` | one resource with its pods: a reconcile pass as a function of the state and of how each call turns out, the steps of everyone else, and runs of both |
| `Controller.dfy` | the pass as it is written: an in-memory copy changed step by step, proved equal to the function |
| `WorkflowFacts.dfy` | facts about single passes |
| `PlanBeforeApply.dfy`, `DeletionSafety.dfy`, `StageBound.dfy`, `PodUniqueness.dfy`, `PluginLaunches.dfy` | theorems about all runs |
| `Entries.dfy` | when a pass enters a stage, for each cause, and when it drops the finalizer, told by the stored resource alone |
| `Interrupts.dfy`, `FailedApply.dfy`, `SeenPods.dfy` | which stages an edit cannot interrupt, what a failed apply waits for, and what a pass makes of the pod it finds |
| `Progress.dfy`, `LetGo.dfy` | where a resource is after a number of passes in which nothing fails: how long a life takes, and how a resource is let go undestroyed |
| `LostPods.dfy`, `EditedAgain.dfy`, `PluginTimes.dfy` | the same when a pod is deleted on the way and after an edit of the spec, and in which pass each plugin starts |
| `StageMoves.dfy` | what retries enter and what restarts remove, over all runs, with three remarks on single branches of the stage decision |
| `Provisioning.dfy` | the objects a generation needs before a pod can be made, and how a resource gets stuck without them, over all runs |
| `PlanPods.dfy`, `PlanReuse.dfy` | when one pod serves as the plan of two applies, over all runs, and a run in which it does |
| `PodNames.dfy` | the text pods are generated and looked up by, against the names of the model |
| `StatusRetry.dfy` | the nested back-off loops around a status write |
| `Registry.dfy` | the clusters that kubeconfig secrets name |
| `LogNames.dfy`, `RunNumbers.dfy` | log file names and the run numbers folded from them |
| `DocClosure.dfy` | the dependency lists of the API documentation |
| `PodVolumes.dfy` | the volumes of a task's pod and its sidecars |
| `TaskScripts.dfy` | which script a task runs and whether the config map has it |

Check everything with `dafny verify dfyconfig.toml`.

## How a run is modelled

A `World` is one resource (or none, once it is gone), its pods, the generations whose objects (config map, secrets, roles,
service account) were made, the clock and a trail of what was stored or launched. A
`Step` is a pass of the controller or a step of the environment: an edit of the spec, a request for deletion, a change of
the change-cause label or of the finalizers, a pod moving to any phase or being deleted, the clock advancing. A pass is
atomic and reads fresh state; its `Choice` says which calls succeed, which status writes are lost and in which order the
plugin map is walked. An edit of the spec and a deletion request start a new generation. `Reachable` states are those after
any finite list of steps from a newly created resource. Labels may carry any text: one that spells a reason of the
controller's own counts as that reason.

The Tofu controller is the same machine (pkg/controllers/tofu_controller.go:428-917), so it is modelled once; only the name
of its default script differs, and `TaskScripts` takes that as a parameter.

## What the code does not do

Where a stronger statement would be expected, the model keeps the code's behaviour, and the exact condition or a
counterexample is proved:

- A resource to be deleted that is not yet in the create chain of its generation enters a create task exactly if the pass
  that enters a stage finds no stage yet or a pending change-cause label (`EntersCreateIff`). It then enters no delete task
  unless its spec is edited (`DoomedIsNeverDestroyed`). Where nothing fails it is let go, that is, its apply completes and
  its finalizer is dropped: with n create tasks to go, 3n + 4 or 3n + 3 passes after a request that came one or two passes
  after its creation (`AskedTooEarly`), and 3n + 3 passes after a label set during its destroy if and only if the objects
  of the generation were made by then, which is from the second pass of the destroy on, or the label spells a reason to
  make them (`SentBackIff`); `ExampleIsLetGo` is a reachable state that shows it. A label does not lead there when it is
  set in the phase deleted, or is taken in by a pass that stays on an uninterruptible stage in progress. The branch that
  would restart a destroy is dead, because a retry overwrites the phase (`RetriesNeverDestroy`).
- A label taken in before the objects of the generation were made gets the resource stuck, because only the stages for a new
  resource, a new generation or a deletion make them (`GetsStuckIff`, `LaunchesIff`). It stays so, with no pod, no
  completed stage and no dropped finalizer, until an edit starts a new generation or sets a label that spells one of these
  reasons (`FreesIff`, `StaysStuck`, `SentTooSoonIsStuck`; `ExampleIsStuck` is such a state).
- No completion of a plan serves two applies (`CompletionServesOnce`), but a pod may: if and only if a restart or a retry
  leaves it after its plan completed and a plan completes with it again (`PlansTwiceIff`), where a restart leaves it when
  it is running or could not be removed, and a retry when it was made in the second of the retry (`LeavesIff`).
  `FailedRemovalServesAgain` and `ExampleServesTwice` show it.
- An uninterruptible stage is protected only while its state is `in-progress`; once a pass has seen its pod running, an edit
  of the spec leaves it (`StageIsGuardedIff`, `SeenRunningIsLeft`). Even before that, an edit and a new label together lead
  past the guard in two passes: the first takes the label in and from then on no longer finds the stage's pod, which was
  made before it (`LabelUnguards`).
- A restart is meant to spare the pods up to post-init, but passes the reason of the stage it leaves, so it spares none
  (`RestartRemovesAll`).
- A plugin has two jobs between two resets of the started list if and only if some pass is launching, gets to it, the
  stage's task triggers it, and its earlier launches since the reset all went unrecorded (`RepeatsIff`); `ExampleRepeats` is
  such a run from a new resource. Without lost writes there is none (`NothingLostRunsOnce`).
- Removal from a slice panics or leaves items behind outside the condition of `RemovesExactly`; a second finalizer update in
  the phase deleted adds the finalizer again (`SettlesIff`, `DeletedTakesBack`).
- The status write may succeed without ever having been confirmed (`SuccessNeedsNoConfirmation`), and a stage state is never
  compared (`LostStateIsConfirmed`).
- A volume of a sidecar that shares its name with one of the main pod is replaced by it (`SidecarSourceIff`).
- Run numbers do not increase over the whole workflow (`FallsBehindIff`, `InitFallsBehind`).
- A definition is on some documentation list if and only if a definition that nothing depends on reaches it (`ListedIff`): one
  on which only itself depends is on none (`SelfDependentIsLost`), while a cycle that such a definition reaches is listed
  (`CycleBelowRootIsListed`).
- An inline script for the wildcard task is chosen but never stored (`ChosenFileResolvesIff`).

## Model

| member | source | states |
|---|---|---|
| Tasks.ListContainsTask | pkg/apis/infrakube/v1/helpers.go:3-10 | the search finds the item exactly if it is in the list |
| Tasks.GetConfiguredTasks | pkg/controllers/tf_controller.go:1107-1132 | the nested loops compute the specification `ConfiguredTasks` |
| Tasks.ConfiguredTasksMeaning | pkg/controllers/tf_controller.go:1107-1132 | for every option list: no duplicates, and as a set the eight base tasks plus every named task but the wildcard |
| Tasks.FindNextTask | pkg/controllers/tf_controller.go:1318-1370 | the two scans over the canonical orders compute the specification `NextTask` |
| Tasks.NextTaskMeaning | pkg/controllers/tf_controller.go:1318-1370 | the result is the first configured task after the current one in the same chain, by task identifier, or Nil when there is none |
| Tasks.NextTaskUnique | pkg/controllers/tf_controller.go:1318-1370 | that description admits one result only |
| Tasks.WalkVisitsConfigured | pkg/controllers/tf_controller.go:1318-1370 | asking for the next task again and again from setup (setup-delete) visits exactly the configured tasks of the chain, once each, in canonical order |
| Tasks.RestartLandsOnPlan | pkg/controllers/tf_controller.go:1232-1248 | a restart from post-init lands on pre-plan if that is configured and on plan otherwise, never on Nil |
| Tasks.TextTellsApart | pkg/apis/infrakube/v1/tf_types.go:267-318 | two task names with the same text are the same task |
| Tasks.CreateTexts | pkg/controllers/tf_controller.go:1318-1345 | the create chain in its order, by name |
| Tasks.DeleteTexts | pkg/controllers/tf_controller.go:1318-1345 | the delete chain in its order, by name |
| Lists.ListContainsStr | pkg/utils/utils.go:120-127 | the search finds the string exactly if it is in the list |
| Lists.ListRemoveStr | pkg/utils/utils.go:129-136 | the loop over the shared backing array, which ranges over the original length while the slice shrinks: when it panics, and what the slice holds when it does not |
| Lists.RemovesExactly | pkg/utils/utils.go:129-136 | the loop stays in bounds and equals the order-preserving filter if and only if the item occurs at most once, or never next to itself and not last |
| Finalizers.SettlesIff | pkg/controllers/tf_controller.go:1635-1659 | one update leaves the finalizer present exactly if deletion is not ignored, keeps all others in order and makes a second update report no change, if and only if a condition on phase and list holds |
| Finalizers.DeletedTakesBack | pkg/controllers/tf_controller.go:1638-1657 | in the phase deleted two updates drop the finalizer and add it again |
| Controller.Terraform.UpdateFinalizer | pkg/controllers/tf_controller.go:1635-1659 | changes the copy's finalizers as `UpdatedFinalizers` says, and reports whether it did or panicked |
| Controller.Terraform.NewStage | pkg/controllers/tf_controller.go:1086-1104 | makes a stage of the current generation, and resets plugins and phase of the copy exactly for a change of generation |
| Controller.Terraform.IsTaskInterruptable | pkg/controllers/tf_controller.go:1303-1316 | false exactly for init, plan, apply and their delete counterparts |
| Controller.Terraform.CheckSetNewStage | pkg/controllers/tf_controller.go:1148-1256 | returns the stage to enter, or none, and the status left behind, as the specification's decision on the old state |
| Controller.FilterByRetry | pkg/controllers/tf_controller.go:872-880 | keeps, in order, the pods not made before the last retry |
| Controller.LookupIsFiltered | pkg/controllers/tf_controller.go:855-880 | the pods a pass works with are those listed by name and generation label and then filtered by the retry time |
| Controller.ScanAll | pkg/controllers/tf_controller.go:899-941 | the loop over the plugins puts off the triggered jobs in order and stops at a sidecar that must be built and was not |
| Controller.Reconciler.RunDeferred | pkg/controllers/tf_controller.go:1611-1628 | the jobs put off run last first, each appending its plugin to the copy's list and writing the whole status; which of the lists is stored and which launches are recorded |
| Controller.Reconciler.Notice | pkg/controllers/tf_controller.go:738-776 | a deletion is noticed before a pending retry, whose phase overwrites it |
| Controller.Reconciler.SetUpAndRun | pkg/controllers/tf_controller.go:1920-1922 | for a new resource, a new generation or a deletion the objects of the generation are made and then the pod; for any other reason the pod is made only if they were made before |
| Controller.Reconciler.StartPod | pkg/controllers/tf_controller.go:946-987 | when a pod is made, phase and stage move and the status is written once; when not, nothing changes but the objects that were made |
| Controller.Reconciler.LaunchPod | pkg/controllers/tf_controller.go:895-989 | the new pod, phase and stage, the objects of the generation, the put-off jobs and all writes of a launching pass |
| Controller.Reconciler.ObservePod | pkg/controllers/tf_controller.go:991-1061 | what a pass that finds the stage's pod stores, and when it deletes the pod |
| Controller.Reconciler.Reconcile | pkg/controllers/tf_controller.go:635-1063 | the whole pass, step by step on a copy, has exactly the effect of the specification `Pass` on the stored resource, its pods and the trail |
| WorkflowFacts.MoveMeaning | pkg/controllers/tf_controller.go:1148-1256 | every stage entered fits its cause: advance, new generation, retry or restart, with its generation, state and reason |
| WorkflowFacts.ReachableIsWellStaged | pkg/controllers/tf_controller.go:635-1063 | in every reachable state the stage is a workflow task or Nil of this or an earlier generation, and a failed one knows its pod |
| Entries.RestartIff | pkg/controllers/tf_controller.go:1227-1249 | in every reachable state a pass stores a restart if and only if no label pends, the stage is a failed apply (apply-delete) of the resource's generation, the Get for its pod answered and no pod has that name, the pass gets that far and the write is stored; it is then of plan, or of pre-plan if that is configured, in the same chain |
| Entries.RetryIff | pkg/controllers/tf_controller.go:751-776 | a pass stores a retry if and only if a label pends at the resource's generation, the pass gets that far and the write is stored; setup for a label ending in ".setup" and else init, with label and second remembered, and a reason to set up exactly for three texts |
| Entries.RetryRemovesIff | pkg/controllers/tf_controller.go:778-784 | such a retry leaves all pods alone unless its label spells one of the two reasons to restart and the removal goes through; then exactly those of the generation that are not running go, unless the stage that is left was itself entered for such a reason |
| Entries.NewGenerationIff | pkg/controllers/tf_controller.go:1186-1210 | a pass starts a new generation if and only if the stage is of another one and may be interrupted or is not in progress, the pass gets that far and the write is stored; in the delete chain for a resource that is leaving without a label, and else in the create chain with no plugin started |
| Entries.AdvanceIff | pkg/controllers/tf_controller.go:1211-1226 | a pass advances if and only if no label pends, the stage is a completed task of the resource's generation, the pass gets that far and the write is stored; to the first configured task after it in its chain |
| Entries.FirstStageIff | pkg/controllers/tf_controller.go:713-730 | a pass stores the first stage if and only if the resource is named and has none, is not deleted, has its finalizer as it should be and the write is stored |
| Entries.DropIff | pkg/controllers/tf_controller.go:668-692 | a pass drops the finalizer if and only if it is there, the resource is in the phase deleted and its secrets were updated or deletion is ignored, the update is stored and the removal leaves none of it; the resource is then gone exactly if it was to be deleted and no other finalizer is left |
| Entries.NameStays | pkg/controllers/tf_controller.go:694-711 | the name under which pods are made is given once and never changes |
| FailedApply.FailedPodHoldsStage | pkg/controllers/tf_controller.go:1227-1249 | over any run in which the failed pod of an apply stays and nobody edits the resource or sets a label, no stage is entered and the failed stage is kept |
| LostPods.LostPodIff | pkg/controllers/tf_controller.go:883-894 | in every reachable state with a stage in progress a pass takes it back to initializing if and only if the pass gets to look for its pod, none is there with its name, generation and task that was made since the last retry, and the write is stored; pods, plugins and trail are left as they are |
| LostPods.LostPodIsMadeAgain | pkg/controllers/tf_controller.go:883-896 | on the way through any chain, the second pass after the stage's pod was deleted makes a new pod for the generation and the task, and the resource is where it was before |
| LostPods.LostPodCostsTwo | pkg/controllers/tf_controller.go:883-896 | and from there on it is after m passes where it would have been after m - 2 |
| LostPods.LostPodDelaysCreation | pkg/controllers/tf_controller.go:883-896 | a new resource that loses its pod once is completed after exactly 3n+4+2 passes |
| LostPods.LostPodDelaysDeletion | pkg/controllers/tf_controller.go:883-896 | a delete chain that loses its pod once holds the finalizer before and drops it in exactly the (3m+3+2)-nd pass |
| SeenPods.SeenPodIs | pkg/controllers/tf_controller.go:991-1061 | in every reachable state a pass that works on a stage whose pod is there stores what the pod's phase says, adds the completion exactly if it succeeded, and removes that pod and no other if and only if it succeeded, that is stored, neither setting keeps it and the API server does so |
| Interrupts.InterruptibleIff | pkg/controllers/tf_controller.go:1303-1316 | in every reachable state a stage of any task but setup-delete may be interrupted if and only if it is not for init, plan, apply or their counterparts, nor the setup of a new resource |
| Interrupts.EditLeavesIff | pkg/controllers/tf_controller.go:1186-1210 | an edit of the spec while such a stage is in progress leaves it in the next pass that comes through if and only if it may be interrupted so; else the stage is kept |
| Interrupts.LabelUnguards | pkg/controllers/tf_controller.go:744-776 | but two passes after an edit and a new label, an uninterruptible stage in progress, whose pod was made before the second of the label, has been left, with the pod where it was |
| EditedAgain.EditTakes | pkg/controllers/tf_controller.go:1086-1097 | a completed resource whose spec is edited starts its plugins over with the next pass and is completed again after exactly 3n+2 passes |
| PlanBeforeApply.EveryApplyIsPlanned | pkg/controllers/tf_controller.go:1148-1256 | in every run each entry into apply (apply-delete) follows a completed plan (plan-delete) of the same generation with only that generation's post-plan and pre-apply entered in between |
| PlanPods.CompletionServesOnce | pkg/controllers/tf_controller.go:1148-1256 | no completion of a plan serves two applies |
| PlanPods.PlansTwiceIff | pkg/controllers/tf_controller.go:778-784 | over any run two plans complete in the same pod if and only if a restart or a retry left the pod standing with its plan done and a plan completed with it later |
| PlanPods.LeavesIff | pkg/controllers/tf_controller.go:1258-1299 | a restart or a retry leaves a pod whose plan completed if and only if the pod is running or was not removed, and was made in the second of the retry or, without one, is not older than the last |
| PlanPods.PodServesOnce | pkg/controllers/tf_controller.go:1258-1299 | in a run in which none is left, two applies have plans that completed in different pods |
| PlanReuse.FailedRemovalServesAgain | pkg/controllers/tf_controller.go:780-783 | after a failed apply, a restart that cannot remove the kept plan pod takes three passes to the next apply and makes no new plan pod |
| PlanReuse.ExampleServesTwice | pkg/controllers/tf_controller.go:780-783 | a run from a newly created resource in which one pod served as the plan of two applies |
| DeletionSafety.DeletionDestroysFirst | pkg/controllers/tf_controller.go:668-742 | deletion asked for after the first stage, not ignored, no retry pending from then on: the phases deleting and deleted imply a delete task or Nil, and no pass drops the finalizer unless setup-, init-, plan- and apply-delete completed in that order for the stage's generation |
| DeletionSafety.DropMeansDeleted | pkg/controllers/tf_controller.go:668-692 | the finalizer is dropped only in the phase deleted or when deletion is ignored |
| DeletionSafety.EntersCreateIff | pkg/controllers/tf_controller.go:713-776 | when a pass enters a stage for a resource to be deleted that is not yet in the create chain of its generation, the stage is of the create chain if and only if there was none yet or a retry was pending |
| DeletionSafety.DoomedIsNeverDestroyed | pkg/controllers/tf_controller.go:713-776 | and it then enters no delete task in any run in which its spec is not edited |
| LetGo.AskedTooEarly | pkg/controllers/tf_controller.go:666-776 | a new resource asked to be deleted one or two passes after its creation, before it has a stage: when nothing fails it runs its whole create chain, its apply completes, and its finalizer is dropped in exactly the (3n+4)-th or (3n+3)-rd pass after the request, n create tasks being configured, with no delete task ever entered |
| LetGo.SentBackIff | pkg/controllers/tf_controller.go:738-776 | a resource that was created and is being destroyed, and gets a new change-cause label at any stage of the destroy: it goes back through the create chain, its apply completes, and its finalizer is dropped in exactly the (3n+3)-rd pass after the label, n create tasks being configured from there on, with no delete task entered since, if and only if the destroy was at least two passes old or the label spells a reason to set up |
| LetGo.SentTooSoonIsStuck | pkg/controllers/tf_controller.go:3031-3123 | otherwise, over any run whose edits start no generation and set no such label, no pod of the generation is made, no stage completes and no pass drops the finalizer |
| LetGo.ExampleIsStuck | pkg/controllers/tf_controller.go:3071-3123 | a state reached from a newly created resource in which a resource to be deleted is stuck |
| LetGo.ExampleIsLetGo | pkg/controllers/tf_controller.go:666-776 | a state reached from a newly created resource in which the apply completed, the finalizer is gone and no delete task was ever entered |
| Provisioning.PodsAreProvided | pkg/controllers/tf_controller.go:3029-3132 | in every reachable state each pod is of a generation whose objects were made, and the stage of any other generation has seen no pod and was entered for a reason that sets up or for a label |
| Provisioning.LaunchesIff | pkg/controllers/tf_controller.go:895-989 | in every reachable state a launching pass makes its pod if and only if no sidecar that must be there is missing, a plan that needs approval can ask for it, set-up and the pod's call go through and the resource is not stuck; the pod is then the one new pod, pending, for the stage's name, generation and task |
| Provisioning.ProvidesIff | pkg/controllers/tf_controller.go:1920-1922 | a pass makes the objects of a generation if and only if it is launching, nothing is missing, the stage was entered for a new resource, a new generation or a deletion, and set-up goes through, whatever becomes of the pod |
| Provisioning.GetsStuckIff | pkg/controllers/tf_controller.go:1170-1185 | a pass gets a resource stuck if and only if it stores a stage entered for a label that spells no reason to set up, before the objects of the generation were made |
| Provisioning.FreesIff | pkg/controllers/tf_controller.go:1190-1210 | an edit frees a stuck resource if and only if it starts a new generation or sets a label that spells a reason to set up |
| Provisioning.StaysStuck | pkg/controllers/tf_controller.go:3071-3123 | over any run without such an edit a stuck resource stays stuck: no pod is made for its generation, no stage completes and no pass drops its finalizer |
| StageBound.StagesAreBounded | pkg/controllers/tf_controller.go:1170-1249 | in every run at most eleven stages per first stage, generation change, retry and restart; generation changes and retries are no more than the edits that ask for them; the advances on the trail are in order |
| StageBound.OrderMeaning | pkg/controllers/tf_controller.go:1211-1226 | advances are in order exactly if each one stays in the generation and the chain of the stage entered before it and moves forward |
| StageBound.LastMeaning | pkg/controllers/tf_controller.go:1211-1226 | what the ledger has as the stage entered before is the last entry on the trail, or there is none |
| PodUniqueness.OnePodPerTask | pkg/controllers/tf_controller.go:855-897 | in every reachable state, even with writes lost, at most one pod per generation and task survives the retry filter |
| PodUniqueness.CreatedPodIsFound | pkg/controllers/tf_controller.go:1168-1210 | a pod is created only for a stage of the resource's generation, and the look-up on the status left behind finds it and no other |
| PodNames.NamesTellApart | pkg/controllers/tf_controller.go:2617-2617 | under one prefix, generated names with the same text are of the same generation and task |
| PodNames.MatchesByText | pkg/controllers/tf_controller.go:855-868 | in every reachable state, looking pods up by the text of the generated name and the generation label finds what comparing generation and task finds |
| PodNames.OnePodPerText | pkg/controllers/tf_controller.go:855-897 | in every reachable state no two pods that survive the retry filter were generated from the same text |
| PluginLaunches.PluginsRunOnce | pkg/controllers/tf_controller.go:899-914 | in every run, between two resets of the started list no launch follows a recorded one of the same plugin, and the list is without duplicates exactly the plugins recorded since the last reset |
| PluginLaunches.NothingLostRunsOnce | pkg/controllers/tf_controller.go:1611-1628 | without lost writes each plugin has at most one job between two resets |
| PluginLaunches.PassLaunches | pkg/controllers/tf_controller.go:899-941 | in every state reached by passes that walk the plugins without repetition, as a map is walked, a pass launches a plugin, once, if and only if it is launching, gets to the plugin before a sidecar stops it, the stage's task triggers the plugin and no launch of it is on record since the last reset |
| PluginLaunches.RepeatsIff | pkg/controllers/tf_controller.go:899-941 | over any run a plugin has two jobs between two resets if and only if some pass launches one that was launched since the last reset, always off the record |
| PluginLaunches.LostLaunchRepeats | pkg/controllers/tf_controller.go:1611-1628 | a pass that puts off at least one job, fails in set-up and loses the writes makes the next such pass repeat a launch |
| PluginLaunches.ExampleRepeats | pkg/controllers/tf_controller.go:1611-1628 | a run of four passes from a newly created resource in which a plugin is launched twice without a reset in between |
| PluginLaunches.LaunchesAreTriggered | pkg/controllers/tf_controller.go:903-914 | a pass launches only plugins that have not started and are triggered: After plugins for a later task than their trigger, At plugins for their own |
| PluginTimes.PluginStartsOnTime | pkg/controllers/tf_controller.go:899-941 | while a new resource is created and nothing fails, a plugin's job is on record after k passes if and only if by then the pod of a task was launched that comes after its own (After) or is its own (At), the i-th task's in pass 3i+4 |
| Progress.CreateTakes | pkg/controllers/tf_controller.go:684-730 | when each pod has succeeded by the next pass, a fresh resource with n configured create tasks is completed after k passes if and only if k is at least 3n+4, and then stays as it is |
| Progress.DeleteTakes | pkg/controllers/tf_controller.go:668-682 | a delete chain of m configured tasks holds the finalizer before and drops it in exactly the (3m+3)-rd pass |
| Progress.WholeLife | pkg/controllers/tf_controller.go:666-1063 | creation, completion, request for deletion and the dropped finalizer, one after the other |
| Progress.JourneyDrops | pkg/controllers/tf_controller.go:668-682 | on the way of a resource to be deleted through either chain the finalizer is held in every round up to the last, and dropped in that one alone |
| Progress.RoundIsRun | pkg/controllers/tf_controller.go:666-1063 | each such round is a pass and steps of the environment that move pods, so the states after any number of rounds are reachable |
| Progress.WalkIsWalk | pkg/controllers/tf_controller.go:1211-1226 | each task on a walk is followed by its next task and the last by Nil |
| StageMoves.RetriesNeverDestroy | pkg/controllers/tf_controller.go:744-776 | in every run each stage entered for a retry is setup or init, so no retry restarts a destroy |
| StageMoves.RetryCreates | pkg/controllers/tf_controller.go:1170-1185 | remark on one branch: a retry always leads to setup or init, never to the delete chain |
| StageMoves.StageIsGuardedIff | pkg/controllers/tf_controller.go:1186-1210 | remark on one branch: on a new generation exactly an uninterruptible stage in progress is not left |
| StageMoves.SeenRunningIsLeft | pkg/controllers/tf_controller.go:1051-1056 | remark on two passes: once its pod was seen running, an edit of the spec leaves any stage |
| StageMoves.RestartRemovesAll | pkg/controllers/tf_controller.go:778-784 | in every run a restart leaves of the generation's pods exactly the running ones |
| StatusRetry.EqualButForState | pkg/apis/infrakube/v1/tf_types.go:744-764 | the comparison finds no difference exactly if the stages agree in all but the state |
| StatusRetry.TaskListsAreEqual | pkg/apis/infrakube/v1/helpers.go:12-22 | true exactly for equal lists |
| StatusRetry.IsConfirmed | pkg/controllers/tf_controller.go:1795-1810 | confirmed exactly if the statuses agree in all but the stage state and the retry entries |
| StatusRetry.ConfirmsIff | pkg/controllers/tf_controller.go:1795-1810 | the confirmation in terms of the single items: phase, name, plugins and all of the stage but its state |
| StatusRetry.BackoffIsPower | pkg/controllers/tf_controller.go:1770-1773 | the computed pause is exactly 2^(k+2) ms |
| StatusRetry.UpdateStatusWithRetry | pkg/controllers/tf_controller.go:1764-1831 | the nested loops return the result and do the updates, fetches, reads and pauses of the specification, for every server |
| StatusRetry.RetriesAreBounded | pkg/controllers/tf_controller.go:1764-1831 | at most 10 updates, 9 fetches and 100 confirmation reads, and pauses of at most 45,008 ms in all |
| StatusRetry.SucceedsIff | pkg/controllers/tf_controller.go:1764-1831 | the call succeeds if and only if some try was reached and confirmed, or all ten were given up and the last update was taken |
| StatusRetry.EndTells | pkg/controllers/tf_controller.go:1764-1831 | a failure to fetch, to read or to update is the last thing done, and a success comes after a read |
| StatusRetry.SuccessMeansTaken | pkg/controllers/tf_controller.go:1827-1830 | success implies that the last update was taken |
| StatusRetry.SuccessNeedsNoConfirmation | pkg/controllers/tf_controller.go:1764-1831 | a server that never shows an update makes for the longest run, which attains the bound and succeeds |
| StatusRetry.ActionsInOrder | pkg/controllers/tf_controller.go:1764-1831 | for every server the actions come in one order: an update, at most ten reads each but a last one followed by its pause, and before each further update a pause of 2^(u+2) ms after u updates and a fetch |
| Registry.KubeconfigProvider.constructor | pkg/multicluster/provider.go:53-74 | an empty registry with the options' defaults filled in |
| Registry.KubeconfigProvider.Get | pkg/multicluster/provider.go:105-114 | the engaged cluster of that name, or none |
| Registry.KubeconfigProvider.HandleSecret | pkg/multicluster/provider.go:136-202 | the new maps, indexes and live contexts after a secret was added or updated, for every way the calls turn out |
| Registry.KubeconfigProvider.DeleteSecret | pkg/multicluster/provider.go:88-94 | the new maps after a secret was deleted |
| Registry.KubeconfigProvider.EngageCluster | pkg/multicluster/provider.go:163-196 | creating, indexing and engaging a cluster, and taking the entry back when engaging fails |
| Registry.KubeconfigProvider.Disengage | pkg/multicluster/provider.go:204-220 | takes the cluster and every secret mapped to it out and cancels its context |
| Registry.KubeconfigProvider.DisengageSecret | pkg/multicluster/provider.go:222-229 | disengages the cluster of the secret, if it has one |
| Registry.KubeconfigProvider.IndexField | pkg/multicluster/provider.go:116-134 | registers the field and indexes it on the engaged clusters up to the first that refuses |
| Registry.EngagedIff | pkg/multicluster/provider.go:136-229 | over any history a secret is engaged for a cluster if and only if its latest event claimed it and went through, and no later event claimed that cluster, even one that failed |
| Registry.FoundIff | pkg/multicluster/provider.go:105-114 | a cluster is found if and only if some secret is so engaged for it |
| Registry.HandledSecret | pkg/multicluster/provider.go:136-244 | after any history a secret of the namespace, with the selector label "true" and data that parses, whose cluster is created, takes every field and engages, is engaged and found under its cluster label, or without one under its name; if namespace, label, data or parsing fails it is engaged for nothing |
| Registry.SameLabelDisplaces | pkg/multicluster/provider.go:161-244 | a handled secret with a cluster label leaves no other engaged for that cluster, even if its own claim fails |
| Registry.FieldIndexedIff | pkg/multicluster/provider.go:116-134 | an engaged cluster has a new field indexed if and only if the host took it and neither this cluster nor an engaged one asked before refuses |
| Registry.TakenUntilRefused | pkg/multicluster/provider.go:169-176 | a new cluster takes exactly the registered fields before the first it refuses, in order |
| Registry.RunValid | pkg/multicluster/provider.go:161-229 | after any history the secret map is a bijection onto the clusters, and the contexts created and not cancelled are exactly those of the entries |
| Registry.RunFullyIndexed | pkg/multicluster/provider.go:116-176 | as long as no registration fails, every engaged cluster has exactly the registered fields indexed, in order |
| LogNames.CapturedIff | task-container-build-tools/scripts/entrypoint/src/main.rs:145-150 | the parser captures a number exactly from the names of the pattern's language |
| LogNames.UuidIff | task-container-build-tools/scripts/entrypoint/src/main.rs:145-150 | the identifier in a log name is five groups of hexadecimal digits in either case, of 8, 4, 4, 4 and 12 |
| LogNames.DecimalParses | task-container-build-tools/scripts/entrypoint/src/main.rs:156-157 | a printed number is parsed back |
| LogNames.LogNameRoundTrip | task-container-build-tools/scripts/entrypoint/src/main.rs:253-256 | for every task, 32-bit run number and UUID the printed log name is read back as its number by its own task, and matched by neither pattern of any other |
| LogNames.ScriptIsNoLog | task-container-build-tools/scripts/entrypoint/src/main.rs:227-227 | the script that a launch puts beside the logs is a log of no task |
| RunNumbers.GetCurrentRerun | task-container-build-tools/scripts/entrypoint/src/main.rs:111-190 | 10 for a task off the list, 20 for an unreadable directory, and else the number computed from the three maxima on 32 bits |
| RunNumbers.FoldTasks | task-container-build-tools/scripts/entrypoint/src/main.rs:138-189 | the nested loops compute the maxima of the task itself, of those before and of those after it |
| RunNumbers.NumbersIncrease | task-container-build-tools/scripts/entrypoint/src/main.rs:111-190 | over any launches from a directory without logs, whatever else lies in it, the k-th number is below k, counting from one, and exceeds every number given before to its own and every later task |
| RunNumbers.LogsAreApart | task-container-build-tools/scripts/entrypoint/src/main.rs:253-256 | no launch overwrites the log of another |
| RunNumbers.FallsBehindIff | task-container-build-tools/scripts/entrypoint/src/main.rs:180-189 | a number is below one given before to an earlier task if and only if a later task has a higher number than the own task and the earlier one exceeds that by at least two |
| RunNumbers.InitFallsBehind | task-container-build-tools/scripts/entrypoint/src/main.rs:180-189 | a plan, two setups and an init are given 0, 1, 2 and 1 |
| RunNumbers.OneLogFound | task-container-build-tools/scripts/entrypoint/src/main.rs:111-190 | with a single log, its number goes to later tasks, and one more, on 32 bits, to its own and earlier ones |
| RunNumbers.OldLogIsZero | task-container-build-tools/scripts/entrypoint/src/main.rs:151-164 | a log named after its task only counts as number 0 |
| RunNumbers.LargeLogIsNone | task-container-build-tools/scripts/entrypoint/src/main.rs:155-161 | a log with a number too large for 32 bits counts for nothing |
| RunNumbers.LastNumberWraps | task-container-build-tools/scripts/entrypoint/src/main.rs:180-189 | after the highest number the own and earlier tasks are given the lowest |
| RunNumbers.NegativeLogIsNone | task-container-build-tools/scripts/entrypoint/src/main.rs:145-164 | the log of a launch with such a number counts for nothing |
| RunNumbers.CreateTaskAt | task-container-build-tools/scripts/entrypoint/src/main.rs:112-115 | the list of tasks is that of the create chain, in its order |
| RunNumbers.AnyTaskNext | task-container-build-tools/scripts/entrypoint/src/main.rs:253-256 | any task may be launched next, with any files that are no logs in the directory, so every order of launches is covered |
| RunNumbers.ScriptsAreNoLogs | task-container-build-tools/scripts/entrypoint/src/main.rs:227-227 | the scripts of all tasks are such files |
| RunNumbers.OtherLogsAreNoLogs | task-container-build-tools/scripts/entrypoint/src/main.rs:253-256 | so are the logs of tasks off the list, such as those of the delete chain |
| RunNumbers.CreateTasksAreNames | task-container-build-tools/scripts/entrypoint/src/main.rs:112-115 | the ten create tasks are pairwise different and without a dot |
| DocClosure.ShouldAppendDependency | pkg/apis/infrakube/v1/doc.go:140-147 | true exactly if the title is not listed yet |
| DocClosure.IsDependedOn | pkg/apis/infrakube/v1/doc.go:149-158 | true exactly if some definition depends on the name |
| DocClosure.Close | pkg/apis/infrakube/v1/doc.go:84-119 | the repeat-until-stable loop terminates for all definitions, with a list of definitions reachable from the root, each title once, closed under known dependencies |
| DocClosure.FindRoots | pkg/apis/infrakube/v1/doc.go:64-82 | the map by title has the title of exactly the definitions nothing depends on, each with one of them |
| DocClosure.Generate | pkg/apis/infrakube/v1/doc.go:64-119 | one such list under each of those titles, and no other |
| DocClosure.TitleIs | pkg/apis/infrakube/v1/doc.go:64-73 | a title is the path without the first mention of the own package, followed by version and group |
| DocClosure.ListedExactlyIff | pkg/apis/infrakube/v1/doc.go:84-119 | the list is exactly the reachable known definitions, each once, if and only if no two of them share a title |
| DocClosure.ListedIff | pkg/apis/infrakube/v1/doc.go:64-119 | with distinct titles a definition is on some list if and only if one that nothing depends on reaches it |
| DocClosure.AcyclicIsCovered | pkg/apis/infrakube/v1/doc.go:64-119 | without cycles the lists together hold every definition |
| DocClosure.SelfDependentIsLost | pkg/apis/infrakube/v1/doc.go:64-66 | a definition on which only itself depends is on no list |
| DocClosure.CycleBelowRootIsListed | pkg/apis/infrakube/v1/doc.go:64-119 | one that depends on itself is listed all the same when a definition that nothing depends on depends on it |
| PodVolumes.ValidateVolume | pkg/controllers/tf_controller.go:2572-2610 | accepts exactly the options with no reserved volume name, a mount for every volume and a volume for every mount |
| PodVolumes.GeneratePod | pkg/controllers/tf_controller.go:2726-2763 | fails exactly if validation does, and else builds the specified containers and volumes |
| PodVolumes.BuiltIff | pkg/controllers/tf_controller.go:2572-2610 | a pod is built if and only if no user volume has one of five names, each has a mount and each mount a volume |
| PodVolumes.TaskFindsItsFiles | pkg/controllers/tf_controller.go:2728-2922 | in every built pod, with any sidecars, the first container is named "task" or after a plugin, and mounts home, add-ons, ask-pass and ssh each at its one path, from the claim, the config map and the secret of the resource |
| PodVolumes.ScriptIsMountedIff | pkg/controllers/tf_controller.go:2806-2826 | it mounts the script's config map, at its path and from that map, if and only if both name and key are given |
| PodVolumes.UserFindsOwnVolumes | pkg/controllers/tf_controller.go:2752-2763 | it has every mount of the user as given, and with distinct names each stands for the user's own volume |
| PodVolumes.SidecarContainersFollow | pkg/controllers/tf_controller.go:2984-2990 | behind it come exactly the containers of the sidecars, one sidecar after another |
| PodVolumes.MergeSidecar | pkg/controllers/tf_controller.go:2984-3001 | appends a sidecar's containers and, in order, its volumes whose names were not there before it |
| PodVolumes.GeneratedIsClosed | pkg/controllers/tf_controller.go:2806-3001 | every mount of every container of a built pod names a volume of the pod, with any number of sidecars built the same way |
| PodVolumes.OwnDistinctIff | pkg/controllers/tf_controller.go:2726-2906 | without sidecars the volume names are distinct if and only if the user's are |
| PodVolumes.GeneratedIsDistinct | pkg/controllers/tf_controller.go:2984-3001 | distinct user names and sidecars with distinct names make for distinct names |
| PodVolumes.BuiltSidecarsMerge | pkg/controllers/tf_controller.go:2984-3001 | merging any number of sidecars that the same code built keeps both |
| PodVolumes.SidecarSourceIff | pkg/controllers/tf_controller.go:2984-3001 | a name stands for a sidecar's own volume after the merge if and only if no earlier volume has it, or the first that has it is of the same source |
| TaskScripts.ChooseFile | pkg/controllers/tf_controller.go:398-494 | the loop over the options and the defaults choose the specified inline file |
| TaskScripts.FillConfigMap | pkg/controllers/tf_controller.go:1969-2051 | the config map data of a changed generation: default scripts, inline scripts, downloads and backend, in that order on top of the module's data |
| TaskScripts.ChosenFileIs | pkg/controllers/tf_controller.go:398-494 | the inline file if some option gives the task an inline script; else none if the last option for it has a URL, or the last that names a config map gives both its parts; else the default of its kind: the tool's for init, plan and apply, setup's for setup, the empty one for the other workflow tasks |
| TaskScripts.FilesHold | pkg/controllers/tf_controller.go:1969-2051 | default scripts, downloads and backend are each under their own name, and other data of the module is left as it was |
| TaskScripts.TaskRuns | pkg/controllers/tf_controller.go:1969-1986 | a task of the workflow runs from the config map its last inline script, or the default script of its kind unless its script comes from elsewhere |
| TaskScripts.ChosenFileResolvesIff | pkg/controllers/tf_controller.go:1969-1986 | a non-empty chosen file is a key of that data if and only if the task is not the wildcard |
| TaskScripts.InlineFileHoldsLast | pkg/controllers/tf_controller.go:1974-1986 | the file of a task is there if and only if some option gives it an inline script, and holds the last such script |

## Left out

- Stale reads: a pass is taken to read the resource and its pods as they are; what a lagging cache adds is not modelled.
- The reconcile lock in the local cache: passes over one resource are taken to be serial.
- Kubernetes calls, events and logging: each is a choice between success and failure, or left out.
- The objects of a generation one by one: they count as made once a set-up got through all of them, and one that is lost or only half made again later is a set-up that fails. The persistent volume claim counts with them.
- Outputs copied into the status, pod identifiers, start and stop times: stored but never decided upon.
- The text of reasons and messages: a reason is the constructor it spells, and a message is the pod and phase it names.
- The containers a sidecar brings: of a sidecar that is to be built only whether it could be; those whose container names are taken already are not told apart.
- Zero creation timestamps: every pod has one.
- The background reapers of old pods and plugins, node selectors and tolerations, name truncation and label hashing.
- The retries inside one fetch of the resource (getTfResource): a fetch returns or fails as a whole.
- The server's answer to a status update overwriting the in-memory copy: the desired status is taken to stay what it was.
- Goroutines that create plugin jobs: a job counts as launched when its goroutine starts.
- Controller.Reconciler.Reconcile: the trail of events is ghost state added for the theorems; the program keeps none.
- Registry.KubeconfigProvider.HandleSecret: events are serial and each registration of a field is one step, so a registration racing with a secret event is not modelled; secrets have names.
- RunNumbers.NumbersIncrease: a launch counts once its log file is created, and launches of one generation do not overlap.
- TaskScripts.FillConfigMap: the secret data and the errors of the set-up in between; the text of the downloads is a parameter.
- PodVolumes.GeneratePod: environment variables, labels, images and security settings.
- The cache server, kubeconfig parsing, address parsing and ssh configuration: foreign code and I/O.
