/** A failed apply whose pod is left where it is: the workflow waits for as long as it stays. */
module FailedApply {
  import opened Wrappers
  import opened Tasks
  import opened Workflow
  import opened WorkflowFacts
  import opened Entries
  import PodUniqueness

  /** The pod is the stage's and has failed: made under the resource's prefix for the generation and the task of its
      stage, not before the last retry. */
  predicate IsFailedPod(s: Status, q: Pod) {
    && q.phase == PodFailed && s.stage.podName == Some(q.name)
    && q.generateName == GenerateName(s.prefix, s.stage.generation, s.stage.task) && q.generation == s.stage.generation
    && (s.retryTimestamp.Some? ==> s.retryTimestamp.value.second <= q.created)
  }

  /** The stage of the current generation is an apply that failed, no label pends, and its pod is there. */
  ghost predicate Holds(w: World, q: Pod) {
    w.resource.Some? ==>
      && q in w.pods
      && var r := w.resource.value;
      && !LabelPends(r) && r.status.stage.generation == r.generation && r.status.stage.state == StateFailed
      && (r.status.stage.task == RunApply || r.status.stage.task == RunApplyDelete) && IsFailedPod(r.status, q)
  }

  /** The step edits nothing but the finalizers and leaves the pod alone. */
  predicate SparesPod(step: Step, q: Pod) {
    match step
    case Controller(_) => true
    case Environment(EditResource(edit)) => edit.EditFinalizers?
    case Environment(MovePod(name, _)) => name != q.name
    case Environment(DeletePod(name)) => name != q.name
    case Environment(Wait(_)) => true
  }

  /** The stage is what it was, but for its message. */
  ghost predicate SameStage(w: World, w': World) {
    w'.resource.Some? ==>
      && w.resource.Some?
      && var stage, stage' := w.resource.value.status.stage, w'.resource.value.status.stage;
         stage'.(message := stage.message) == stage
  }

  ghost predicate NoEntry(events: seq<Event>) {
    forall e :: e in events ==> !e.Entered?
  }

  lemma HeldFinds(w: World, s: Status, q: Pod)
    requires PodUniqueness.Fit(w) && w.resource.Some? && q in w.pods && IsFailedPod(s, q)
    requires s.retryTimestamp == w.resource.value.status.retryTimestamp
    ensures Lookup(w.pods, s) != [] && Lookup(w.pods, s)[0] == q
  {
    PodUniqueness.FoundIs(w, s, q);
  }

  lemma HeldEntersNothing(w: World, q: Pod, c: Choice)
    requires PodUniqueness.Fit(w) && w.resource.Some? && Holds(w, q)
    ensures !KindOf(w, c).Entering?
  {
    ComesThroughIff(w, c);
    if ComesThrough(w, c) {
      var r := w.resource.value;
      NoticedKeeps(r, w.clock);
      HeldDecidesNothing(r, Noticed(r, w.clock), w.pods, c, q);
    }
  }

  lemma HeldDecidesNothing(r: Resource, s: Status, pods: seq<Pod>, c: Choice, q: Pod)
    requires s.stage.generation == r.generation && s.stage.state == StateFailed && q in pods
    requires s.stage.podName == Some(q.name)
    ensures CheckSetNewStage(r, s, false, pods, c) == Stay
  {
    var i :| 0 <= i < |pods| && pods[i] == q;
  }

  lemma HeldWorks(w: World, q: Pod, c: Choice)
    requires PodUniqueness.Fit(w) && w.resource.Some? && Holds(w, q) && KindOf(w, c) == Working
    ensures Holds(Pass(w, c), q) && SameStage(w, Pass(w, c)) && Pass(w, c).trail == w.trail + []
  {
    var r := w.resource.value;
    var s := Noticed(r, w.clock);
    NoticedKeeps(r, w.clock);
    var t, events := WorkingPass(w, c);
    HeldFinds(w, s, q);
  }

  lemma HeldSaves(w: World, q: Pod, c: Choice) returns (events: seq<Event>)
    requires PodUniqueness.Fit(w) && w.resource.Some? && Holds(w, q)
    requires !KindOf(w, c).Entering? && KindOf(w, c) != Working
    ensures Holds(Pass(w, c), q) && SameStage(w, Pass(w, c)) && Pass(w, c).trail == w.trail + events && NoEntry(events)
  {
    assert w.trail + [] == w.trail;
    if KindOf(w, c) == Finalizers {
      var f := FinalizerPass(w, c);
    }
    events := if Pass(w, c).trail == w.trail then [] else [FinalizerDropped];
  }

  lemma EnvHolds(w: World, q: Pod, e: EnvStep)
    requires Holds(w, q) && SparesPod(Environment(e), q)
    ensures Holds(EnvNext(w, e), q) && SameStage(w, EnvNext(w, e)) && EnvNext(w, e).trail == w.trail + []
  {
    if w.resource.Some? {
      match e
      case MovePod(name, phase) => MoveSpares(w.pods, name, phase, q);
      case DeletePod(name) => DeleteSpares(w.pods, name, q);
      case _ =>
    }
  }

  lemma {:induction false} MoveSpares(pods: seq<Pod>, name: nat, phase: PodPhase, q: Pod)
    requires q.name != name && q in pods
    ensures q in MovePods(pods, name, phase)
  {
    if pods[0] != q {
      MoveSpares(pods[1..], name, phase, q);
    }
  }

  lemma {:induction false} DeleteSpares(pods: seq<Pod>, name: nat, q: Pod)
    requires q.name != name && q in pods
    ensures q in WithoutPod(pods, name)
  {
    if pods[0] != q {
      DeleteSpares(pods[1..], name, q);
    }
  }

  /** After the events the apply is still held, and nothing was entered. */
  ghost predicate HeldAfter(w: World, v: World, q: Pod, events: seq<Event>) {
    PodUniqueness.Fit(v) && Holds(v, q) && SameStage(w, v) && v.trail == w.trail + events && NoEntry(events)
  }

  lemma NextHolds(w: World, q: Pod, step: Step) returns (events: seq<Event>)
    requires PodUniqueness.Fit(w) && Holds(w, q) && SparesPod(step, q)
    ensures HeldAfter(w, Next(w, step), q, events)
  {
    events := [];
    match step
    case Environment(e) =>
      PodUniqueness.EnvFit(w, e);
      EnvHolds(w, q, e);
    case Controller(c) =>
      PodUniqueness.PassFit(w, c);
      if w.resource.Some? {
        HeldEntersNothing(w, q, c);
        if KindOf(w, c) == Working {
          HeldWorks(w, q, c);
        } else {
          events := HeldSaves(w, q, c);
        }
      }
  }

  lemma SameStageOn(w: World, v: World, v': World)
    requires SameStage(w, v) && SameStage(v, v')
    ensures SameStage(w, v')
  {
  }

  lemma HeldAtFirst(w: World, q: Pod)
    requires PodUniqueness.Fit(w) && Holds(w, q)
    ensures HeldAfter(w, w, q, [])
  {
  }

  lemma HeldAfterNext(w: World, v: World, q: Pod, step: Step, first: seq<Event>) returns (events: seq<Event>)
    requires HeldAfter(w, v, q, first) && SparesPod(step, q)
    ensures HeldAfter(w, Next(v, step), q, events)
  {
    var last := NextHolds(v, q, step);
    HeldOn(w, v, Next(v, step), q, first, last);
    events := first + last;
  }

  lemma HeldOn(w: World, v: World, v': World, q: Pod, first: seq<Event>, last: seq<Event>)
    requires HeldAfter(w, v, q, first) && HeldAfter(v, v', q, last)
    ensures HeldAfter(w, v', q, first + last)
  {
    SameStageOn(w, v, v');
    assert v'.trail == w.trail + (first + last);
  }

  lemma {:induction false} RunHolds(w: World, q: Pod, steps: seq<Step>) returns (events: seq<Event>)
    requires PodUniqueness.Fit(w) && Holds(w, q) && forall i :: 0 <= i < |steps| ==> SparesPod(steps[i], q)
    ensures HeldAfter(w, Run(w, steps), q, events)
    decreases steps
  {
    if steps == [] {
      events := [];
      HeldAtFirst(w, q);
    } else {
      var before := steps[..|steps| - 1];
      var first := RunHolds(w, q, before);
      events := HeldAfterNext(w, Run(w, before), q, steps[|steps| - 1], first);
    }
  }

  /** As long as the failed pod of an apply stays, and nobody edits the resource or sets a label, no run enters any
      stage: the resource keeps its failed apply. */
  lemma FailedPodHoldsStage(w: World, q: Pod, steps: seq<Step>) returns (events: seq<Event>)
    requires Reachable(w) && w.resource.Some? && Holds(w, q)
    requires forall i :: 0 <= i < |steps| ==> SparesPod(steps[i], q)
    ensures var v := Run(w, steps);
      && v.trail == w.trail + events && (forall e :: e in events ==> !e.Entered?)
      && (v.resource.Some? ==>
            var stage, stage' := w.resource.value.status.stage, v.resource.value.status.stage;
            stage'.task == stage.task && stage'.generation == stage.generation && stage'.state == StateFailed
            && stage'.podName == stage.podName)
  {
    PodUniqueness.ReachableFit(w);
    events := RunHolds(w, q, steps);
  }
}
