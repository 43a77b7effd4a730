/** What a pass makes of the pod it finds for its stage. */
module SeenPods {
  import opened Wrappers
  import opened Tasks
  import opened Workflow
  import opened WorkflowFacts
  import opened Entries
  import opened LostPods
  import PodUniqueness

  lemma SeenIsFound(w: World, p: Pod)
    requires Reachable(w) && w.resource.Some? && !LabelPends(w.resource.value) && p in w.pods
    requires IsPodOf(w.resource.value.status, p, RetryTime(w))
    ensures var s := Noticed(w.resource.value, w.clock); Lookup(w.pods, s) != [] && Lookup(w.pods, s)[0] == p
  {
    PodUniqueness.ReachableFit(w);
    NoticedKeeps(w.resource.value, w.clock);
    PodUniqueness.FoundIs(w, Noticed(w.resource.value, w.clock), p);
  }

  /** What the phase of its pod says of a stage. */
  predicate Tells(phase: PodPhase, state: StageState) {
    match phase
    case PodSucceeded => state == StateComplete
    case PodFailed => state == StateFailed
    case _ => state == StateOfPod(phase)
  }

  /** The pod succeeded, that is stored, neither setting asks to keep it, and the API server removes it. */
  predicate IsDone(p: Pod, spec: Spec, c: Choice) {
    p.phase == PodSucceeded && c.WriteOk(0) && !spec.keepCompletedPods && !spec.keepLatestPodsOnly && c.podRemoved
  }

  lemma {:induction false} WithoutPodKeepsOthers(pods: seq<Pod>, name: nat)
    ensures forall q :: q in WithoutPod(pods, name) <==> q in pods && q.name != name
  {
    if pods != [] {
      assert pods == [pods[0]] + pods[1..];
      WithoutPodKeepsOthers(pods[1..], name);
    }
  }

  lemma ObserveTells(w: World, r: Resource, s: Status, p: Pod, c: Choice)
    requires w.resource == Some(r) && c.WriteOk(0)
    ensures var w' := Observe(w, r, s, p, c);
      && w'.resource.Some? && w'.resource.value.status.stage.podName == Some(p.name)
      && Tells(p.phase, w'.resource.value.status.stage.state)
      && w'.resource.value.status.stage.message == PodMessage(p.name, p.phase)
      && w'.trail == w.trail + if p.phase == PodSucceeded then [Completed(s.stage.generation, s.stage.task, p.name)]
         else []
  {
  }

  lemma ObserveRemovesIff(w: World, r: Resource, s: Status, p: Pod, c: Choice)
    requires w.resource == Some(r) && p in w.pods
    ensures var w' := Observe(w, r, s, p, c);
      && (p !in w'.pods <==> IsDone(p, r.spec, c))
      && forall q :: q in w.pods && q.name != p.name <==> q in w'.pods && q.name != p.name
  {
    WithoutPodKeepsOthers(w.pods, p.name);
  }

  /** In every reachable state a pass that works on a stage whose pod is there stores what the pod's phase says of it,
      with the pod's name, and adds the completion of the stage if and only if the pod succeeded. It removes the pod
      if and only if the pod succeeded, the write is stored, neither setting asks to keep it and the API server does
      so; no other pod goes. */
  lemma SeenPodIs(w: World, p: Pod, c: Choice)
    requires Reachable(w) && KindOf(w, c) == Working && c.listOk && !LabelPends(w.resource.value) && p in w.pods
    requires IsPodOf(w.resource.value.status, p, RetryTime(w)) && w.resource.value.status.stage.task != RunNil
    ensures var r, w' := w.resource.value, Pass(w, c);
      && w'.resource.Some?
      && (c.WriteOk(0) ==>
            && w'.resource.value.status.stage.podName == Some(p.name)
            && Tells(p.phase, w'.resource.value.status.stage.state)
            && w'.trail == w.trail + if p.phase == PodSucceeded
               then [Completed(r.status.stage.generation, r.status.stage.task, p.name)] else [])
      && (p !in w'.pods <==> IsDone(p, r.spec, c))
      && forall q :: q in w.pods && q.name != p.name <==> q in w'.pods && q.name != p.name
  {
    var r := w.resource.value;
    var s := Noticed(r, w.clock);
    SeenIsFound(w, p);
    NoticedKeeps(r, w.clock);
    var t, events := WorkingPass(w, c);
    assert Pass(w, c) == Observe(w, r, s, p, c);
    if c.WriteOk(0) {
      ObserveTells(w, r, s, p, c);
    }
    ObserveRemovesIff(w, r, s, p, c);
  }
}
