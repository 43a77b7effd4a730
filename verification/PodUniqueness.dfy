/** A task pod is created where the next pass finds it, and only when there is none. */
module PodUniqueness {
  import opened Wrappers
  import opened Tasks
  import opened Workflow
  import opened WorkflowFacts

  /** Two pods that a pass could take for each other: the same generated name, neither older than the retry. */
  predicate Rivals(p: Pod, q: Pod, cutoff: Option<Instant>) {
    p.generateName == q.generateName && Survives(p, cutoff) && Survives(q, cutoff)
  }

  predicate Clashes(p: Pod, q: Pod, cutoff: Option<Instant>) {
    p.name == q.name || Rivals(p, q, cutoff)
  }

  ghost predicate NoClash(pods: seq<Pod>, cutoff: Option<Instant>) {
    pods != [] ==> (forall q :: q in pods[1..] ==> !Clashes(pods[0], q, cutoff)) && NoClash(pods[1..], cutoff)
  }

  lemma {:induction false} NoClashPairs(pods: seq<Pod>, cutoff: Option<Instant>)
    ensures NoClash(pods, cutoff) ==> forall i, j :: 0 <= i < j < |pods| ==> !Clashes(pods[i], pods[j], cutoff)
  {
    if pods != [] && NoClash(pods, cutoff) {
      NoClashPairs(pods[1..], cutoff);
      forall i, j | 0 <= i < j < |pods| ensures !Clashes(pods[i], pods[j], cutoff) {
        if i > 0 {
          assert pods[i] == pods[1..][i - 1] && pods[j] == pods[1..][j - 1];
        } else {
          assert pods[j] == pods[1..][j - 1];
        }
      }
    }
  }

  lemma {:induction false} NoClashAppend(pods: seq<Pod>, p: Pod, cutoff: Option<Instant>)
    requires NoClash(pods, cutoff) && forall q :: q in pods ==> !Clashes(q, p, cutoff)
    ensures NoClash(pods + [p], cutoff)
  {
    if pods == [] {
      assert pods + [p] == [p];
    } else {
      assert (pods + [p])[1..] == pods[1..] + [p];
      NoClashAppend(pods[1..], p, cutoff);
    }
  }

  lemma {:induction false} NoClashLater(pods: seq<Pod>, cutoff: Option<Instant>, later: Option<Instant>)
    requires NoClash(pods, cutoff)
    requires forall p: Pod :: Survives(p, later) ==> Survives(p, cutoff)
    ensures NoClash(pods, later)
  {
    if pods != [] {
      NoClashLater(pods[1..], cutoff, later);
    }
  }

  lemma {:induction false} WithoutPodKeeps(pods: seq<Pod>, name: nat, cutoff: Option<Instant>)
    requires NoClash(pods, cutoff)
    ensures NoClash(WithoutPod(pods, name), cutoff)
    ensures forall p :: p in WithoutPod(pods, name) ==> p in pods
  {
    if pods != [] {
      WithoutPodKeeps(pods[1..], name, cutoff);
    }
  }

  lemma {:induction false} WithoutOldPlanKeeps(pods: seq<Pod>, generation: nat, reason: Reason, cutoff: Option<Instant>)
    requires NoClash(pods, cutoff)
    ensures NoClash(WithoutOldPlan(pods, generation, reason), cutoff)
    ensures forall p :: p in WithoutOldPlan(pods, generation, reason) ==> p in pods
  {
    if pods != [] {
      WithoutOldPlanKeeps(pods[1..], generation, reason, cutoff);
    }
  }

  lemma {:induction false} MovePodsKeeps(pods: seq<Pod>, name: nat, phase: PodPhase, cutoff: Option<Instant>)
    requires NoClash(pods, cutoff)
    ensures NoClash(MovePods(pods, name, phase), cutoff)
  {
    if pods != [] {
      MovePodsKeeps(pods[1..], name, phase, cutoff);
      MovePodsFrom(pods[1..], name, phase);
      var moved := MovePods(pods, name, phase);
      var rest := MovePods(pods[1..], name, phase);
      assert moved[1..] == rest;
      forall q | q in rest ensures !Clashes(moved[0], q, cutoff) {
        var p :| p in pods[1..] && q == p.(phase := q.phase);
        assert !Clashes(pods[0], p, cutoff);
      }
    }
  }

  /** A pod as the controller makes them: label and generated name agree on the generation. */
  predicate WellMade(p: Pod, prefix: Option<string>, clock: Instant, next: nat) {
    p.generateName.generation == p.generation && p.generateName.prefix == prefix
    && p.created <= clock.second && p.name < next
  }

  ghost predicate PodsFit(r: Resource, pods: seq<Pod>, clock: Instant, next: nat) {
    && WellStaged(r)
    && (r.status.prefix.None? ==> pods == [])
    && (r.status.retryTimestamp.Some? ==>
          r.status.retryTimestamp.value.second <= clock.second && !r.status.retryTimestamp.value.late)
    && NoClash(pods, r.status.retryTimestamp)
    && forall p :: p in pods ==> WellMade(p, r.status.prefix, clock, next)
  }

  ghost predicate Fit(w: World) {
    w.resource.Some? ==> PodsFit(w.resource.value, w.pods, w.clock, w.nextPod)
  }

  /** The stored retry time only moves forward. */
  ghost predicate RetryMoves(s: Status, t: Status, clock: Instant) {
    t.retryTimestamp == s.retryTimestamp || t.retryTimestamp == Some(Instant(clock.second, false))
  }

  lemma SomePodBefore(pods: seq<Pod>, before: seq<Pod>)
    requires pods != [] && forall p :: p in pods ==> p in before
    ensures before != []
  {
    assert pods[0] in before;
  }

  lemma FewerPods(w: World, w': World)
    requires Fit(w) && w.resource.Some? && w'.resource.Some?
    requires w'.clock == w.clock && w'.nextPod == w.nextPod
    requires WellStaged(w'.resource.value)
    requires w'.pods == [] || w'.resource.value.status.prefix == w.resource.value.status.prefix
    requires forall p :: p in w'.pods ==> p in w.pods
    requires NoClash(w'.pods, w.resource.value.status.retryTimestamp)
    requires RetryMoves(w.resource.value.status, w'.resource.value.status, w.clock)
    ensures Fit(w')
  {
    var cutoff, later := w.resource.value.status.retryTimestamp, w'.resource.value.status.retryTimestamp;
    NoClashLater(w'.pods, cutoff, later);
    if w'.pods != [] {
      SomePodBefore(w'.pods, w.pods);
    }
  }

  lemma EnteringFit(w: World, c: Choice)
    requires KindOf(w, c).Entering? && Fit(w)
    ensures Fit(Pass(w, c))
  {
    EnteringStores(w, c);
    EnteringPass(w, c);
    PassKeepsWellStaged(w, c);
    var r, w' := w.resource.value, Pass(w, c);
    WithoutOldPlanKeeps(w.pods, r.generation, r.status.stage.reason, r.status.retryTimestamp);
    NoticedKeeps(r, w.clock);
    FewerPods(w, w');
  }

  /** Whether a pass created a pod. */
  predicate Creates(w: World, w': World) { w'.nextPod != w.nextPod }

  /** A pod made although none was found clashes with none. */
  lemma NewPodClashes(w: World, r: Resource, s: Status, cutoff: Option<Instant>)
    requires PodsFit(r, w.pods, w.clock, w.nextPod) && Lookup(w.pods, s) == [] && s.prefix == r.status.prefix
    requires s.retryTimestamp == cutoff && s.stage.generation == r.generation
    ensures forall q :: q in w.pods ==> !Clashes(q, NewPod(w, r, s), cutoff)
  {
    LookupMeaning(w.pods, s);
    forall q | q in w.pods ensures !Clashes(q, NewPod(w, r, s), cutoff) {
      if q.generateName == NewPod(w, r, s).generateName {
        assert Matches(q, s);
      }
    }
  }

  /** A launching pass keeps the pods apart, and the next lookup finds the pod it makes. */
  lemma LaunchAdds(w: World, w': World, r: Resource, s: Status)
    requires w.resource == Some(r) && Fit(w) && Lookup(w.pods, s) == [] && s.stage.generation == r.generation
    requires s.prefix == r.status.prefix && s.prefix.Some? && s.retryTimestamp == r.status.retryTimestamp
    requires WellStagedWorld(w') && w'.clock == w.clock
    requires w'.resource.Some? && w'.resource.value.(status := r.status) == r
    requires SameButPlugins(w'.resource.value.status, Stored(Started(s))) || w'.resource.value.status == r.status
    requires r.status.stage == s.stage
    requires w'.pods == w.pods + [NewPod(w, r, s)] && w'.nextPod == w.nextPod + 1
    ensures Fit(w') && Lookup(w'.pods, w'.resource.value.status) == [NewPod(w, r, s)]
  {
    var t, p := w'.resource.value.status, NewPod(w, r, s);
    NewPodClashes(w, r, s, t.retryTimestamp);
    NoClashAppend(w.pods, p, t.retryTimestamp);
    LookupSame(w.pods, s, t);
    LookupAppend(w.pods, p, t);
  }

  lemma LaunchKeepsShape(w: World, r: Resource, s: Status, c: Choice)
    requires w.resource == Some(r) && WellStaged(r) && s == Noticed(r, w.clock) && s.stage.generation == r.generation
    requires s.stage.task != RunNil && s.stage.state != StateComplete
    ensures WellStagedWorld(Launch(w, r, s, c))
  {
    NoticedKeeps(r, w.clock);
    var t, events := LaunchEffect(w, r, s, c);
    WorkKeepsWellStaged(r, s, t, events);
  }

  /** A launch that makes no pod keeps the pods as they are. */
  lemma LaunchKeepsFit(w: World, r: Resource, s: Status, c: Choice)
    requires w.resource == Some(r) && Fit(w) && !LaunchStarts(w, r, s, c) && WellStagedWorld(Launch(w, r, s, c))
    requires s.prefix == r.status.prefix && s.retryTimestamp == r.status.retryTimestamp
    ensures Fit(Launch(w, r, s, c)) && !Creates(w, Launch(w, r, s, c))
  {
    LaunchStatus(w, r, s, c);
    FewerPods(w, Launch(w, r, s, c));
  }

  lemma LaunchFinds(w: World, r: Resource, s: Status, c: Choice)
    requires w.resource == Some(r) && Fit(w) && s == Noticed(r, w.clock)
    requires CheckSetNewStage(r, s, RetryPending(r), w.pods, c) == Stay
    requires s.stage.task != RunNil && s.stage.state != StateInProgress && Lookup(w.pods, s) == [] && s.prefix.Some?
    ensures Fit(Launch(w, r, s, c))
    ensures var w' := Launch(w, r, s, c);
      Creates(w, w') ==> (
        && s.stage.generation == r.generation
        && w'.pods == w.pods + [NewPod(w, r, s)] && Lookup(w'.pods, w'.resource.value.status) == [NewPod(w, r, s)])
  {
    NoticedKeeps(r, w.clock);
    IdleStageIsCurrent(r, s, RetryPending(r), w.pods, c);
    LaunchKeepsShape(w, r, s, c);
    if LaunchStarts(w, r, s, c) {
      LaunchStatus(w, r, s, c);
      LaunchAdds(w, Launch(w, r, s, c), r, s);
    } else {
      LaunchKeepsFit(w, r, s, c);
    }
  }

  lemma {:induction false} LookupSame(pods: seq<Pod>, s: Status, t: Status)
    requires s.prefix == t.prefix && s.retryTimestamp == t.retryTimestamp
    requires s.stage.generation == t.stage.generation && s.stage.task == t.stage.task
    ensures Lookup(pods, s) == Lookup(pods, t)
  {
    if pods != [] {
      LookupSame(pods[1..], s, t);
    }
  }

  lemma {:induction false} LookupAppend(pods: seq<Pod>, p: Pod, s: Status)
    ensures Lookup(pods + [p], s) == Lookup(pods, s) + Lookup([p], s)
  {
    if pods == [] {
      assert pods + [p] == [p];
    } else {
      assert (pods + [p])[1..] == pods[1..] + [p];
      LookupAppend(pods[1..], p, s);
    }
  }

  lemma WorkingFit(w: World, c: Choice)
    requires KindOf(w, c) == Working && Fit(w)
    ensures Fit(Pass(w, c))
  {
    PassKeepsWellStaged(w, c);
    var r, w' := w.resource.value, Pass(w, c);
    var s := Noticed(r, w.clock);
    NoticedKeeps(r, w.clock);
    var t, events := WorkingPass(w, c);
    if Launching(w, r, s, c) {
      LaunchFinds(w, r, s, c);
    } else {
      WorkPods(w, r, s, c);
      FewerPods(w, w');
    }
  }

  lemma WorkPods(w: World, r: Resource, s: Status, c: Choice)
    requires w.resource == Some(r) && !Launching(w, r, s, c) && Fit(w)
    ensures var w' := Work(w, r, s, c);
      w'.nextPod == w.nextPod && NoClash(w'.pods, r.status.retryTimestamp) && forall p :: p in w'.pods ==> p in w.pods
  {
    if Lookup(w.pods, s) != [] {
      WithoutPodKeeps(w.pods, Lookup(w.pods, s)[0].name, r.status.retryTimestamp);
    }
  }

  lemma PassFit(w: World, c: Choice)
    requires Fit(w)
    ensures Fit(Pass(w, c))
  {
    var kind := KindOf(w, c);
    if kind.Entering? {
      EnteringFit(w, c);
    } else if kind == Working {
      WorkingFit(w, c);
    } else if w.resource.Some? && Pass(w, c).resource.Some? {
      if kind == Finalizers {
        var f := FinalizerPass(w, c);
      }
      PassKeepsWellStaged(w, c);
      FewerPods(w, Pass(w, c));
    }
  }

  lemma EnvFit(w: World, e: EnvStep)
    requires Fit(w)
    ensures Fit(EnvNext(w, e))
  {
    if w.resource.Some? {
      var cutoff := w.resource.value.status.retryTimestamp;
      match e
      case MovePod(name, phase) =>
        MovePodsKeeps(w.pods, name, phase, cutoff);
        MovePodsFrom(w.pods, name, phase);
      case DeletePod(name) =>
        WithoutPodKeeps(w.pods, name, cutoff);
      case Wait(until) =>
      case EditResource(edit) =>
        NextKeepsWellStaged(w, Environment(e));
    }
  }

  lemma ReachableFit(w: World)
    requires Reachable(w)
    ensures Fit(w)
  {
    var w0, steps :| IsFresh(w0) && w == Run(w0, steps);
    forall v, step | Fit(v) ensures Fit(Next(v, step)) {
      match step
      case Controller(c) => PassFit(v, c);
      case Environment(e) => EnvFit(v, e);
    }
    RunInduction(v => Fit(v), w0, steps);
  }

  /** In every reachable state, whichever status writes were lost, at most one pod of a generation and task is
      left by the filter on the retry time, and no two pods share a name. */
  lemma OnePodPerTask(w: World)
    requires Reachable(w) && w.resource.Some?
    ensures forall i, j :: 0 <= i < j < |w.pods| ==>
      && w.pods[i].name != w.pods[j].name
      && !Rivals(w.pods[i], w.pods[j], w.resource.value.status.retryTimestamp)
    ensures forall p :: p in w.pods ==> p.generateName.generation == p.generation
  {
    ReachableFit(w);
    NoClashPairs(w.pods, w.resource.value.status.retryTimestamp);
  }

  /** A pod that the look-up may find is what it finds. */
  lemma FoundIs(w: World, s: Status, q: Pod)
    requires Fit(w) && w.resource.Some? && s.retryTimestamp == w.resource.value.status.retryTimestamp
    requires q in w.pods && Matches(q, s) && Survives(q, s.retryTimestamp)
    ensures Lookup(w.pods, s) != [] && Lookup(w.pods, s)[0] == q
  {
    LookupMeaning(w.pods, s);
    assert q in Lookup(w.pods, s);
    var f := Lookup(w.pods, s)[0];
    assert f in Lookup(w.pods, s);
    NoClashPairs(w.pods, s.retryTimestamp);
    var i :| 0 <= i < |w.pods| && w.pods[i] == f;
    var j :| 0 <= j < |w.pods| && w.pods[j] == q;
    assert Clashes(w.pods[i], w.pods[j], s.retryTimestamp);
    assert Clashes(w.pods[j], w.pods[i], s.retryTimestamp);
  }

  /** The pod that is new in `w'` is for a stage of the current generation and is what the look-up finds. */
  ghost predicate IsFound(w: World, w': World) {
    && w.resource.Some? && w'.resource.Some?
    && w.resource.value.status.stage.generation == w.resource.value.generation
    && |w'.pods| == |w.pods| + 1
    && Lookup(w'.pods, w'.resource.value.status) == [w'.pods[|w.pods|]]
  }

  /** A pass creates a pod only for a stage of the resource's own generation, and then the look-up by generated
      name and generation label on the status it leaves behind finds that pod and no other. */
  lemma CreatedPodIsFound(w: World, c: Choice)
    requires Reachable(w)
    ensures Creates(w, Pass(w, c)) ==> IsFound(w, Pass(w, c))
  {
    ReachableFit(w);
    if KindOf(w, c) == Working {
      var r := w.resource.value;
      var s := Noticed(r, w.clock);
      NoticedKeeps(r, w.clock);
      var t, events := WorkingPass(w, c);
      if Launching(w, r, s, c) {
        LaunchFinds(w, r, s, c);
      } else {
        WorkPods(w, r, s, c);
      }
    }
  }
}
