/** A completed resource whose spec is edited goes through its create chain again. */
module EditedAgain {
  import opened Wrappers
  import opened Tasks
  import opened Workflow
  import opened WorkflowFacts
  import opened Progress
  import LostPods

  /** The life of the resource once its spec was edited. */
  function EditedLife(life: Life, spec: Spec): Life { life.(generation := life.generation + 1, spec := spec) }

  /** The spec was just edited: the stage is of an earlier generation, and nothing else is to be done. */
  ghost predicate IsEdited(w: World, life: Life) {
    && Managed(w, life) && !life.deleting && life.create && PodsOlder(w.pods, life.generation)
    && var s := w.resource.value.status;
    && s.prefix.Some? && s.phase == PhaseCompleted && s.stage.generation != 0 && s.stage.generation != life.generation
    && s.stage.interruptible
  }

  lemma RestIsEdited(w: World, life: Life, spec: Spec)
    requires AtRest(w, life) && spec != life.spec && !spec.ignoreDelete
    ensures IsEdited(EnvNext(w, EditResource(EditSpec(spec))), EditedLife(life, spec))
  {
  }

  /** The status once the edit is noticed: the plugins start over. */
  function EditedStatus(r: Resource): Status {
    r.status.(
      phase := PhaseInitializing, pluginsStarted := [],
      stage := NewStage(r.generation, RunSetup, GenerationChange, true, StateInitializing))
  }

  lemma EditedPass(w: World, c: Choice, life: Life)
    requires IsEdited(w, life) && Smooth(c, life.spec)
    ensures var r := w.resource.value;
      && Pass(w, c).resource == Some(r.(status := Stored(EditedStatus(r)))) && Pass(w, c).pods == w.pods
      && Pass(w, c).clock == w.clock && Pass(w, c).provisioned == w.provisioned
  {
  }

  lemma EditedSettles(w: World, w': World, life: Life)
    requires IsEdited(w, life)
    requires w'.resource == Some(w.resource.value.(status := Stored(EditedStatus(w.resource.value))))
    requires w'.pods == w.pods && w'.clock == w.clock && w'.provisioned == w.provisioned
    ensures IsReady(w'.(pods := SettlePods(w'.pods)), life, RunSetup)
  {
    var t: TaskName := RunSetup;
    OlderIsBelow(w.pods, life.generation, t.Id());
  }

  lemma EditedRound(w: World, c: Choice, life: Life)
    requires IsEdited(w, life) && Smooth(c, life.spec)
    ensures IsReady(Round(w, c), life, RunSetup) && Round(w, c).resource.value.status.pluginsStarted == []
  {
    EditedPass(w, c, life);
    EditedSettles(w, Pass(w, c), life);
  }

  /** From the first stage on the way is that of a new resource. */
  function Again(life: Life): Journey { Journey([NoStage], WalkFrom(RunSetup, life.spec), life) }

  lemma AgainStarts(next: TaskName -> TaskName, life: Life)
    requires !life.deleting
    ensures IsStart([NoStage], RunSetup, next, life)
  {
  }

  lemma AgainIsJourney(life: Life)
    requires !life.deleting
    ensures IsJourney(Again(life)) && PositionAfter(Again(life), 1) == Ready(RunSetup)
  {
    WalkIsWalk(RunSetup, life.spec);
    AgainStarts(Successor(life.spec), life);
    JourneyOn([NoStage], WalkFrom(RunSetup, life.spec), RunSetup, life);
  }

  lemma ReadyIsAt(rs: SmoothRounds, life: Life)
    requires 1 <= |rs.cs| && IsReady(rs.ws[1], life, RunSetup) && life.create
    ensures Holds(rs, life)(1, Ready(RunSetup))
  {
  }

  lemma AgainPosition(life: Life, k: nat)
    requires !life.deleting && k >= 1 && WalkFrom(RunSetup, life.spec) != []
    ensures var p := PositionAfter(Again(life), k);
      && (p.Ready? || p.Launched? || p.Finished? || p.Resting?)
      && (p.Resting? <==> k > 3 * |WalkFrom(RunSetup, life.spec)| + 1)
  {
  }

  lemma CompletedIffResting(w: World, p: Position, life: Life)
    requires At(w, p, life) && !life.deleting && (p.Ready? || p.Launched? || p.Finished? || p.Resting?)
    ensures IsCompleted(w) <==> p.Resting?
  {
  }

  lemma CompletedAgainAt(rs: SmoothRounds, life: Life, k: nat, p: Position)
    requires !life.deleting && Holds(rs, life)(k, p) && (p.Ready? || p.Launched? || p.Finished? || p.Resting?)
    ensures k < |rs.ws| && (IsCompleted(rs.ws[k]) <==> p.Resting?)
  {
    CompletedIffResting(rs.ws[k], p, life);
  }

  lemma LaterAgain(rs: SmoothRounds, life: Life, k: nat)
    requires life.spec == rs.spec && IsEdited(rs.ws[0], life) && 1 <= k <= |rs.cs|
    ensures IsCompleted(rs.ws[k]) <==> k >= 3 * |WalkFrom(RunSetup, life.spec)| + 2
    ensures rs.ws[1].resource.Some? && rs.ws[1].resource.value.status.pluginsStarted == []
  {
    assert IsRound(rs, 0);
    EditedRound(rs.ws[0], rs.cs[0], life);
    AgainIsJourney(life);
    ReadyIsAt(rs, life);
    LostPods.ResumesAt(rs, 1, 1, k, k, Again(life));
    AgainPosition(life, k);
    CompletedAgainAt(rs, life, k, PositionAfter(Again(life), k));
  }

  /** When the spec of a completed resource is edited, its plugins start over with the next pass, and with n create
      tasks configured by the new spec it is completed again after exactly 3n + 2 passes. */
  lemma EditTakes(before: World, rs: SmoothRounds, life: Life, spec: Spec, k: nat)
    requires AtRest(before, life) && spec != life.spec && !spec.ignoreDelete && rs.spec == spec
    requires rs.ws[0] == EnvNext(before, EditResource(EditSpec(spec))) && 1 <= k <= |rs.cs|
    ensures IsCompleted(rs.ws[k]) <==> k >= 3 * |WalkFrom(RunSetup, spec)| + 2
    ensures rs.ws[1].resource.Some? && rs.ws[1].resource.value.status.pluginsStarted == []
  {
    RestIsEdited(before, life, spec);
    LaterAgain(rs, EditedLife(life, spec), k);
  }
}
