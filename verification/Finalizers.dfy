/** When one call of updateFinalizer settles the finalizer. */
module Finalizers {
  import opened Wrappers
  import opened Workflow
  import Lists

  function After(phase: Phase, ignoreDelete: bool, finalizers: seq<string>): seq<string> {
    var u := UpdatedFinalizers(phase, ignoreDelete, finalizers);
    if u.Changed? then u.finalizers else finalizers
  }

  /** One call leaves our finalizer there exactly if deletion is not ignored, keeps all others in order, and
      leaves nothing to do for a second call. */
  ghost predicate Settles(phase: Phase, ignoreDelete: bool, finalizers: seq<string>) {
    var after := After(phase, ignoreDelete, finalizers);
    && !UpdatedFinalizers(phase, ignoreDelete, finalizers).Panics?
    && (TF_FINALIZER in after <==> !ignoreDelete)
    && Lists.Without(after, TF_FINALIZER) == Lists.Without(finalizers, TF_FINALIZER)
    && UpdatedFinalizers(phase, ignoreDelete, after) == Unchanged
  }

  lemma {:induction false} WithoutAbsent(l: seq<string>, s: string)
    ensures s !in l ==> Lists.Without(l, s) == l
  {
    if l != [] && s !in l {
      WithoutAbsent(l[1..], s);
    }
  }

  lemma {:induction false} WithoutAppended(l: seq<string>, s: string)
    ensures Lists.Without(l + [s], s) == Lists.Without(l, s)
  {
    if l != [] {
      assert (l + [s])[1..] == l[1..] + [s];
      WithoutAppended(l[1..], s);
    }
  }

  lemma RemovalSettles(phase: Phase, finalizers: seq<string>)
    ensures Settles(phase, true, finalizers) <==>
      Lists.ListRemove(finalizers, TF_FINALIZER) == Some(Lists.Without(finalizers, TF_FINALIZER))
  {
    var after := After(phase, true, finalizers);
    WithoutAbsent(finalizers, TF_FINALIZER);
    WithoutAbsent(after, TF_FINALIZER);
    WithoutAbsent(Lists.Without(finalizers, TF_FINALIZER), TF_FINALIZER);
    if TF_FINALIZER !in finalizers {
      assert Lists.Count(finalizers, TF_FINALIZER) == 0;
      Lists.RemovesExactly(finalizers, TF_FINALIZER);
    }
  }

  /** One call settles the finalizer exactly if, when deletion is ignored, the finalizer is there at most once or
      never next to itself and not last, and, when it is not ignored, the phase is not deleted. */
  lemma SettlesIff(phase: Phase, ignoreDelete: bool, finalizers: seq<string>)
    ensures Settles(phase, ignoreDelete, finalizers) <==>
              if ignoreDelete then
                || Lists.Count(finalizers, TF_FINALIZER) <= 1
                || (finalizers[|finalizers| - 1] != TF_FINALIZER && !Lists.HasAdjacent(finalizers, TF_FINALIZER))
              else phase != PhaseDeleted
  {
    if ignoreDelete {
      RemovalSettles(phase, finalizers);
      Lists.RemovesExactly(finalizers, TF_FINALIZER);
    } else {
      WithoutAppended(finalizers, TF_FINALIZER);
    }
  }

  /** In the phase deleted a second call takes the first one back: a finalizer that was there once is dropped and
      then added again. */
  lemma DeletedTakesBack(finalizers: seq<string>)
    requires Lists.Count(finalizers, TF_FINALIZER) == 1
    ensures var once := After(PhaseDeleted, false, finalizers);
      TF_FINALIZER !in once && After(PhaseDeleted, false, once) == once + [TF_FINALIZER]
  {
    Lists.RemovesExactly(finalizers, TF_FINALIZER);
    assert TF_FINALIZER in multiset(finalizers);
  }
}
