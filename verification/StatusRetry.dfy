/** Writing a status until it is seen: nested back-off loops against an API server that may refuse, fail or lag. */
module StatusRetry {
  import opened Wrappers
  import opened Tasks
  import opened Workflow

  // ---------------------------------------------------------------------------------------------
  // When a status counts as confirmed

  /** The first item in which the stages differ, or nothing. The state and the times are not looked at. */
  function IsEqual(s: Stage, desired: Stage): string {
    if s.generation != desired.generation then "generation"
    else if s.task != desired.task then "taskType"
    else if s.interruptible != desired.interruptible then "interruptible"
    else if s.reason != desired.reason then "reason"
    else if s.message != desired.message then "message"
    else if s.podName != desired.podName then "podName"
    else ""
  }

  lemma EqualButForState(s: Stage, desired: Stage)
    ensures IsEqual(s, desired) == "" <==> s == desired.(state := s.state)
  {
  }

  method TaskListsAreEqual(l1: seq<TaskName>, l2: seq<TaskName>) returns (equal: bool)
    ensures equal <==> l1 == l2
  {
    if |l1| != |l2| {
      return false;
    }
    for i := 0 to |l1|
      invariant l1[..i] == l2[..i]
    {
      if l1[i] != l2[i] {
        return false;
      }
    }
    assert l1[..|l1|] == l1 && l2[..|l2|] == l2;
    return true;
  }

  /** `have` is `want` as far as the confirmation looks: all but the stage's state and the retry entries. */
  ghost predicate Confirms(have: Status, want: Status) {
    have == want.(
      stage := want.stage.(state := have.stage.state),
      retryReason := have.retryReason, retryTimestamp := have.retryTimestamp)
  }

  method IsConfirmed(have: Status, want: Status) returns (confirmed: bool)
    ensures confirmed <==> Confirms(have, want)
  {
    confirmed := false;
    EqualButForState(have.stage, want.stage);
    var samePlugins := TaskListsAreEqual(have.pluginsStarted, want.pluginsStarted);
    if !samePlugins {
    } else if IsEqual(have.stage, want.stage) != "" {
    } else if have.phase != want.phase {
    } else if have.prefix != want.prefix {
    } else {
      confirmed := true;
    }
  }

  /** A server that lost the move of a stage from in-progress to complete is taken to have stored it. */
  lemma LostStateIsConfirmed(want: Status, state: StageState)
    ensures Confirms(want.(stage := want.stage.(state := state)), want)
  {
  }

  // ---------------------------------------------------------------------------------------------
  // Back-off times

  function Pow2(k: nat): (p: nat)
    ensures p >= 1
  {
    if k == 0 then 1 else 2 * Pow2(k - 1)
  }

  function Ceil(x: real): int { if x == x.Floor as real then x.Floor else x.Floor + 1 }

  /** The pause in milliseconds after try `k`, as it is computed. */
  function Backoff(k: nat): int {
    Ceil(0.5 * (Pow2(k + 3) as real - 1.0))
  }

  function PauseOf(k: nat): nat { Pow2(k + 2) }

  lemma BackoffIsPower(k: nat)
    ensures Backoff(k) == Pow2(k + 2)
  {
  }

  // ---------------------------------------------------------------------------------------------
  // The run of the loops

  /** How the server answers: whether it takes the i-th update, whether the resource can be fetched before it, and
      what the j-th confirmation read after it returns. */
  datatype Server = Server(accepts: nat -> bool, fetches: nat -> bool, read: (nat, nat) -> Option<Status>)

  datatype Action = Sleep(ms: int) | Fetch | Update | Read

  datatype Error = FetchFailed | ReadFailed | UpdateFailed

  datatype Confirmation = Confirmed | Unconfirmed | Unreadable

  /** The confirmation reads from the j-th on, after `trace`. */
  ghost function Reading(server: Server, want: Status, i: nat, j: nat, trace: seq<Action>): (Confirmation, seq<Action>)
    requires j <= 10
    decreases want, 10 - j
  {
    if j == 10 then (Unconfirmed, trace)
    else if server.read(i, j).None? then (Unreadable, trace + [Read])
    else if Confirms(server.read(i, j).value, want) then (Confirmed, trace + [Read])
    else Reading(server, want, i, j + 1, trace + [Read] + [Sleep(Backoff(j))])
  }

  datatype Outcome = Outcome(err: Option<Error>, trace: seq<Action>)

  /** What is done before the i-th update. */
  function Before(i: nat, trace: seq<Action>): seq<Action> {
    if i > 0 then trace + [Sleep(Backoff(i))] + [Fetch] else trace
  }

  /** The updates from the i-th on, after `trace`, when the one before was taken or not. */
  ghost function Trying(server: Server, want: Status, i: nat, taken: bool, trace: seq<Action>): Outcome
    requires i <= 10
    decreases want, 10 - i
  {
    if i == 10 then Outcome(if taken then None else Some(UpdateFailed), trace)
    else if i > 0 && !server.fetches(i) then Outcome(Some(FetchFailed), Before(i, trace))
    else if !server.accepts(i) then Trying(server, want, i + 1, false, Before(i, trace) + [Update])
    else
      var (end, seen) := Reading(server, want, i, 0, Before(i, trace) + [Update]);
      match end
      case Confirmed => Outcome(None, seen)
      case Unreadable => Outcome(Some(ReadFailed), seen)
      case Unconfirmed => Trying(server, want, i + 1, true, seen)
  }

  ghost function Whole(server: Server, want: Status): Outcome {
    Trying(server, want, 0, true, [])
  }

  /** The confirmation loop after the i-th update. */
  method Confirm(server: Server, want: Status, i: nat, before: seq<Action>)
    returns (end: Confirmation, trace: seq<Action>)
    ensures (end, trace) == Reading(server, want, i, 0, before)
  {
    trace := before;
    for j := 0 to 10
      invariant Reading(server, want, i, j, trace) == Reading(server, want, i, 0, before)
    {
      trace := trace + [Read];
      var have := server.read(i, j);
      if have.None? {
        return Unreadable, trace;
      }
      var confirmed := IsConfirmed(have.value, want);
      if confirmed {
        return Confirmed, trace;
      }
      trace := trace + [Sleep(Backoff(j))];
    }
    return Unconfirmed, trace;
  }

  method UpdateStatusWithRetry(server: Server, want: Status) returns (err: Option<Error>, trace: seq<Action>)
    ensures Outcome(err, trace) == Whole(server, want)
  {
    trace := [];
    var taken := true;
    for i := 0 to 10
      invariant Trying(server, want, i, taken, trace) == Whole(server, want)
    {
      if i > 0 {
        trace := trace + [Sleep(Backoff(i))];
        trace := trace + [Fetch];
        if !server.fetches(i) {
          return Some(FetchFailed), trace;
        }
      }
      trace := trace + [Update];
      taken := server.accepts(i);
      if !taken {
        continue;
      }
      var end;
      end, trace := Confirm(server, want, i, trace);
      if end == Unreadable {
        return Some(ReadFailed), trace;
      }
      if end == Confirmed {
        return None, trace;
      }
    }
    if !taken {
      return Some(UpdateFailed), trace;
    }
    return None, trace;
  }

  // ---------------------------------------------------------------------------------------------
  // Bounds

  /** What a run costs. */
  datatype Cost = Cost(updates: nat, fetches: nat, looks: nat, slept: int)

  function CostOf(trace: seq<Action>): Cost {
    if trace == [] then Cost(0, 0, 0, 0) else Plus(CostOf(trace[..|trace| - 1]), trace[|trace| - 1])
  }

  function Plus(c: Cost, a: Action): Cost {
    match a
    case Sleep(ms) => c.(slept := c.slept + ms)
    case Fetch => c.(fetches := c.fetches + 1)
    case Update => c.(updates := c.updates + 1)
    case Read => c.(looks := c.looks + 1)
  }

  lemma CostPush(trace: seq<Action>, a: Action)
    ensures CostOf(trace + [a]) == Plus(CostOf(trace), a)
  {
  }

  /** Every pause is one of the ten back-off times. */
  ghost predicate Pauses(trace: seq<Action>) {
    forall a :: a in trace && a.Sleep? ==> IsPause(a.ms)
  }

  ghost predicate IsPause(ms: int) {
    exists k: nat :: k < 10 && ms == PauseOf(k)
  }

  const ALL_PAUSES := 4092

  /** The pauses from the j-th to the tenth: 2^(j+2) + ... + 2^11. */
  function PausesFrom(j: nat): int { ALL_PAUSES + 4 - Pow2(j + 2) }

  lemma PauseAt(k: nat)
    ensures k < 10 ==> IsPause(Backoff(k))
    ensures Backoff(k) == PauseOf(k) == Pow2(k + 2) && PausesFrom(k) == Pow2(k + 2) + PausesFrom(k + 1)
  {
  }

  lemma LastPauses()
    ensures PausesFrom(0) == ALL_PAUSES && PausesFrom(1) == ALL_PAUSES - 4 && PausesFrom(10) == 0
  {
  }

  lemma {:induction false} PausesLeft(j: nat)
    requires j <= 10
    ensures PausesFrom(j) >= 0
    decreases 10 - j
  {
    LastPauses();
    if j < 10 {
      PausesLeft(j + 1);
      PauseAt(j);
    }
  }

  /** At most `reads` more reads and `ms` more milliseconds. */
  predicate Within(c: Cost, d: Cost, seen: nat, ms: int) {
    d.updates == c.updates && d.fetches == c.fetches && d.looks <= c.looks + seen && d.slept <= c.slept + ms
  }

  /** What is kept from one read to the next, and what holds when a read ends the loop. */
  ghost predicate ReadKeeps(holds: (nat, seq<Action>) -> bool, ends: seq<Action> -> bool, j: nat, trace: seq<Action>) {
    holds(j, trace) ==> ends(trace + [Read]) && holds(j + 1, trace + [Read] + [Sleep(Backoff(j))])
  }

  lemma {:induction false} ReadingKeeps(server: Server, want: Status, i: nat, j: nat, trace: seq<Action>,
      holds: (nat, seq<Action>) -> bool, ends: seq<Action> -> bool)
    requires j <= 10 && holds(j, trace) && forall k: nat, t :: k < 10 ==> ReadKeeps(holds, ends, k, t)
    ensures var (end, seen) := Reading(server, want, i, j, trace);
      if end == Unconfirmed then holds(10, seen) else ends(seen)
    decreases 10 - j
  {
    if j < 10 {
      assert ReadKeeps(holds, ends, j, trace);
      if server.read(i, j).Some? && !Confirms(server.read(i, j).value, want) {
        ReadingKeeps(server, want, i, j + 1, trace + [Read] + [Sleep(Backoff(j))], holds, ends);
      }
    }
  }

  /** What `j` reads and the pauses after them add. */
  function AfterReads(c: Cost, j: nat): Cost {
    c.(looks := c.looks + j, slept := c.slept + ALL_PAUSES - PausesFrom(j))
  }

  lemma OneRead(c: Cost, j: nat, trace: seq<Action>)
    requires j < 10 && CostOf(trace) == AfterReads(c, j) && Pauses(trace)
    ensures Within(c, CostOf(trace + [Read]), 10, ALL_PAUSES) && Pauses(trace + [Read])
    ensures var slept := trace + [Read] + [Sleep(Backoff(j))]; CostOf(slept) == AfterReads(c, j + 1) && Pauses(slept)
  {
    CostPush(trace, Read);
    CostPush(trace + [Read], Sleep(Backoff(j)));
    PauseAt(j);
    PausesLeft(j);
  }

  lemma ReadingBounds(server: Server, want: Status, i: nat, trace: seq<Action>)
    requires Pauses(trace)
    ensures var (end, seen) := Reading(server, want, i, 0, trace);
      && Within(CostOf(trace), CostOf(seen), 10, ALL_PAUSES) && Pauses(seen)
      && (end == Unconfirmed ==> CostOf(seen) == AfterReads(CostOf(trace), 10))
  {
    var c := CostOf(trace);
    var holds := (j: nat, t: seq<Action>) => CostOf(t) == AfterReads(c, j) && Pauses(t);
    var ends := (t: seq<Action>) => Within(c, CostOf(t), 10, ALL_PAUSES) && Pauses(t);
    forall k: nat, t | k < 10 ensures ReadKeeps(holds, ends, k, t) {
      if holds(k, t) {
        OneRead(c, k, t);
      }
    }
    LastPauses();
    ReadingKeeps(server, want, i, 0, trace, holds, ends);
  }

  /** What may have been spent before the i-th update. */
  predicate Spent(c: Cost, i: nat) {
    && c.updates <= i && c.fetches <= (if i > 0 then i - 1 else 0) && c.looks <= 10 * i
    && c.slept <= i * ALL_PAUSES + PausesFrom(1) - PausesFrom(if i > 0 then i else 1)
  }

  lemma BeforeCost(i: nat, trace: seq<Action>)
    requires i < 10 && Pauses(trace)
    ensures Pauses(Before(i, trace))
    ensures CostOf(Before(i, trace))
         == if i > 0 then Plus(Plus(CostOf(trace), Sleep(Pow2(i + 2))), Fetch) else CostOf(trace)
  {
    PauseAt(i);
    CostPush(trace, Sleep(Backoff(i)));
    CostPush(trace + [Sleep(Backoff(i))], Fetch);
  }

  /** The most that is spent in all. */
  predicate InAll(c: Cost) {
    c.updates <= 10 && c.fetches <= 9 && c.looks <= 100 && c.slept <= 45008
  }

  lemma SpentInAll(c: Cost, i: nat)
    requires i <= 10 && Spent(c, i)
    ensures InAll(c)
  {
    LastPauses();
    PausesLeft(if i > 0 then i else 1);
  }

  /** One try spends no more than its share. */
  lemma TriedOnce(server: Server, want: Status, i: nat, trace: seq<Action>)
    requires i < 10 && Pauses(trace) && Spent(CostOf(trace), i)
    ensures var before := Before(i, trace);
      var seen := Reading(server, want, i, 0, before + [Update]).1;
      && Pauses(before) && InAll(CostOf(before)) && Pauses(before + [Update]) && Spent(CostOf(before + [Update]), i + 1)
      && Pauses(seen) && Spent(CostOf(seen), i + 1) && InAll(CostOf(seen))
  {
    LastPauses();
    BeforeCost(i, trace);
    CostPush(Before(i, trace), Update);
    PauseAt(i);
    PausesLeft(i + 1);
    ReadingBounds(server, want, i, Before(i, trace) + [Update]);
    SpentInAll(CostOf(Reading(server, want, i, 0, Before(i, trace) + [Update]).1), i + 1);
  }

  /** What is kept from one try to the next, and what holds whenever a try ends the run. */
  ghost predicate TryKeeps(server: Server, want: Status, holds: (nat, seq<Action>) -> bool, ends: seq<Action> -> bool,
      i: nat, trace: seq<Action>) {
    var updated := Before(i, trace) + [Update];
    var seen := Reading(server, want, i, 0, updated).1;
    holds(i, trace) ==> ends(Before(i, trace)) && holds(i + 1, updated) && holds(i + 1, seen) && ends(seen)
  }

  lemma {:induction false} TryingKeeps(server: Server, want: Status, i: nat, taken: bool, trace: seq<Action>,
      holds: (nat, seq<Action>) -> bool, ends: seq<Action> -> bool)
    requires i <= 10 && holds(i, trace)
    requires forall k: nat, t :: k < 10 ==> TryKeeps(server, want, holds, ends, k, t)
    requires forall t :: holds(10, t) ==> ends(t)
    ensures ends(Trying(server, want, i, taken, trace).trace)
    decreases 10 - i
  {
    if i < 10 {
      assert TryKeeps(server, want, holds, ends, i, trace);
      var updated := Before(i, trace) + [Update];
      var (end, seen) := Reading(server, want, i, 0, updated);
      if i > 0 && !server.fetches(i) {
      } else if !server.accepts(i) {
        TryingKeeps(server, want, i + 1, false, updated, holds, ends);
      } else if end == Unconfirmed {
        TryingKeeps(server, want, i + 1, true, seen, holds, ends);
      }
    }
  }

  lemma TryingBounds(server: Server, want: Status)
    ensures var t := Whole(server, want).trace; InAll(CostOf(t)) && Pauses(t)
  {
    var holds := (i: nat, t: seq<Action>) => Pauses(t) && Spent(CostOf(t), i);
    var ends := (t: seq<Action>) => InAll(CostOf(t)) && Pauses(t);
    forall k: nat, t | k < 10 ensures TryKeeps(server, want, holds, ends, k, t) {
      if holds(k, t) {
        TriedOnce(server, want, k, t);
      }
    }
    forall t | holds(10, t) ensures ends(t) {
      SpentInAll(CostOf(t), 10);
    }
    LastPauses();
    TryingKeeps(server, want, 0, true, [], holds, ends);
  }

  /** However the server behaves: at most ten updates, nine fetches and a hundred confirmation reads; every pause is
      2^(k+2) ms for some k < 10, and together they are at most 45,008 ms. */
  lemma RetriesAreBounded(server: Server, want: Status)
    ensures var c := CostOf(Whole(server, want).trace);
      c.updates <= 10 && c.fetches <= 9 && c.looks <= 100 && c.slept <= 45008
    ensures forall a :: a in Whole(server, want).trace && a.Sleep? ==> exists k: nat :: k < 10 && a.ms == PauseOf(k)
  {
    TryingBounds(server, want);
  }

  // ---------------------------------------------------------------------------------------------
  // What success means

  /** The first `j` reads after the i-th update return, but do not confirm. */
  ghost predicate StaleBefore(server: Server, want: Status, i: nat, j: nat) {
    forall k :: 0 <= k < j ==> server.read(i, k).Some? && !Confirms(server.read(i, k).value, want)
  }

  ghost predicate ConfirmedAt(server: Server, want: Status, i: nat, j: nat) {
    server.read(i, j).Some? && Confirms(server.read(i, j).value, want) && StaleBefore(server, want, i, j)
  }

  /** The i-th update is taken and one of its reads confirms it, none before failing. */
  ghost predicate ConfirmedBy(server: Server, want: Status, i: nat) {
    server.accepts(i) && exists j :: 0 <= j < 10 && ConfirmedAt(server, want, i, j)
  }

  /** The i-th update is refused, or it is taken and none of its ten reads fails or confirms it. */
  ghost predicate GivenUp(server: Server, want: Status, i: nat) {
    server.accepts(i) ==> StaleBefore(server, want, i, 10)
  }

  /** A try that was given up leaves it to the next, if there is a next. */
  ghost predicate Continues(server: Server, want: Status, i: nat) {
    GivenUp(server, want, i) && (i + 1 < 10 ==> server.fetches(i + 1))
  }

  /** The tries before the i-th were given up, and the resource could be fetched for each later one. */
  ghost predicate Reached(server: Server, want: Status, i: nat) {
    forall k :: 0 <= k < i ==> Continues(server, want, k)
  }

  lemma {:induction false} ReadingMeaning(server: Server, want: Status, i: nat, j: nat, trace: seq<Action>)
    requires j <= 10 && StaleBefore(server, want, i, j)
    ensures var end := Reading(server, want, i, j, trace).0;
      && (end == Unconfirmed <==> StaleBefore(server, want, i, 10))
      && (end == Confirmed <==> exists l :: 0 <= l < 10 && ConfirmedAt(server, want, i, l))
    decreases 10 - j
  {
    if j < 10 {
      if server.read(i, j).Some? && !Confirms(server.read(i, j).value, want) {
        ReadingMeaning(server, want, i, j + 1, trace + [Read] + [Sleep(Backoff(j))]);
      } else if server.read(i, j).Some? {
        assert ConfirmedAt(server, want, i, j);
      } else {
        forall l | 0 <= l < 10 ensures !ConfirmedAt(server, want, i, l) {
        }
      }
    }
  }

  ghost predicate SucceedsFrom(server: Server, want: Status, i: nat) {
    || (exists k :: i <= k < 10 && Reached(server, want, k) && ConfirmedBy(server, want, k))
    || (Reached(server, want, 10) && server.accepts(9))
  }

  lemma ReachedNext(server: Server, want: Status, i: nat, k: nat)
    requires Reached(server, want, k) && i < k
    ensures Continues(server, want, i)
  {
  }

  lemma {:induction false} TryingMeaning(server: Server, want: Status, i: nat, taken: bool, trace: seq<Action>)
    requires i <= 10 && Reached(server, want, i) && (i > 0 ==> taken == server.accepts(i - 1))
    ensures Trying(server, want, i, taken, trace).err == None <==> SucceedsFrom(server, want, i)
    decreases 10 - i
  {
    if i > 0 {
      ReachedNext(server, want, i - 1, i);
    }
    if i < 10 {
      var updated := Before(i, trace) + [Update];
      ReadingMeaning(server, want, i, 0, updated);
      if Continues(server, want, i) {
        var after := if server.accepts(i) then Reading(server, want, i, 0, updated).1 else updated;
        TryingMeaning(server, want, i + 1, server.accepts(i), after);
      } else {
        forall k | i < k <= 10 ensures !Reached(server, want, k) {
          if Reached(server, want, k) {
            ReachedNext(server, want, i, k);
          }
        }
        if GivenUp(server, want, i) {
          assert i + 1 < 10 && !server.fetches(i + 1);
        }
      }
    }
  }

  /** The call succeeds exactly if some try was reached and confirmed, or all ten were given up and the last update
      was taken. */
  lemma SucceedsIff(server: Server, want: Status)
    ensures Whole(server, want).err == None <==>
      || (exists i :: 0 <= i < 10 && Reached(server, want, i) && ConfirmedBy(server, want, i))
      || (Reached(server, want, 10) && server.accepts(9))
  {
    TryingMeaning(server, want, 0, true, []);
  }

  /** A try makes one update, unless the resource cannot be fetched. */
  lemma OneUpdate(server: Server, want: Status, i: nat, trace: seq<Action>)
    requires i < 10 && Pauses(trace)
    ensures var updated := Before(i, trace) + [Update];
      var seen := Reading(server, want, i, 0, updated).1;
      && Pauses(updated) && CostOf(updated).updates == CostOf(trace).updates + 1
      && Pauses(seen) && CostOf(seen).updates == CostOf(trace).updates + 1
  {
    BeforeCost(i, trace);
    CostPush(Before(i, trace), Update);
    ReadingBounds(server, want, i, Before(i, trace) + [Update]);
  }

  /** What `n` updates leave holds when a run succeeds, and the last of them was taken. */
  ghost predicate LastTaken(server: Server, o: Outcome, holds: (nat, seq<Action>) -> bool) {
    o.err == None ==> exists n: nat :: 0 < n && holds(n, o.trace) && server.accepts(n - 1)
  }

  lemma {:induction false} TryingTakes(server: Server, want: Status, i: nat, taken: bool, trace: seq<Action>,
      holds: (nat, seq<Action>) -> bool, ends: seq<Action> -> bool)
    requires i <= 10 && holds(i, trace) && (i > 0 ==> taken == server.accepts(i - 1))
    requires forall k: nat, t :: k < 10 ==> TryKeeps(server, want, holds, ends, k, t)
    ensures LastTaken(server, Trying(server, want, i, taken, trace), holds)
    decreases 10 - i
  {
    if i < 10 {
      assert TryKeeps(server, want, holds, ends, i, trace);
      var updated := Before(i, trace) + [Update];
      var (end, seen) := Reading(server, want, i, 0, updated);
      if i > 0 && !server.fetches(i) {
      } else if !server.accepts(i) {
        TryingTakes(server, want, i + 1, false, updated, holds, ends);
      } else if end == Unconfirmed {
        TryingTakes(server, want, i + 1, true, seen, holds, ends);
      } else {
        assert holds(i + 1, seen);
      }
    }
  }

  /** Success means that the server took the last update that was made. */
  lemma SuccessMeansTaken(server: Server, want: Status)
    requires Whole(server, want).err == None
    ensures var n := CostOf(Whole(server, want).trace).updates; n > 0 && server.accepts(n - 1)
  {
    var holds := (i: nat, t: seq<Action>) => Pauses(t) && CostOf(t).updates == i;
    var ends := (t: seq<Action>) => true;
    forall k: nat, t | k < 10 ensures TryKeeps(server, want, holds, ends, k, t) {
      if holds(k, t) {
        OneUpdate(server, want, k, t);
      }
    }
    TryingTakes(server, want, 0, true, [], holds, ends);
  }

  /** No update is refused, and none is ever seen. */
  ghost predicate NeverShows(server: Server, want: Status) {
    && (forall i: nat :: server.accepts(i)) && (forall i: nat :: server.fetches(i))
    && forall i: nat, j: nat :: server.read(i, j).Some? && !Confirms(server.read(i, j).value, want)
  }

  lemma StaleReads(server: Server, want: Status, i: nat, trace: seq<Action>)
    requires NeverShows(server, want)
    ensures Reading(server, want, i, 0, trace).0 == Unconfirmed
  {
    ReadingMeaning(server, want, i, 0, trace);
  }

  /** What is kept from one try to the next when the try is made in full. */
  ghost predicate FullTryKeeps(server: Server, want: Status, holds: (nat, seq<Action>) -> bool, i: nat,
      trace: seq<Action>) {
    holds(i, trace) ==> holds(i + 1, Reading(server, want, i, 0, Before(i, trace) + [Update]).1)
  }

  lemma {:induction false} StaleTrying(server: Server, want: Status, i: nat, trace: seq<Action>,
      holds: (nat, seq<Action>) -> bool)
    requires i <= 10 && holds(i, trace) && NeverShows(server, want)
    requires forall k: nat, t :: k < 10 ==> FullTryKeeps(server, want, holds, k, t)
    ensures var o := Trying(server, want, i, true, trace); o.err == None && holds(10, o.trace)
    decreases 10 - i
  {
    if i < 10 {
      assert FullTryKeeps(server, want, holds, i, trace);
      var updated := Before(i, trace) + [Update];
      StaleReads(server, want, i, updated);
      StaleTrying(server, want, i + 1, Reading(server, want, i, 0, updated).1, holds);
    }
  }

  /** What `i` tries made in full spend. */
  predicate SpentInFull(c: Cost, i: nat) {
    && c.updates == i && c.looks == 10 * i
    && c.slept == i * ALL_PAUSES + PausesFrom(1) - PausesFrom(if i > 0 then i else 1)
  }

  lemma FullTry(server: Server, want: Status, i: nat, trace: seq<Action>)
    requires i < 10 && NeverShows(server, want) && Pauses(trace) && SpentInFull(CostOf(trace), i)
    ensures var seen := Reading(server, want, i, 0, Before(i, trace) + [Update]).1;
      Pauses(seen) && SpentInFull(CostOf(seen), i + 1)
  {
    LastPauses();
    BeforeCost(i, trace);
    CostPush(Before(i, trace), Update);
    PauseAt(i);
    StaleReads(server, want, i, Before(i, trace) + [Update]);
    ReadingBounds(server, want, i, Before(i, trace) + [Update]);
  }

  /** Success does not mean that the status was seen: a server that takes every update and never shows one makes for
      the longest run there is, and it ends in success. */
  lemma SuccessNeedsNoConfirmation(server: Server, want: Status)
    requires NeverShows(server, want)
    ensures Whole(server, want).err == None
    ensures var c := CostOf(Whole(server, want).trace); c.updates == 10 && c.looks == 100 && c.slept == 45008
  {
    var holds := (i: nat, t: seq<Action>) => Pauses(t) && SpentInFull(CostOf(t), i);
    forall k: nat, t | k < 10 ensures FullTryKeeps(server, want, holds, k, t) {
      if holds(k, t) {
        FullTry(server, want, k, t);
      }
    }
    LastPauses();
    assert SpentInFull(CostOf([]), 0);
    StaleTrying(server, want, 0, [], holds);
  }

  // ---------------------------------------------------------------------------------------------
  // The order of the actions

  /** What was done last: so many updates, and since the last of them so many reads. */
  datatype Doing =
    | Start
    | Updated(updates: nat) | Looked(updates: nat, looks: nat) | Paused(updates: nat, looks: nat)
    | Waited(updates: nat) | Fetched(updates: nat)
    | Wrong

  /** The pauses after a read are 4, 8, 16 ms and so on, and those before an update go on from 8 ms. */
  function Does(d: Doing, a: Action): Doing {
    match (d, a)
    case (Start, Update) => Updated(1)
    case (Updated(u), Read) => Looked(u, 1)
    case (Looked(u, k), Sleep(ms)) => if ms == Pow2(k + 1) then Paused(u, k) else Wrong
    case (Paused(u, k), Read) => if k < 10 then Looked(u, k + 1) else Wrong
    case (Updated(u), Sleep(ms)) => if u < 10 && ms == Pow2(u + 2) then Waited(u) else Wrong
    case (Paused(u, k), Sleep(ms)) => if k == 10 && u < 10 && ms == Pow2(u + 2) then Waited(u) else Wrong
    case (Waited(u), Fetch) => Fetched(u)
    case (Fetched(u), Update) => Updated(u + 1)
    case _ => Wrong
  }

  function Done(trace: seq<Action>): Doing {
    if trace == [] then Start else Does(Done(trace[..|trace| - 1]), trace[|trace| - 1])
  }

  lemma DonePush(trace: seq<Action>, a: Action)
    ensures Done(trace + [a]) == Does(Done(trace), a)
  {
  }

  /** The state before the j-th read after the u-th update. */
  function Reads(u: nat, j: nat): Doing { if j == 0 then Updated(u) else Paused(u, j) }

  lemma ReadInOrder(u: nat, j: nat, trace: seq<Action>)
    requires j < 10 && Done(trace) == Reads(u, j)
    ensures Done(trace + [Read]) == Looked(u, j + 1)
    ensures Done(trace + [Read] + [Sleep(Backoff(j))]) == Reads(u, j + 1)
  {
    DonePush(trace, Read);
    DonePush(trace + [Read], Sleep(Backoff(j)));
    BackoffIsPower(j);
  }

  lemma ReadingInOrder(server: Server, want: Status, i: nat, u: nat, trace: seq<Action>)
    requires Done(trace) == Updated(u)
    ensures var (end, seen) := Reading(server, want, i, 0, trace);
      Done(seen) != Wrong && (end == Unconfirmed ==> Done(seen) == Paused(u, 10))
  {
    var holds := (j: nat, t: seq<Action>) => Done(t) == Reads(u, j);
    var ends := (t: seq<Action>) => Done(t) != Wrong;
    forall k: nat, t | k < 10 ensures ReadKeeps(holds, ends, k, t) {
      if holds(k, t) {
        ReadInOrder(u, k, t);
      }
    }
    ReadingKeeps(server, want, i, 0, trace, holds, ends);
  }

  /** The state before the i-th update, counting from 0, or at the end. */
  predicate IsTry(d: Doing, i: nat) {
    if i == 0 then d == Start else d == Updated(i) || d == Paused(i, 10)
  }

  lemma BeforeInOrder(i: nat, trace: seq<Action>)
    requires i < 10 && IsTry(Done(trace), i)
    ensures Done(Before(i, trace)) == if i == 0 then Start else Fetched(i)
    ensures Done(Before(i, trace) + [Update]) == Updated(i + 1)
  {
    BackoffIsPower(i);
    DonePush(trace, Sleep(Backoff(i)));
    DonePush(trace + [Sleep(Backoff(i))], Fetch);
    DonePush(Before(i, trace), Update);
  }

  lemma TryInOrder(server: Server, want: Status, i: nat, trace: seq<Action>)
    requires i < 10 && IsTry(Done(trace), i)
    ensures var before := Before(i, trace);
      var (end, seen) := Reading(server, want, i, 0, before + [Update]);
      && Done(before) != Wrong && IsTry(Done(before + [Update]), i + 1) && Done(seen) != Wrong
      && (end == Unconfirmed ==> IsTry(Done(seen), i + 1))
  {
    BeforeInOrder(i, trace);
    ReadingInOrder(server, want, i, i + 1, Before(i, trace) + [Update]);
  }

  lemma {:induction false} TryingInOrder(server: Server, want: Status, i: nat, taken: bool, trace: seq<Action>)
    requires i <= 10 && IsTry(Done(trace), i)
    ensures Done(Trying(server, want, i, taken, trace).trace) != Wrong
    decreases 10 - i
  {
    if i < 10 {
      TryInOrder(server, want, i, trace);
      var updated := Before(i, trace) + [Update];
      var (end, seen) := Reading(server, want, i, 0, updated);
      if i > 0 && !server.fetches(i) {
      } else if !server.accepts(i) {
        TryingInOrder(server, want, i + 1, false, updated);
      } else if end == Unconfirmed {
        TryingInOrder(server, want, i + 1, true, seen);
      }
    }
  }

  /** However the server behaves, the actions come in this order: an update; after it reads, each but a last one
      followed by its pause, at most ten of them; and before each further update a pause of its own and a fetch. */
  lemma ActionsInOrder(server: Server, want: Status)
    ensures Done(Whole(server, want).trace) != Wrong
  {
    TryingInOrder(server, want, 0, true, []);
  }

  // ---------------------------------------------------------------------------------------------
  // What an error tells

  /** What was done last before the call gave up or succeeded. */
  ghost predicate EndsSo(o: Outcome) {
    && o.trace != []
    && var last := o.trace[|o.trace| - 1];
       match o.err
       case Some(FetchFailed) => last == Fetch
       case Some(ReadFailed) => last == Read
       case Some(UpdateFailed) => last == Update
       case None => last == Read || last.Sleep?
  }

  lemma {:induction false} ReadingEnds(server: Server, want: Status, i: nat, j: nat, trace: seq<Action>)
    requires j <= 10
    ensures var (end, seen) := Reading(server, want, i, j, trace);
      if end != Unconfirmed then seen != [] && seen[|seen| - 1] == Read
      else if j == 10 then seen == trace else seen != [] && seen[|seen| - 1].Sleep?
    decreases 10 - j
  {
    if j < 10 && server.read(i, j).Some? && !Confirms(server.read(i, j).value, want) {
      ReadingEnds(server, want, i, j + 1, trace + [Read] + [Sleep(Backoff(j))]);
    }
  }

  lemma {:induction false} TryingEnds(server: Server, want: Status, i: nat, taken: bool, trace: seq<Action>)
    requires i <= 10 && (i == 10 ==> EndsSo(Outcome(if taken then None else Some(UpdateFailed), trace)))
    ensures EndsSo(Trying(server, want, i, taken, trace))
    decreases 10 - i
  {
    if i < 10 {
      var updated := Before(i, trace) + [Update];
      var (end, seen) := Reading(server, want, i, 0, updated);
      ReadingEnds(server, want, i, 0, updated);
      if i > 0 && !server.fetches(i) {
      } else if !server.accepts(i) {
        TryingEnds(server, want, i + 1, false, updated);
      } else if end == Unconfirmed {
        TryingEnds(server, want, i + 1, true, seen);
      }
    }
  }

  /** The call fails for a fetch, a read or an update exactly by ending with it, and succeeds only after a read. */
  lemma EndTells(server: Server, want: Status)
    ensures EndsSo(Whole(server, want))
  {
    TryingEnds(server, want, 0, true, []);
  }

  /** A status that is confirmed has the wanted phase, name and plugins, and the wanted stage but for its state. */
  lemma ConfirmsIff(have: Status, want: Status)
    ensures Confirms(have, want) <==>
      && have.phase == want.phase && have.prefix == want.prefix && have.pluginsStarted == want.pluginsStarted
      && have.stage.generation == want.stage.generation && have.stage.task == want.stage.task
      && have.stage.interruptible == want.stage.interruptible && have.stage.reason == want.stage.reason
      && have.stage.message == want.stage.message && have.stage.podName == want.stage.podName
  {
  }
}
