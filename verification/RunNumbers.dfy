/** The run number of a task, folded from the names of the logs written before. */
module RunNumbers {
  import opened Wrappers
  import opened LogNames
  import Tasks

  const CREATE_TASKS: seq<string> := [
    "setup", "preinit", "init", "postinit", "preplan", "plan", "postplan", "preapply", "apply", "postapply"
  ]

  function Max(a: int, b: int): int { if b > a then b else a }

  /** The highest number a task has among the files, -1 without any. */
  function Highest(files: seq<string>, task: string): (h: int)
    ensures -1 <= h <= MAX_I32
  {
    if files == [] then -1
    else
      var before := Highest(files[..|files| - 1], task);
      match RecordOf(files[|files| - 1], task)
      case None => before
      case Some(n) => Max(before, n)
  }

  /** The highest number among the tasks from `lo` up to `hi`. */
  function HighestIn(files: seq<string>, tasks: seq<string>, lo: nat, hi: nat): (h: int)
    requires hi <= |tasks|
    ensures -1 <= h <= MAX_I32
  {
    if lo >= hi then -1 else Max(HighestIn(files, tasks, lo, hi - 1), Highest(files, tasks[hi - 1]))
  }

  /** Addition of one on 32 bits. */
  function Next32(n: int): int { if n == MAX_I32 then -MAX_I32 - 1 else n + 1 }

  function Rerun(own: int, prev: int, next: int): int {
    if next > own then Next32(next) else if prev > own then prev else Next32(own)
  }

  function CurrentRerun(files: seq<string>, tasks: seq<string>, index: nat): int
    requires index < |tasks|
  {
    Rerun(Highest(files, tasks[index]), HighestIn(files, tasks, 0, index), HighestIn(files, tasks, index + 1, |tasks|))
  }

  /** The inner loop: one task against all files. */
  method FindHighest(files: seq<string>, task: string) returns (highest: int)
    ensures highest == Highest(files, task)
  {
    highest := -1;
    for j := 0 to |files|
      invariant highest == Highest(files[..j], task)
    {
      assert files[..j + 1][..j] == files[..j];
      var captured := Captured(files[j], task);
      if captured.Some? {
        if ParseDecimal(captured.value) <= MAX_I32 {
          var rerun := ParseDecimal(captured.value);
          if rerun > highest {
            highest := rerun;
          }
        }
      } else if IsLegacy(files[j], task) {
        if 0 > highest {
          highest := 0;
        }
      }
    }
    assert files[..|files|] == files;
  }

  method GetCurrentRerun(files: Option<seq<string>>, task: string) returns (highest: int)
    ensures task !in CREATE_TASKS ==> highest == 10
    ensures task in CREATE_TASKS && files.None? ==> highest == 20
    ensures files.Some? ==>
      forall i :: 0 <= i < |CREATE_TASKS| && CREATE_TASKS[i] == task && task !in CREATE_TASKS[..i] ==>
        highest == CurrentRerun(files.value, CREATE_TASKS, i)
  {
    var tasks := CREATE_TASKS;
    var index := 0;
    while index < |tasks| && tasks[index] != task
      invariant index <= |tasks| && task !in tasks[..index]
    {
      index := index + 1;
    }
    if index == |tasks| {
      assert tasks[..|tasks|] == tasks;
      return 10;
    }
    if files.None? {
      return 20;
    }
    highest := FoldTasks(files.value, tasks, index);
  }

  /** The highest numbers among the first `i` tasks: of those before the one at `index`, of that one, and of those
      after. */
  function Folded(files: seq<string>, tasks: seq<string>, index: nat, i: nat): (int, int, int)
    requires index < |tasks| && i <= |tasks|
  {
    if i == 0 then (-1, -1, -1)
    else
      var (prev, own, next) := Folded(files, tasks, index, i - 1);
      var h := Highest(files, tasks[i - 1]);
      if i - 1 < index then (Max(prev, h), own, next)
      else if i - 1 == index then (prev, Max(own, h), next)
      else (prev, own, Max(next, h))
  }

  lemma {:induction false} FoldedMeaning(files: seq<string>, tasks: seq<string>, index: nat, i: nat)
    requires index < |tasks| && i <= |tasks|
    ensures Folded(files, tasks, index, i).0 == HighestIn(files, tasks, 0, if i < index then i else index)
    ensures Folded(files, tasks, index, i).1 == if i > index then Highest(files, tasks[index]) else -1
    ensures Folded(files, tasks, index, i).2 == HighestIn(files, tasks, index + 1, i)
  {
    if i > 0 {
      FoldedMeaning(files, tasks, index, i - 1);
    }
  }

  method FoldTasks(files: seq<string>, tasks: seq<string>, index: nat) returns (highest: int)
    requires index < |tasks|
    ensures highest == CurrentRerun(files, tasks, index)
  {
    var prevHighest, nextHighest, taskHighest := -1, -1, -1;
    for i := 0 to |tasks|
      invariant (prevHighest, taskHighest, nextHighest) == Folded(files, tasks, index, i)
    {
      var temp := FindHighest(files, tasks[i]);
      if i < index {
        if temp > prevHighest {
          prevHighest := temp;
        }
      } else if i == index {
        if temp > taskHighest {
          taskHighest := temp;
        }
      } else {
        if temp > nextHighest {
          nextHighest := temp;
        }
      }
    }
    FoldedMeaning(files, tasks, index, |tasks|);
    highest := Next32(taskHighest);
    if prevHighest > taskHighest {
      highest := prevHighest;
    }
    if nextHighest > taskHighest {
      highest := Next32(nextHighest);
    }
  }

  // ---------------------------------------------------------------------------------------------
  // The highest number

  lemma {:induction false} HighestBounds(files: seq<string>, task: string)
    ensures forall name, n :: name in files && RecordOf(name, task) == Some(n) ==> n <= Highest(files, task)
    ensures Highest(files, task) >= 0 ==>
      exists name :: name in files && RecordOf(name, task) == Some(Highest(files, task))
  {
    if files != [] {
      var before, last := files[..|files| - 1], files[|files| - 1];
      HighestBounds(before, task);
      assert files == before + [last];
    }
  }

  // ---------------------------------------------------------------------------------------------
  // One launch after another

  /** A launch of the task at `index`, and the names its pod lists in the directory. */
  datatype Launch = Launch(index: nat, podUid: string, files: seq<string>)

  function Number(l: Launch, tasks: seq<string>): int
    requires l.index < |tasks|
  {
    CurrentRerun(l.files, tasks, l.index)
  }

  function LogOf(l: Launch, tasks: seq<string>): string
    requires l.index < |tasks|
  {
    LogName(tasks[l.index], Number(l, tasks), l.podUid)
  }

  /** Names of tasks: no two the same, none with a dot. */
  ghost predicate AreTaskNames(tasks: seq<string>) {
    && (forall i :: 0 <= i < |tasks| ==> NoDot(tasks[i]))
    && forall i, j :: 0 <= i < j < |tasks| ==> tasks[i] != tasks[j]
  }

  ghost predicate AreLaunches(launches: seq<Launch>, tasks: seq<string>) {
    forall k :: 0 <= k < |launches| ==> launches[k].index < |tasks| && IsUuid(launches[k].podUid)
  }

  /** No pattern of any task takes the name for a log. */
  ghost predicate IsNoLog(name: string, tasks: seq<string>) {
    forall t :: 0 <= t < |tasks| ==> RecordOf(name, tasks[t]) == None
  }

  /** Launch `j` finds the logs of the launches before it, in any order, among any files that are no logs. */
  ghost predicate FindsLogs(launches: seq<Launch>, tasks: seq<string>, j: nat)
    requires j < |launches| && AreLaunches(launches, tasks)
  {
    && (forall i :: 0 <= i < j ==> LogOf(launches[i], tasks) in launches[j].files)
    && forall name :: name in launches[j].files ==>
         IsNoLog(name, tasks) || exists i :: 0 <= i < j && LogOf(launches[i], tasks) == name
  }

  /** The launches of a generation from a directory without logs on, no more of them than 32 bits can number. */
  ghost predicate InTurn(launches: seq<Launch>, tasks: seq<string>) {
    && AreTaskNames(tasks) && AreLaunches(launches, tasks) && |launches| <= MAX_I32
    && forall j :: 0 <= j < |launches| ==> FindsLogs(launches, tasks, j)
  }

  /** The scripts that launches put into the same directory are no logs. */
  lemma ScriptsAreNoLogs(task: string, tasks: seq<string>)
    requires NoDot(task) && AreTaskNames(tasks)
    ensures IsNoLog(task + ".sh", tasks)
  {
    forall t | 0 <= t < |tasks| ensures RecordOf(task + ".sh", tasks[t]) == None {
      ScriptIsNoLog(task, tasks[t]);
    }
  }

  /** Nor are the logs of tasks that are not counted, such as those of the delete chain. */
  lemma OtherLogsAreNoLogs(task: string, number: int, podUid: string, tasks: seq<string>)
    requires NoDot(task) && AreTaskNames(tasks) && task !in tasks && 0 <= number <= MAX_I32 && IsUuid(podUid)
    ensures IsNoLog(LogName(task, number, podUid), tasks)
  {
    forall t | 0 <= t < |tasks| ensures RecordOf(LogName(task, number, podUid), tasks[t]) == None {
      LogNameRoundTrip(task, number, podUid, tasks[t]);
    }
  }

  // ---------------------------------------------------------------------------------------------
  // The numbers given so far

  /** The launches are of the tasks at `indices`, and the first of them were given `numbers`. */
  ghost predicate Given(launches: seq<Launch>, tasks: seq<string>, indices: seq<nat>, numbers: seq<int>)
    requires AreLaunches(launches, tasks)
  {
    && |numbers| <= |indices| == |launches|
    && (forall i :: 0 <= i < |launches| ==> launches[i].index == indices[i])
    && forall i :: 0 <= i < |numbers| ==> Number(launches[i], tasks) == numbers[i]
  }

  /** The k-th number is below k, counting from one. */
  predicate AreSmall(numbers: seq<int>) {
    forall i :: 0 <= i < |numbers| ==> 0 <= numbers[i] <= i
  }

  /** Each number exceeds those given before to its own task and to later ones. */
  predicate AreIncreasing(indices: seq<nat>, numbers: seq<int>)
    requires |numbers| <= |indices|
  {
    forall i, j :: 0 <= i < j < |numbers| && indices[i] >= indices[j] ==> numbers[i] < numbers[j]
  }

  /** The highest of the numbers given to the tasks from `lo` up to `hi`, or -1. */
  function Top(indices: seq<nat>, numbers: seq<int>, lo: nat, hi: nat): int
    requires |numbers| <= |indices|
    decreases numbers
  {
    if numbers == [] then -1
    else
      var n := |numbers| - 1;
      var before := Top(indices, numbers[..n], lo, hi);
      if lo <= indices[n] < hi then Max(before, numbers[n]) else before
  }

  lemma {:induction false} TopBounds(indices: seq<nat>, numbers: seq<int>, lo: nat, hi: nat)
    requires |numbers| <= |indices|
    ensures var h := Top(indices, numbers, lo, hi);
      && h >= -1
      && (forall i :: 0 <= i < |numbers| && lo <= indices[i] < hi ==> numbers[i] <= h)
      && (h >= 0 ==> exists i :: 0 <= i < |numbers| && lo <= indices[i] < hi && numbers[i] == h)
    decreases numbers
  {
    if numbers != [] {
      TopBounds(indices, numbers[..|numbers| - 1], lo, hi);
    }
  }

  lemma {:induction false} TopJoins(indices: seq<nat>, numbers: seq<int>, lo: nat, mid: nat, hi: nat)
    requires |numbers| <= |indices| && lo <= mid <= hi
    ensures Top(indices, numbers, lo, hi) == Max(Top(indices, numbers, lo, mid), Top(indices, numbers, mid, hi))
    decreases numbers
  {
    if numbers != [] {
      TopJoins(indices, numbers[..|numbers| - 1], lo, mid, hi);
    }
  }

  lemma {:induction false} TopEmpty(indices: seq<nat>, numbers: seq<int>, lo: nat)
    requires |numbers| <= |indices|
    ensures Top(indices, numbers, lo, lo) == -1
    decreases numbers
  {
    if numbers != [] {
      TopEmpty(indices, numbers[..|numbers| - 1], lo);
    }
  }

  // ---------------------------------------------------------------------------------------------
  // What a launch finds

  lemma RecordIsGiven(launches: seq<Launch>, tasks: seq<string>, t: nat, i: nat)
    requires AreTaskNames(tasks) && AreLaunches(launches, tasks) && i < |launches| && t < |tasks|
    requires 0 <= Number(launches[i], tasks) <= MAX_I32
    ensures RecordOf(LogOf(launches[i], tasks), tasks[t])
         == if launches[i].index == t then Some(Number(launches[i], tasks)) else None
  {
    var l := launches[i];
    LogNameRoundTrip(tasks[l.index], Number(l, tasks), l.podUid, tasks[t]);
  }

  /** Among files of which only `logs` count, the highest number of a task is the highest that was given to it. */
  lemma HighestOfLogs(files: seq<string>, task: string, logs: seq<string>, indices: seq<nat>, numbers: seq<int>, t: nat)
    requires |logs| == |numbers| <= |indices| && AreSmall(numbers)
    requires forall i :: 0 <= i < |logs| ==> logs[i] in files
    requires forall i :: 0 <= i < |logs| ==>
      RecordOf(logs[i], task) == if indices[i] == t then Some(numbers[i]) else None
    requires forall name :: name in files ==> RecordOf(name, task) == None || name in logs
    ensures Highest(files, task) == Top(indices, numbers, t, t + 1)
  {
    HighestBounds(files, task);
    TopBounds(indices, numbers, t, t + 1);
    var h, top := Highest(files, task), Top(indices, numbers, t, t + 1);
    if h >= 0 {
      var name :| name in files && RecordOf(name, task) == Some(h);
      var i :| 0 <= i < |logs| && logs[i] == name;
      assert numbers[i] == h <= top;
    }
    if top >= 0 {
      var i :| 0 <= i < |logs| && t <= indices[i] < t + 1 && numbers[i] == top;
      assert RecordOf(logs[i], task) == Some(top);
    }
  }

  /** What a launch finds of the task at `t` is what the launches before it were given. */
  lemma HighestIsTop(launches: seq<Launch>, tasks: seq<string>, indices: seq<nat>, numbers: seq<int>, t: nat)
    requires InTurn(launches, tasks) && Given(launches, tasks, indices, numbers) && |numbers| < |launches|
    requires AreSmall(numbers) && t < |tasks|
    ensures Highest(launches[|numbers|].files, tasks[t]) == Top(indices, numbers, t, t + 1)
  {
    var j := |numbers|;
    assert FindsLogs(launches, tasks, j);
    var logs := seq(j, i requires 0 <= i < j => LogOf(launches[i], tasks));
    forall i | 0 <= i < j
      ensures RecordOf(logs[i], tasks[t]) == if indices[i] == t then Some(numbers[i]) else None
    {
      RecordIsGiven(launches, tasks, t, i);
    }
    forall name | name in launches[j].files ensures RecordOf(name, tasks[t]) == None || name in logs {
      if !IsNoLog(name, tasks) {
        var i :| 0 <= i < j && LogOf(launches[i], tasks) == name;
        assert logs[i] == name;
      }
    }
    HighestOfLogs(launches[j].files, tasks[t], logs, indices, numbers, t);
  }

  /** What grows with each task as the highest number does is the highest number. */
  lemma {:induction false} HighestInIs(files: seq<string>, tasks: seq<string>, lo: nat, hi: nat, top: nat -> int)
    requires lo <= hi <= |tasks| && top(lo) == -1
    requires forall t :: lo <= t < hi ==> top(t + 1) == Max(top(t), Highest(files, tasks[t]))
    ensures HighestIn(files, tasks, lo, hi) == top(hi)
    decreases hi
  {
    if lo < hi {
      HighestInIs(files, tasks, lo, hi - 1, top);
      assert top(hi - 1 + 1) == Max(top(hi - 1), Highest(files, tasks[hi - 1]));
    }
  }

  lemma TopGrows(h: int, indices: seq<nat>, numbers: seq<int>, lo: nat, t: nat)
    requires |numbers| <= |indices| && lo <= t && h == Top(indices, numbers, t, t + 1)
    ensures Top(indices, numbers, lo, t + 1) == Max(Top(indices, numbers, lo, t), h)
  {
    TopJoins(indices, numbers, lo, t, t + 1);
  }

  lemma TopOfTasks(files: seq<string>, tasks: seq<string>, indices: seq<nat>, numbers: seq<int>, lo: nat, hi: nat)
    requires |numbers| <= |indices| && lo <= hi <= |tasks|
    requires forall t :: lo <= t < hi ==> Highest(files, tasks[t]) == Top(indices, numbers, t, t + 1)
    ensures HighestIn(files, tasks, lo, hi) == Top(indices, numbers, lo, hi)
  {
    var top := (t: nat) => Top(indices, numbers, lo, t);
    TopEmpty(indices, numbers, lo);
    forall t | lo <= t < hi ensures top(t + 1) == Max(top(t), Highest(files, tasks[t])) {
      TopGrows(Highest(files, tasks[t]), indices, numbers, lo, t);
    }
    HighestInIs(files, tasks, lo, hi, top);
  }

  lemma HighestInIsTop(launches: seq<Launch>, tasks: seq<string>, indices: seq<nat>, numbers: seq<int>, lo: nat,
      hi: nat)
    requires InTurn(launches, tasks) && Given(launches, tasks, indices, numbers) && |numbers| < |launches|
    requires AreSmall(numbers) && lo <= hi <= |tasks|
    ensures HighestIn(launches[|numbers|].files, tasks, lo, hi) == Top(indices, numbers, lo, hi)
  {
    var files := launches[|numbers|].files;
    forall t | lo <= t < hi ensures Highest(files, tasks[t]) == Top(indices, numbers, t, t + 1) {
      HighestIsTop(launches, tasks, indices, numbers, t);
    }
    TopOfTasks(files, tasks, indices, numbers, lo, hi);
  }

  /** A launch's number is worked out from the numbers given before. */
  lemma NumberFrom(launches: seq<Launch>, tasks: seq<string>, indices: seq<nat>, numbers: seq<int>)
    requires InTurn(launches, tasks) && Given(launches, tasks, indices, numbers) && |numbers| < |launches|
             && AreSmall(numbers)
    ensures var j, t := |numbers|, indices[|numbers|];
      && Number(launches[j], tasks) == NextNumber(indices, numbers, |tasks|)
      && Highest(launches[j].files, tasks[t]) == Top(indices, numbers, t, t + 1)
      && HighestIn(launches[j].files, tasks, 0, t) == Top(indices, numbers, 0, t)
      && HighestIn(launches[j].files, tasks, t + 1, |tasks|) == Top(indices, numbers, t + 1, |tasks|)
  {
    var t := indices[|numbers|];
    HighestIsTop(launches, tasks, indices, numbers, t);
    HighestInIsTop(launches, tasks, indices, numbers, 0, t);
    HighestInIsTop(launches, tasks, indices, numbers, t + 1, |tasks|);
  }

  function NextNumber(indices: seq<nat>, numbers: seq<int>, count: nat): int
    requires |numbers| < |indices|
  {
    var t := indices[|numbers|];
    Rerun(Top(indices, numbers, t, t + 1), Top(indices, numbers, 0, t), Top(indices, numbers, t + 1, count))
  }

  /** What a launch is given against what it finds of its own task, the tasks before and those after. */
  lemma RerunMeaning(own: int, prev: int, next: int, j: nat)
    requires -1 <= own < j && -1 <= prev < j && -1 <= next < j <= MAX_I32
    ensures 0 <= Rerun(own, prev, next) <= j
    ensures own < Rerun(own, prev, next) && next < Rerun(own, prev, next)
    ensures prev < Rerun(own, prev, next) <==> prev <= own || prev <= next
    ensures prev <= Rerun(own, prev, next) <==> next <= own || prev <= next + 1
  {
  }

  lemma TopsAreSmall(indices: seq<nat>, numbers: seq<int>, lo: nat, hi: nat)
    requires |numbers| <= |indices| && AreSmall(numbers)
    ensures -1 <= Top(indices, numbers, lo, hi) < |numbers|
  {
    TopBounds(indices, numbers, lo, hi);
  }

  lemma NextFits(indices: seq<nat>, numbers: seq<int>, count: nat)
    requires |numbers| < |indices| && |numbers| <= MAX_I32 && AreSmall(numbers) && AreIncreasing(indices, numbers)
    requires forall i :: 0 <= i < |indices| ==> indices[i] < count
    ensures var more := numbers + [NextNumber(indices, numbers, count)]; AreSmall(more) && AreIncreasing(indices, more)
  {
    var t, n := indices[|numbers|], NextNumber(indices, numbers, count);
    TopsAreSmall(indices, numbers, t, t + 1);
    TopsAreSmall(indices, numbers, 0, t);
    TopsAreSmall(indices, numbers, t + 1, count);
    RerunMeaning(Top(indices, numbers, t, t + 1), Top(indices, numbers, 0, t), Top(indices, numbers, t + 1, count),
      |numbers|);
    forall i | 0 <= i < |numbers| && indices[i] >= t ensures numbers[i] < n {
      TopBounds(indices, numbers, t, t + 1);
      TopBounds(indices, numbers, t + 1, count);
    }
  }

  lemma GivenNext(launches: seq<Launch>, tasks: seq<string>, indices: seq<nat>, numbers: seq<int>)
    requires InTurn(launches, tasks) && Given(launches, tasks, indices, numbers) && |numbers| < |launches|
             && AreSmall(numbers)
    ensures Given(launches, tasks, indices, numbers + [NextNumber(indices, numbers, |tasks|)])
  {
    NumberFrom(launches, tasks, indices, numbers);
    var more := numbers + [NextNumber(indices, numbers, |tasks|)];
    forall i | 0 <= i < |more| ensures Number(launches[i], tasks) == more[i] {
      assert i < |numbers| ==> Number(launches[i], tasks) == numbers[i];
    }
  }

  lemma {:induction false} AllNumbered(launches: seq<Launch>, tasks: seq<string>, indices: seq<nat>, k: nat)
    returns (numbers: seq<int>)
    requires InTurn(launches, tasks) && Given(launches, tasks, indices, []) && k <= |launches|
    ensures Given(launches, tasks, indices, numbers) && |numbers| == k
    ensures AreSmall(numbers) && AreIncreasing(indices, numbers)
  {
    numbers := [];
    if k > 0 {
      var before := AllNumbered(launches, tasks, indices, k - 1);
      GivenNext(launches, tasks, indices, before);
      NextFits(indices, before, |tasks|);
      numbers := before + [NextNumber(indices, before, |tasks|)];
    }
  }

  lemma IndicesOf(launches: seq<Launch>, tasks: seq<string>) returns (indices: seq<nat>)
    requires AreLaunches(launches, tasks)
    ensures Given(launches, tasks, indices, [])
  {
    indices := seq(|launches|, i requires 0 <= i < |launches| => launches[i].index);
  }

  lemma CreateTasksAreNames()
    ensures AreTaskNames(CREATE_TASKS)
  {
  }

  /** The list is that of the create chain, in its order. */
  lemma CreateTaskAt(i: nat)
    requires i < 10
    ensures |CREATE_TASKS| == |Tasks.CREATE_ORDER| == 10 && CREATE_TASKS[i] == Tasks.CREATE_ORDER[i].Text()
  {
    var k: int := i;
    if k < 5 {
      if k == 0 {} else if k == 1 {} else if k == 2 {} else if k == 3 {} else {}
    } else {
      if k == 5 {} else if k == 6 {} else if k == 7 {} else if k == 8 {} else {}
    }
  }

  /** Over any sequence of launches from a directory without logs: the k-th launch is given a number below k, counting
      from one, that exceeds every number given before to its own and to every later task. */
  lemma NumbersIncrease(launches: seq<Launch>, tasks: seq<string>)
    requires InTurn(launches, tasks)
    ensures forall k :: 0 <= k < |launches| ==> 0 <= Number(launches[k], tasks) < k + 1
    ensures forall i, j :: 0 <= i < j < |launches| && launches[i].index >= launches[j].index ==>
      Number(launches[i], tasks) < Number(launches[j], tasks)
  {
    var indices := IndicesOf(launches, tasks);
    var numbers := AllNumbered(launches, tasks, indices, |launches|);
    assert forall k :: 0 <= k < |launches| ==> Number(launches[k], tasks) == numbers[k];
  }

  /** No launch overwrites the log of another, whatever the names of their pods. */
  lemma LogsAreApart(launches: seq<Launch>, tasks: seq<string>, i: nat, j: nat)
    requires InTurn(launches, tasks) && i < j < |launches|
    ensures LogOf(launches[i], tasks) != LogOf(launches[j], tasks)
  {
    NumbersIncrease(launches, tasks);
    var a, b := launches[i], launches[j];
    LogNameRoundTrip(tasks[a.index], Number(a, tasks), a.podUid, tasks[b.index]);
    LogNameRoundTrip(tasks[b.index], Number(b, tasks), b.podUid, tasks[b.index]);
    LogNameRoundTrip(tasks[b.index], Number(b, tasks), b.podUid, tasks[a.index]);
  }

  /** The numbers do not increase over the whole workflow: a launch is given less than an earlier task was given
      before exactly if it finds more of a later task than of its own, and at least two more still of the earlier. */
  lemma FallsBehindIff(launches: seq<Launch>, tasks: seq<string>, j: nat)
    requires InTurn(launches, tasks) && j < |launches|
    ensures var l := launches[j];
      var own, prev := Highest(l.files, tasks[l.index]), HighestIn(l.files, tasks, 0, l.index);
      var next := HighestIn(l.files, tasks, l.index + 1, |tasks|);
      Number(l, tasks) < prev <==> own < next && next + 1 < prev
  {
    var indices := IndicesOf(launches, tasks);
    var numbers := AllNumbered(launches, tasks, indices, j);
    NumberFrom(launches, tasks, indices, numbers);
    NextFallsBehindIff(indices, numbers, |tasks|);
  }

  lemma NextFallsBehindIff(indices: seq<nat>, numbers: seq<int>, count: nat)
    requires |numbers| < |indices| && |numbers| <= MAX_I32 && AreSmall(numbers)
    ensures var t := indices[|numbers|];
      var own, prev, next := Top(indices, numbers, t, t + 1), Top(indices, numbers, 0, t),
        Top(indices, numbers, t + 1, count);
      NextNumber(indices, numbers, count) < prev <==> own < next && next + 1 < prev
  {
    var t := indices[|numbers|];
    TopsAreSmall(indices, numbers, t, t + 1);
    TopsAreSmall(indices, numbers, 0, t);
    TopsAreSmall(indices, numbers, t + 1, count);
    RerunMeaning(Top(indices, numbers, t, t + 1), Top(indices, numbers, 0, t), Top(indices, numbers, t + 1, count),
      |numbers|);
  }

  /** Any task may be launched next, whatever else that is no log lies in the directory. */
  lemma AnyTaskNext(launches: seq<Launch>, tasks: seq<string>, index: nat, podUid: string, others: seq<string>)
    requires InTurn(launches, tasks) && |launches| < MAX_I32 && index < |tasks| && IsUuid(podUid)
    requires forall name :: name in others ==> IsNoLog(name, tasks)
    ensures exists files :: others <= files && InTurn(launches + [Launch(index, podUid, files)], tasks)
  {
    var logs := seq(|launches|, i requires 0 <= i < |launches| => LogOf(launches[i], tasks));
    var more := launches + [Launch(index, podUid, others + logs)];
    forall j | 0 <= j < |more| ensures FindsLogs(more, tasks, j) {
      if j < |launches| {
        assert FindsLogs(launches, tasks, j);
        assert forall i :: 0 <= i <= j ==> more[i] == launches[i];
      } else {
        assert forall i :: 0 <= i < j ==> logs[i] == LogOf(more[i], tasks) && logs[i] in logs;
      }
    }
    assert others <= others + logs && InTurn(more, tasks);
  }

  // ---------------------------------------------------------------------------------------------
  // An example

  lemma TopPush(indices: seq<nat>, numbers: seq<int>, n: int, lo: nat, hi: nat)
    requires |numbers| < |indices|
    ensures Top(indices, numbers + [n], lo, hi)
         == if lo <= indices[|numbers|] < hi then Max(Top(indices, numbers, lo, hi), n)
           else Top(indices, numbers, lo, hi)
  {
  }

  /** The numbers of a plan, two setups and an init. */
  lemma ExampleTops(indices: seq<nat>, zero: seq<int>, one: seq<int>, two: seq<int>, three: seq<int>)
    requires indices == [5, 0, 0, 2] && zero == [] && one == zero + [0] && two == one + [1] && three == two + [2]
    ensures Top(indices, zero, 5, 6) == Top(indices, zero, 0, 5) == Top(indices, zero, 6, 10) == -1
    ensures Top(indices, one, 0, 1) == Top(indices, one, 0, 0) == -1 && Top(indices, one, 1, 10) == 0
    ensures Top(indices, two, 0, 1) == 1 && Top(indices, two, 0, 0) == -1 && Top(indices, two, 1, 10) == 0
    ensures Top(indices, three, 2, 3) == -1 && Top(indices, three, 0, 2) == 2 && Top(indices, three, 3, 10) == 0
  {
    TopPush(indices, zero, 0, 0, 1);
    TopPush(indices, zero, 0, 0, 0);
    TopPush(indices, zero, 0, 1, 10);
    TopPush(indices, zero, 0, 2, 3);
    TopPush(indices, zero, 0, 0, 2);
    TopPush(indices, zero, 0, 3, 10);
    TopPush(indices, one, 1, 0, 1);
    TopPush(indices, one, 1, 0, 0);
    TopPush(indices, one, 1, 1, 10);
    TopPush(indices, one, 1, 2, 3);
    TopPush(indices, one, 1, 0, 2);
    TopPush(indices, one, 1, 3, 10);
    TopPush(indices, two, 2, 2, 3);
    TopPush(indices, two, 2, 0, 2);
    TopPush(indices, two, 2, 3, 10);
  }

  lemma ExampleNumbers(indices: seq<nat>, zero: seq<int>, one: seq<int>, two: seq<int>, three: seq<int>)
    requires indices == [5, 0, 0, 2] && zero == [] && one == zero + [0] && two == one + [1] && three == two + [2]
    ensures NextNumber(indices, zero, 10) == 0 && NextNumber(indices, one, 10) == 1
    ensures NextNumber(indices, two, 10) == 2 && NextNumber(indices, three, 10) == 1
  {
    ExampleTops(indices, zero, one, two, three);
  }

  lemma ExampleRun(launches: seq<Launch>, tasks: seq<string>, indices: seq<nat>,
      zero: seq<int>, one: seq<int>, two: seq<int>, three: seq<int>, four: seq<int>)
    requires InTurn(launches, tasks) && Given(launches, tasks, indices, zero) && |zero| == 0 && |launches| == 4
    requires one == zero + [NextNumber(indices, zero, |tasks|)] && AreSmall(one)
    requires two == one + [NextNumber(indices, one, |tasks|)] && AreSmall(two)
    requires three == two + [NextNumber(indices, two, |tasks|)] && AreSmall(three)
    requires four == three + [NextNumber(indices, three, |tasks|)]
    ensures Number(launches[2], tasks) == three[2] && Number(launches[3], tasks) == four[3]
  {
    GivenNext(launches, tasks, indices, zero);
    GivenNext(launches, tasks, indices, one);
    GivenNext(launches, tasks, indices, two);
    GivenNext(launches, tasks, indices, three);
  }

  /** A plan, two setups and an init launched in this order are given 0, 1, 2 and 1. */
  lemma InitFallsBehind(launches: seq<Launch>, tasks: seq<string>)
    requires InTurn(launches, tasks) && |tasks| == 10 && |launches| == 4
    requires launches[0].index == 5 && launches[1].index == 0 && launches[2].index == 0 && launches[3].index == 2
    ensures Number(launches[2], tasks) == 2 && Number(launches[3], tasks) == 1
  {
    var indices: seq<nat> := [5, 0, 0, 2];
    var zero: seq<int> := [];
    var one := zero + [0];
    var two := one + [1];
    var three := two + [2];
    ExampleNumbers(indices, zero, one, two, three);
    ExampleRun(launches, tasks, indices, zero, one, two, three, three + [1]);
  }

  // ---------------------------------------------------------------------------------------------
  // A single log

  lemma {:induction false} HighestOfOne(name: string, task: string)
    ensures Highest([name], task) == if RecordOf(name, task).Some? then RecordOf(name, task).value else -1
  {
    assert [name][..0] == [];
  }

  /** The name is a log of the task at `j` alone, and stands for the number, or for none. */
  ghost predicate IsLogOf(name: string, tasks: seq<string>, j: nat, number: Option<int>)
    requires j < |tasks|
  {
    && (number.Some? ==> 0 <= number.value <= MAX_I32)
    && forall t :: 0 <= t < |tasks| ==> RecordOf(name, tasks[t]) == if t == j then number else None
  }

  lemma {:induction false} HighestInOfOne(name: string, tasks: seq<string>, j: nat, number: Option<int>, lo: nat,
      hi: nat)
    requires j < |tasks| && IsLogOf(name, tasks, j, number) && hi <= |tasks|
    ensures HighestIn([name], tasks, lo, hi) == if lo <= j < hi && number.Some? then number.value else -1
    decreases hi
  {
    if lo < hi {
      HighestInOfOne(name, tasks, j, number, lo, hi - 1);
      HighestOfOne(name, tasks[hi - 1]);
    }
  }

  /** In a directory with a single log, the number that log stands for is given to later tasks, and one more, on 32
      bits, to its own task and to earlier ones. One that stands for no number leaves every task at 0. */
  lemma OneLogFound(name: string, tasks: seq<string>, j: nat, number: Option<int>, i: nat)
    requires i < |tasks| && j < |tasks| && IsLogOf(name, tasks, j, number)
    ensures CurrentRerun([name], tasks, i)
         == match number
            case None => 0
            case Some(n) => if j < i then n else if n == 2147483647 then -2147483648 else n + 1
  {
    HighestOfOne(name, tasks[i]);
    HighestInOfOne(name, tasks, j, number, 0, i);
    HighestInOfOne(name, tasks, j, number, i + 1, |tasks|);
  }

  /** A log named after its task only, as once was done, counts as the run with number 0, whatever its name goes on
      with. */
  lemma OldLogIsZero(tasks: seq<string>, j: nat, i: nat, rest: string)
    requires AreTaskNames(tasks) && i < |tasks| && j < |tasks|
    ensures CurrentRerun([tasks[j] + ".out" + rest], tasks, i) == if j < i then 0 else 1
  {
    var name := tasks[j] + ".out" + rest;
    assert name == tasks[j] + "." + ("out" + rest) && name[|tasks[j]| + 1..] == "out" + rest;
    assert name == (tasks[j] + ".out") + rest;
    forall t | 0 <= t < |tasks| ensures RecordOf(name, tasks[t]) == if t == j then Some(0) else None {
      if tasks[t] + "." <= name {
        SameHead(tasks[j], "out" + rest, tasks[t]);
        assert name[|tasks[t]| + 1..] == "out" + rest;
      } else if IsLegacy(name, tasks[t]) {
        LegacyHead(name, tasks[t]);
      }
    }
    OneLogFound(name, tasks, j, Some(0), i);
  }

  /** A log with a number too large for 32 bits counts for nothing. */
  lemma LargeLogIsNone(tasks: seq<string>, j: nat, i: nat, number: nat, uuid: string)
    requires AreTaskNames(tasks) && i < |tasks| && j < |tasks| && number > 2147483647 && IsUuid(uuid)
    ensures CurrentRerun([LogName(tasks[j], number, uuid)], tasks, i) == 0
  {
    var name, digits := LogName(tasks[j], number, uuid), Decimal(number);
    DecimalParses(number);
    assert digits + "." + uuid + ".out" + "" == digits + "." + uuid + ".out";
    assert IsNumbered(name, tasks[j], digits, uuid, "");
    NumberedIsCaptured(name, tasks[j], digits, uuid, "");
    forall t | 0 <= t < |tasks| && t != j ensures RecordOf(name, tasks[t]) == None {
      if tasks[t] + "." <= name {
        SameHead(tasks[j], digits + "." + uuid + ".out", tasks[t]);
      } else if IsLegacy(name, tasks[t]) {
        LegacyHead(name, tasks[t]);
      }
    }
    OneLogFound(name, tasks, j, None, i);
  }

  /** After the highest number of 32 bits the numbers of the task and of those before it wrap around. */
  lemma LastNumberWraps(tasks: seq<string>, j: nat, i: nat, uuid: string)
    requires AreTaskNames(tasks) && i <= j < |tasks| && IsUuid(uuid)
    ensures CurrentRerun([LogName(tasks[j], 2147483647, uuid)], tasks, i) == -2147483648
  {
    var name := LogName(tasks[j], 2147483647, uuid);
    forall t | 0 <= t < |tasks| ensures RecordOf(name, tasks[t]) == if t == j then Some(2147483647) else None {
      LogNameRoundTrip(tasks[j], 2147483647, uuid, tasks[t]);
    }
    OneLogFound(name, tasks, j, Some(2147483647), i);
  }

  /** A log with a negative number, as a launch after that leaves it, counts for nothing. */
  lemma NegativeLogIsNone(tasks: seq<string>, j: nat, i: nat, number: int, uuid: string)
    requires AreTaskNames(tasks) && i < |tasks| && j < |tasks| && number < 0
    ensures CurrentRerun([LogName(tasks[j], number, uuid)], tasks, i) == 0
  {
    var name, rest := LogName(tasks[j], number, uuid), "-" + Decimal(-number) + "." + uuid + ".out";
    assert Printed(number) + "." + uuid + ".out" == rest;
    assert name == tasks[j] + "." + rest && name[|tasks[j]| + 1..] == rest;
    forall t | 0 <= t < |tasks| ensures RecordOf(name, tasks[t]) == None {
      if tasks[t] + "." <= name {
        SameHead(tasks[j], rest, tasks[t]);
        assert name[|tasks[t]| + 1..] == rest;
        NoOut(name, tasks[t], rest);
      } else if IsLegacy(name, tasks[t]) {
        LegacyHead(name, tasks[t]);
      }
    }
    OneLogFound(name, tasks, j, None, i);
  }

  lemma NoOut(name: string, task: string, rest: string)
    requires name == task + "." + rest && rest != "" && rest[0] == '-'
    ensures !IsLegacy(name, task)
  {
    assert name[|task| + 1] == '-' && (task + ".out")[|task| + 1] == 'o';
  }
}
