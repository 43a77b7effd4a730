/** The text a pod's name is generated from tells generation and task apart. */
module PodNames {
  import opened Wrappers
  import opened LogNames
  import opened Tasks
  import opened Workflow
  import opened PodUniqueness

  /** <prefix>-v<generation>-<task>-, as it is put together for a new pod and for the look-up. */
  function TextOf(name: GenerateName): string
    requires name.prefix.Some?
  {
    NameOf(name.prefix.value, name.generation, name.task.Text())
  }

  function NameOf(prefix: string, generation: nat, task: string): string {
    prefix + "-v" + (Decimal(generation) + ("-" + (task + "-")))
  }

  lemma SameTail(a: string, x: string, y: string)
    requires a + x == a + y
    ensures x == y
  {
    assert x == (a + x)[|a|..] && y == (a + y)[|a|..];
  }

  lemma SameFront(x: string, y: string, c: char)
    requires x + [c] == y + [c]
    ensures x == y
  {
    assert x == (x + [c])[..|x + [c]| - 1] && y == (y + [c])[..|y + [c]| - 1];
  }

  lemma SameNumber(g: nat, x: string, h: nat, y: string)
    requires Decimal(g) + ("-" + x) == Decimal(h) + ("-" + y)
    ensures g == h && x == y
  {
    DigitRunIs(Decimal(g), "-" + x);
    DigitRunIs(Decimal(h), "-" + y);
    var name := Decimal(g) + ("-" + x);
    assert Decimal(g) == name[..|Decimal(g)|] == Decimal(h);
    DecimalParses(g);
    DecimalParses(h);
    SameTail(Decimal(g), "-" + x, "-" + y);
    SameTail("-", x, y);
  }

  lemma NameTellsApart(prefix: string, g: nat, x: string, h: nat, y: string)
    requires NameOf(prefix, g, x) == NameOf(prefix, h, y)
    ensures g == h && x == y
  {
    SameTail(prefix + "-v", Decimal(g) + ("-" + (x + "-")), Decimal(h) + ("-" + (y + "-")));
    SameNumber(g, x + "-", h, y + "-");
    SameFront(x, y, '-');
  }

  /** Under one prefix, names with the same text are the same. */
  lemma NamesTellApart(a: GenerateName, b: GenerateName)
    requires a.prefix == b.prefix && a.prefix.Some? && TextOf(a) == TextOf(b)
    ensures a == b
  {
    NameTellsApart(a.prefix.value, a.generation, a.task.Text(), b.generation, b.task.Text());
    TextTellsApart(a.task, b.task);
  }

  /** Looking a pod up by the text of its generated name is what `Matches` says, in every reachable state. */
  lemma MatchesByText(w: World, p: Pod, s: Status)
    requires Reachable(w) && w.resource.Some? && p in w.pods && s.prefix == w.resource.value.status.prefix
    ensures p.generateName.prefix == s.prefix && s.prefix.Some?
    ensures Matches(p, s) <==>
      && p.generation == s.stage.generation
      && TextOf(p.generateName) == TextOf(GenerateName(s.prefix, s.stage.generation, s.stage.task))
  {
    ReachableFit(w);
    var sought := GenerateName(s.prefix, s.stage.generation, s.stage.task);
    if TextOf(p.generateName) == TextOf(sought) {
      NamesTellApart(p.generateName, sought);
    }
  }

  /** In every reachable state no two pods that the filter on the retry time leaves are generated from the same text. */
  lemma OnePodPerText(w: World, i: nat, j: nat)
    requires Reachable(w) && w.resource.Some? && i < j < |w.pods|
    requires var cutoff := w.resource.value.status.retryTimestamp;
      Survives(w.pods[i], cutoff) && Survives(w.pods[j], cutoff)
    ensures var a, b := w.pods[i].generateName, w.pods[j].generateName;
      a.prefix.Some? && b.prefix.Some? && TextOf(a) != TextOf(b)
  {
    ReachableFit(w);
    OnePodPerTask(w);
    assert w.pods[i] in w.pods && w.pods[j] in w.pods;
    var a, b := w.pods[i].generateName, w.pods[j].generateName;
    assert a != b;
    if TextOf(a) == TextOf(b) {
      NamesTellApart(a, b);
    }
  }
}
