/** The lists of definitions the documentation shows: each independent definition with all it depends on. */
module DocClosure {

  const PACKAGE := "github.com/galleybytes/infrakube/pkg/apis/infrakube/v1."

  const VERSION_AND_GROUP := " v1 infrakube.galleybytes.com"

  /** Replaces the first occurrence. */
  function ReplaceFirst(s: string, found: string, replacement: string): string {
    if found <= s then replacement + s[|found|..]
    else if s == "" then ""
    else [s[0]] + ReplaceFirst(s[1..], found, replacement)
  }

  /** The name a definition is listed under. */
  function Title(path: string): string { ReplaceFirst(path, PACKAGE, "") + VERSION_AND_GROUP }

  lemma {:induction false} ReplacesFirst(a: string, b: string, found: string)
    requires found != "" && forall i :: 0 <= i < |a| ==> !(found <= (a + found + b)[i..])
    ensures ReplaceFirst(a + found + b, found, "") == a + b
  {
    var s := a + found + b;
    if a == "" {
      assert s == found + b && s[|found|..] == b;
    } else {
      assert s[0..] == s && s[1..] == a[1..] + found + b;
      forall i | 0 <= i < |a[1..]| ensures !(found <= s[1..][i..]) {
        assert s[1..][i..] == s[i + 1..];
      }
      ReplacesFirst(a[1..], b, found);
      assert [a[0]] + (a[1..] + b) == a + b;
    }
  }

  lemma {:induction false} ReplacesNothing(s: string, found: string)
    requires forall i :: 0 <= i <= |s| ==> !(found <= s[i..])
    ensures ReplaceFirst(s, found, "") == s
  {
    assert s[0..] == s;
    if s != "" {
      forall i | 0 <= i <= |s[1..]| ensures !(found <= s[1..][i..]) {
        assert s[1..][i..] == s[i + 1..];
      }
      ReplacesNothing(s[1..], found);
    }
  }

  /** A definition's title is its path without the first mention of the project's own package, if there is one, followed
      by version and group. */
  lemma TitleIs(path: string, a: string, b: string)
    ensures var own, tail := "github.com/galleybytes/infrakube/pkg/apis/infrakube/v1.", " v1 infrakube.galleybytes.com";
      && (path == a + own + b && (forall i :: 0 <= i < |a| ==> !(own <= path[i..])) ==> Title(path) == a + b + tail)
      && ((forall i :: 0 <= i <= |path| ==> !(own <= path[i..])) ==> Title(path) == path + tail)
  {
    var own := "github.com/galleybytes/infrakube/pkg/apis/infrakube/v1.";
    assert own == PACKAGE;
    if path == a + own + b && forall i :: 0 <= i < |a| ==> !(own <= path[i..]) {
      ReplacesFirst(a, b, own);
    }
    if forall i :: 0 <= i <= |path| ==> !(own <= path[i..]) {
      ReplacesNothing(path, own);
    }
  }

  /** The known definitions by path, each with the paths it depends on, in order. */
  type Definitions = map<string, seq<string>>

  /** `a` depends on the known definition `b`. */
  predicate DependsOn(known: Definitions, a: string, b: string) {
    a in known && b in known && b in known[a]
  }

  ghost predicate IsPath(known: Definitions, path: seq<string>, a: string, b: string) {
    && path != [] && path[0] == a && path[|path| - 1] == b
    && forall i :: 0 <= i < |path| - 1 ==> DependsOn(known, path[i], path[i + 1])
  }

  ghost predicate Reaches(known: Definitions, a: string, b: string) {
    exists path :: IsPath(known, path, a, b)
  }

  lemma ReachesItself(known: Definitions, a: string)
    ensures Reaches(known, a, a)
  {
    assert IsPath(known, [a], a, a);
  }

  lemma ReachesFurther(known: Definitions, a: string, b: string, c: string)
    requires Reaches(known, a, b) && DependsOn(known, b, c)
    ensures Reaches(known, a, c)
  {
    var path :| IsPath(known, path, a, b);
    assert IsPath(known, path + [c], a, c);
  }

  lemma ReachesFromBefore(known: Definitions, a: string, b: string, c: string)
    requires DependsOn(known, a, b) && Reaches(known, b, c)
    ensures Reaches(known, a, c)
  {
    var path :| IsPath(known, path, b, c);
    var longer := [a] + path;
    forall i | 0 <= i < |longer| - 1 ensures DependsOn(known, longer[i], longer[i + 1]) {
      if i > 0 {
        assert longer[i] == path[i - 1] && longer[i + 1] == path[i];
      }
    }
    assert IsPath(known, longer, a, c);
  }

  // ---------------------------------------------------------------------------------------------
  // The loops

  method ShouldAppendDependency(dep: string, deps: seq<string>) returns (should: bool)
    ensures should <==> dep !in deps
  {
    for i := 0 to |deps|
      invariant dep !in deps[..i]
    {
      if dep == deps[i] {
        return false;
      }
    }
    assert deps[..|deps|] == deps;
    return true;
  }

  /** Some known definition, perhaps itself, depends on it. */
  ghost predicate DependedOn(known: Definitions, name: string) {
    exists a :: a in known && name in known[a]
  }

  method IsDependedOn(name: string, known: Definitions) returns (depended: bool)
    ensures depended <==> DependedOn(known, name)
  {
    var todo := known.Keys;
    while todo != {}
      invariant todo <= known.Keys
      invariant forall a :: a in known && a !in todo ==> name !in known[a]
      decreases |todo|
    {
      var item :| item in todo;
      todo := todo - {item};
      var dependencies := known[item];
      for i := 0 to |dependencies|
        invariant name !in dependencies[..i]
      {
        if dependencies[i] == name {
          return true;
        }
      }
      assert dependencies[..|dependencies|] == dependencies;
    }
    return false;
  }

  function Titles(paths: seq<string>): (t: seq<string>)
    ensures |t| == |paths| && forall i :: 0 <= i < |paths| ==> t[i] == Title(paths[i])
  {
    if paths == [] then [] else Titles(paths[..|paths| - 1]) + [Title(paths[|paths| - 1])]
  }

  /** The list so far: reachable from the root, each title once. */
  ghost predicate IsPartial(known: Definitions, root: string, definitions: seq<string>, titles: seq<string>) {
    && titles == Titles(definitions)
    && |definitions| > 0 && definitions[0] == root
    && (forall i :: 0 <= i < |definitions| ==> definitions[i] in known && Reaches(known, root, definitions[i]))
    && forall i, j :: 0 <= i < j < |titles| ==> titles[i] != titles[j]
  }

  /** Every known dependency of `path` has its title on the list. */
  ghost predicate Covered(known: Definitions, titles: seq<string>, path: string) {
    forall b :: DependsOn(known, path, b) ==> Title(b) in titles
  }

  lemma PartialAppend(known: Definitions, root: string, definitions: seq<string>, titles: seq<string>, from: string,
      path: string)
    requires IsPartial(known, root, definitions, titles) && from in definitions && DependsOn(known, from, path)
    requires Title(path) !in titles
    ensures IsPartial(known, root, definitions + [path], titles + [Title(path)])
  {
    ReachesFurther(known, root, from, path);
    assert (definitions + [path])[..|definitions|] == definitions;
  }

  /** The known definitions not yet on the list. */
  ghost function Left(known: Definitions, definitions: seq<string>): set<string> {
    set p | p in known && p !in definitions
  }

  /** One pass over the dependencies of one definition. */
  method AppendDependencies(known: Definitions, ghost root: string, path: string, before: seq<string>,
      titlesBefore: seq<string>)
    returns (definitions: seq<string>, titles: seq<string>, added: bool)
    requires IsPartial(known, root, before, titlesBefore) && path in before
    ensures IsPartial(known, root, definitions, titles) && before <= definitions && titlesBefore <= titles
    ensures added <==> before < definitions
    ensures Covered(known, titles, path)
  {
    definitions, titles, added := before, titlesBefore, false;
    var dependencies := known[path];
    for i := 0 to |dependencies|
      invariant IsPartial(known, root, definitions, titles) && before <= definitions && titlesBefore <= titles
      invariant added <==> before < definitions
      invariant forall k :: 0 <= k < i && dependencies[k] in known ==> Title(dependencies[k]) in titles
    {
      var dependency := dependencies[i];
      var should := ShouldAppendDependency(Title(dependency), titles);
      if should {
        if dependency !in known {
          continue;
        }
        added := true;
        assert path in definitions;
        PartialAppend(known, root, definitions, titles, path, dependency);
        titles := titles + [Title(dependency)];
        definitions := definitions + [dependency];
      }
    }
  }

  lemma LeftShrinks(known: Definitions, before: seq<string>, after: seq<string>)
    requires before < after && (forall i :: 0 <= i < |after| ==> after[i] in known)
    requires forall i, j :: 0 <= i < j < |after| ==> after[i] != after[j]
    ensures Left(known, after) < Left(known, before)
  {
    var p := after[|before|];
    assert forall i :: 0 <= i < |before| ==> before[i] == after[i];
    assert p in Left(known, before);
    assert p !in Left(known, after);
    forall q | q in before ensures q in after {
      var i :| 0 <= i < |before| && before[i] == q;
      assert after[i] == q;
    }
  }

  lemma PartialIsDistinct(known: Definitions, root: string, definitions: seq<string>, titles: seq<string>)
    requires IsPartial(known, root, definitions, titles)
    ensures forall i, j :: 0 <= i < j < |definitions| ==> definitions[i] != definitions[j]
  {
  }

  lemma PartialIsApart(known: Definitions, root: string, definitions: seq<string>, a: string, b: string)
    requires IsPartial(known, root, definitions, Titles(definitions))
    requires a in definitions && b in definitions && Title(a) == Title(b)
    ensures a == b
  {
    var i :| 0 <= i < |definitions| && definitions[i] == a;
    var j :| 0 <= j < |definitions| && definitions[j] == b;
    assert Titles(definitions)[i] == Titles(definitions)[j];
  }

  lemma CoveredStays(known: Definitions, titles: seq<string>, more: seq<string>, path: string)
    requires Covered(known, titles, path) && titles <= more
    ensures Covered(known, more, path)
  {
  }

  ghost predicate AllCovered(known: Definitions, titles: seq<string>, paths: seq<string>) {
    forall i :: 0 <= i < |paths| ==> Covered(known, titles, paths[i])
  }

  lemma CoveredGrows(known: Definitions, titles: seq<string>, more: seq<string>, paths: seq<string>, k: nat)
    requires k < |paths| && titles <= more && AllCovered(known, titles, paths[..k]) && Covered(known, more, paths[k])
    ensures AllCovered(known, more, paths[..k + 1])
  {
    forall i | 0 <= i < k + 1 ensures Covered(known, more, paths[i]) {
      if i < k {
        assert paths[..k][i] == paths[i];
        CoveredStays(known, titles, more, paths[i]);
      }
    }
  }

  /** One round over the definitions listed when it begins. */
  method AppendRound(known: Definitions, ghost root: string, v: seq<string>, titlesBefore: seq<string>)
    returns (definitions: seq<string>, titles: seq<string>, added: bool)
    requires IsPartial(known, root, v, titlesBefore)
    ensures IsPartial(known, root, definitions, titles) && v <= definitions
    ensures added <==> v < definitions
    ensures AllCovered(known, titles, v)
  {
    definitions, titles, added := v, titlesBefore, false;
    for k := 0 to |v|
      invariant IsPartial(known, root, definitions, titles) && v <= definitions
      invariant added <==> v < definitions
      invariant AllCovered(known, titles, v[..k])
    {
      ghost var so := titles;
      var addedHere;
      assert v[k] == definitions[k];
      definitions, titles, addedHere := AppendDependencies(known, root, v[k], definitions, titles);
      added := added || addedHere;
      CoveredGrows(known, so, titles, v, k);
    }
    assert v[..|v|] == v;
  }

  /** A finished list: all known dependencies of what is on it have their titles on it. */
  ghost predicate IsClosed(known: Definitions, root: string, definitions: seq<string>) {
    IsPartial(known, root, definitions, Titles(definitions)) && AllCovered(known, Titles(definitions), definitions)
  }

  /** The list of one root: rounds over the list are made until one adds nothing. It terminates for all definitions. */
  method Close(known: Definitions, root: string) returns (definitions: seq<string>)
    requires root in known
    ensures IsClosed(known, root, definitions)
  {
    definitions := [root];
    var titles := [Title(root)];
    ReachesItself(known, root);
    assert Titles([root][..0]) == [];
    var addedNewDeps := true;
    while addedNewDeps
      invariant IsPartial(known, root, definitions, titles)
      invariant !addedNewDeps ==> AllCovered(known, titles, definitions)
      decreases Left(known, definitions), addedNewDeps
    {
      ghost var v := definitions;
      definitions, titles, addedNewDeps := AppendRound(known, root, definitions, titles);
      PartialIsDistinct(known, root, definitions, titles);
      if addedNewDeps {
        LeftShrinks(known, v, definitions);
      }
    }
  }

  // ---------------------------------------------------------------------------------------------
  // What the list holds

  /** No two definitions reachable from the root share a title. */
  ghost predicate TitlesTellApart(known: Definitions, root: string) {
    forall a, b ::
      a in known && b in known && Reaches(known, root, a) && Reaches(known, root, b) && Title(a) == Title(b) ==> a == b
  }

  lemma {:induction false} PathIsListed(known: Definitions, root: string, definitions: seq<string>,
      path: seq<string>, p: string)
    requires root in known && IsClosed(known, root, definitions) && TitlesTellApart(known, root)
             && IsPath(known, path, root, p)
    ensures p in definitions
    decreases path
  {
    if |path| == 1 {
      assert definitions[0] == p;
    } else {
      var before := path[..|path| - 1];
      var q := before[|before| - 1];
      assert IsPath(known, before, root, q);
      PathIsListed(known, root, definitions, before, q);
      assert DependsOn(known, path[|path| - 2], path[|path| - 1]);
      var k :| 0 <= k < |definitions| && definitions[k] == q;
      assert Covered(known, Titles(definitions), definitions[k]);
      var i :| 0 <= i < |definitions| && Titles(definitions)[i] == Title(p);
      assert Reaches(known, root, p);
    }
  }

  /** Every known definition that the root reaches is on its list. */
  ghost predicate ListsAll(known: Definitions, root: string, definitions: seq<string>) {
    forall p :: p in known && Reaches(known, root, p) ==> p in definitions
  }

  lemma ApartListsAll(known: Definitions, root: string, definitions: seq<string>)
    requires root in known && IsClosed(known, root, definitions) && TitlesTellApart(known, root)
    ensures ListsAll(known, root, definitions)
  {
    forall p | p in known && Reaches(known, root, p) ensures p in definitions {
      var path :| IsPath(known, path, root, p);
      PathIsListed(known, root, definitions, path, p);
    }
  }

  lemma ListsAllIsApart(known: Definitions, root: string, definitions: seq<string>)
    requires root in known && IsClosed(known, root, definitions) && ListsAll(known, root, definitions)
    ensures TitlesTellApart(known, root)
  {
    forall a, b | a in known && b in known && Reaches(known, root, a) && Reaches(known, root, b)
      && Title(a) == Title(b)
      ensures a == b
    {
      PartialIsApart(known, root, definitions, a, b);
    }
  }

  /** A root's list is exactly the known definitions reachable from it, each once, if and only if no two of these share
      a title. */
  lemma ListedExactlyIff(known: Definitions, root: string, definitions: seq<string>)
    requires root in known && IsClosed(known, root, definitions)
    ensures forall i, j :: 0 <= i < j < |definitions| ==> definitions[i] != definitions[j]
    ensures (forall p :: p in definitions <==> p in known && Reaches(known, root, p)) <==> TitlesTellApart(known, root)
  {
    PartialIsDistinct(known, root, definitions, Titles(definitions));
    if TitlesTellApart(known, root) {
      ApartListsAll(known, root, definitions);
    } else if ListsAll(known, root, definitions) {
      ListsAllIsApart(known, root, definitions);
    }
  }

  // ---------------------------------------------------------------------------------------------
  // All roots

  /** A definition that nothing depends on. */
  ghost predicate IsRoot(known: Definitions, path: string) { path in known && !DependedOn(known, path) }

  /** Every root has its title in the map, and every title is that of a root. */
  ghost predicate AreRoots(known: Definitions, roots: map<string, string>) {
    && (forall title :: title in roots ==> IsRoot(known, roots[title]) && Title(roots[title]) == title)
    && forall root :: IsRoot(known, root) ==> Title(root) in roots
  }

  /** Collects the roots by title. Of two roots with one title the one met last is kept. */
  method FindRoots(known: Definitions) returns (roots: map<string, string>)
    ensures AreRoots(known, roots)
  {
    roots := map[];
    var todo := known.Keys;
    while todo != {}
      invariant todo <= known.Keys
      invariant forall title :: title in roots ==> IsRoot(known, roots[title]) && Title(roots[title]) == title
      invariant forall root :: IsRoot(known, root) && root !in todo ==> Title(root) in roots
      decreases |todo|
    {
      var root :| root in todo;
      todo := todo - {root};
      var depended := IsDependedOn(root, known);
      if !depended {
        roots := roots[Title(root) := root];
      }
    }
  }

  /** A finished list for every root in the map. */
  ghost predicate AreLists(known: Definitions, roots: map<string, string>, lists: map<string, seq<string>>) {
    lists.Keys == roots.Keys && forall title :: title in roots ==> IsClosed(known, roots[title], lists[title])
  }

  /** The lists are those of roots in the map, and finished. */
  ghost predicate AreClosed(known: Definitions, roots: map<string, string>, lists: map<string, seq<string>>) {
    forall title :: title in lists ==> title in roots && IsClosed(known, roots[title], lists[title])
  }

  lemma ClosedToo(known: Definitions, roots: map<string, string>, lists: map<string, seq<string>>, title: string,
      definitions: seq<string>)
    requires AreClosed(known, roots, lists) && title in roots && IsClosed(known, roots[title], definitions)
    ensures AreClosed(known, roots, lists[title := definitions])
  {
  }

  /** A list under the title of every definition that nothing depends on. */
  method Generate(known: Definitions) returns (lists: map<string, seq<string>>, ghost roots: map<string, string>)
    ensures AreRoots(known, roots) && AreLists(known, roots, lists)
  {
    var found := FindRoots(known);
    roots := found;
    lists := map[];
    var todo := found.Keys;
    while todo != {}
      invariant todo <= found.Keys && lists.Keys == found.Keys - todo
      invariant AreClosed(known, found, lists)
      decreases |todo|
    {
      var title :| title in todo;
      todo := todo - {title};
      var definitions := Close(known, found[title]);
      ClosedToo(known, found, lists, title, definitions);
      lists := lists[title := definitions];
    }
  }

  // ---------------------------------------------------------------------------------------------
  // What the lists hold together

  ghost predicate IsListed(lists: map<string, seq<string>>, path: string) {
    exists title :: title in lists && path in lists[title]
  }

  ghost predicate DistinctTitles(known: Definitions) {
    forall a, b :: a in known && b in known && Title(a) == Title(b) ==> a == b
  }

  /** A definition is on some list exactly if some definition that nothing depends on reaches it. */
  lemma ListedIff(known: Definitions, roots: map<string, string>, lists: map<string, seq<string>>, p: string)
    requires DistinctTitles(known) && AreRoots(known, roots) && AreLists(known, roots, lists)
    ensures IsListed(lists, p) <==> exists root :: IsRoot(known, root) && Reaches(known, root, p)
  {
    forall title | title in lists
      ensures p in lists[title] <==> p in known && Reaches(known, roots[title], p)
    {
      assert IsClosed(known, roots[title], lists[title]);
      assert TitlesTellApart(known, roots[title]);
      ListedExactlyIff(known, roots[title], lists[title]);
    }
    if root :| IsRoot(known, root) && Reaches(known, root, p) {
      assert IsRoot(known, roots[Title(root)]);
      ReachesKnown(known, root, p);
      assert p in lists[Title(root)];
    }
  }

  lemma ReachesKnown(known: Definitions, a: string, b: string)
    requires a in known && Reaches(known, a, b)
    ensures b in known
  {
    var path :| IsPath(known, path, a, b);
    if |path| > 1 {
      assert DependsOn(known, path[|path| - 2], path[|path| - 1]);
    }
  }

  /** Whatever the titles, a list is found under the title of every root and holds nothing but what a root reaches. */
  lemma ListedIsReached(known: Definitions, roots: map<string, string>, lists: map<string, seq<string>>, p: string)
    requires AreRoots(known, roots) && AreLists(known, roots, lists) && IsListed(lists, p)
    ensures exists root :: IsRoot(known, root) && Reaches(known, root, p)
  {
    var title :| title in lists && p in lists[title];
    assert IsClosed(known, roots[title], lists[title]);
    var i :| 0 <= i < |lists[title]| && lists[title][i] == p;
    assert IsRoot(known, roots[title]) && Reaches(known, roots[title], p);
  }

  ghost predicate Acyclic(known: Definitions) {
    forall a, b :: DependsOn(known, a, b) ==> !Reaches(known, b, a)
  }

  /** Going back from `p`, all that was passed is reachable from it. */
  lemma {:induction false} ClimbsToRoot(known: Definitions, p: string, target: string,
      passed: set<string>) returns (root: string)
    requires Acyclic(known) && p in known && Reaches(known, p, target)
    requires passed <= known.Keys && p !in passed && forall q :: q in passed ==> Reaches(known, p, q)
    ensures IsRoot(known, root) && Reaches(known, root, target)
    decreases known.Keys - passed
  {
    if DependedOn(known, p) {
      var a :| a in known && p in known[a];
      assert DependsOn(known, a, p);
      ReachesItself(known, p);
      forall q | q in passed + {p} ensures Reaches(known, a, q) {
        ReachesFromBefore(known, a, p, q);
      }
      ReachesFromBefore(known, a, p, target);
      assert !Reaches(known, p, a);
      root := ClimbsToRoot(known, a, target, passed + {p});
    } else {
      root := p;
    }
  }

  /** Without cycles every definition is on some list. */
  lemma AcyclicIsCovered(known: Definitions, roots: map<string, string>, lists: map<string, seq<string>>, p: string)
    requires DistinctTitles(known) && AreRoots(known, roots) && AreLists(known, roots, lists)
    requires Acyclic(known) && p in known
    ensures IsListed(lists, p)
  {
    ReachesItself(known, p);
    var root := ClimbsToRoot(known, p, p, {});
    ListedIff(known, roots, lists, p);
  }

  /** A definition on which only itself depends is on no list. */
  lemma SelfDependentIsLost(known: Definitions, roots: map<string, string>, lists: map<string, seq<string>>, p: string)
    requires AreRoots(known, roots) && AreLists(known, roots, lists)
    requires p in known && p in known[p] && forall a :: a in known && p in known[a] ==> a == p
    ensures !IsListed(lists, p)
  {
    if IsListed(lists, p) {
      ListedIsReached(known, roots, lists, p);
      var root :| IsRoot(known, root) && Reaches(known, root, p);
      var path :| IsPath(known, path, root, p);
      OnlyFromItself(known, path, root, p);
    }
  }

  /** A cycle alone loses nothing: a definition that depends on itself is listed when another depends on it that
      nothing depends on. */
  lemma CycleBelowRootIsListed(known: Definitions, roots: map<string, string>, lists: map<string, seq<string>>,
      a: string, b: string)
    requires DistinctTitles(known) && AreRoots(known, roots) && AreLists(known, roots, lists)
    requires IsRoot(known, a) && DependsOn(known, a, b) && DependsOn(known, b, b)
    ensures !Acyclic(known) && IsListed(lists, a) && IsListed(lists, b)
  {
    ReachesItself(known, a);
    ReachesItself(known, b);
    ReachesFurther(known, a, a, b);
    ListedIff(known, roots, lists, a);
    ListedIff(known, roots, lists, b);
  }

  lemma {:induction false} OnlyFromItself(known: Definitions, path: seq<string>, a: string, p: string)
    requires IsPath(known, path, a, p) && forall b :: b in known && p in known[b] ==> b == p
    ensures a == p
    decreases path
  {
    if |path| > 1 {
      assert DependsOn(known, path[|path| - 2], path[|path| - 1]);
      assert IsPath(known, path[..|path| - 1], a, p);
      OnlyFromItself(known, path[..|path| - 1], a, p);
    }
  }
}
