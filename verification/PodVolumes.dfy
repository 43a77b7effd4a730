/** The volumes of a task's pod: those of the user, those of the system, and those its sidecars bring along. */
module PodVolumes {
  import opened Wrappers
  import opened Tasks
  import Lists

  datatype Source = Claim(claim: string) | ConfigMap(configMap: string) | Secret(secret: string) | Other(text: string)

  datatype Volume = Volume(name: string, source: Source)

  datatype Mount = Mount(name: string, path: string)

  datatype Container = Container(name: string, mounts: seq<Mount>)

  datatype PodSpec = PodSpec(containers: seq<Container>, volumes: seq<Volume>)

  datatype TaskOptions = TaskOptions(
    task: TaskName, prefixedName: string, versionedName: string, configMapSourceName: string,
    configMapSourceKey: string,
    volumes: seq<Volume>, mounts: seq<Mount>, sidecars: seq<PodSpec>)

  const RESERVED: set<string> := {"infrakubehome", "config-map-source", "main-module-addons", "gitaskpass", "ssh"}

  function Names(volumes: seq<Volume>): set<string> {
    set v | v in volumes :: v.name
  }

  predicate Distinct(volumes: seq<Volume>) {
    forall i, j :: 0 <= i < j < |volumes| ==> volumes[i].name != volumes[j].name
  }

  // ---------------------------------------------------------------------------------------------
  // Validation

  /** No reserved name, a mount for every volume and a volume for every mount. */
  ghost predicate Fits(opts: TaskOptions) {
    && (forall v :: v in opts.volumes ==> v.name !in RESERVED && exists m :: m in opts.mounts && m.name == v.name)
    && forall m :: m in opts.mounts ==> m.name in Names(opts.volumes)
  }

  method ValidateVolume(opts: TaskOptions) returns (ok: bool)
    ensures ok <==> Fits(opts)
  {
    var mounts: set<string>, volumes: set<string> := {}, {};
    for i := 0 to |opts.mounts|
      invariant forall n :: n in mounts <==> exists k :: 0 <= k < i && opts.mounts[k].name == n
    {
      mounts := mounts + {opts.mounts[i].name};
    }
    for i := 0 to |opts.volumes|
      invariant forall n :: n in volumes <==> exists k :: 0 <= k < i && opts.volumes[k].name == n
      invariant forall k :: 0 <= k < i ==> opts.volumes[k].name !in RESERVED && opts.volumes[k].name in mounts
    {
      if opts.volumes[i].name in RESERVED {
        assert opts.volumes[i] in opts.volumes;
        return false;
      }
      if opts.volumes[i].name !in mounts {
        assert opts.volumes[i] in opts.volumes;
        return false;
      }
      volumes := volumes + {opts.volumes[i].name};
    }
    forall v | v in opts.volumes ensures v.name !in RESERVED && exists m :: m in opts.mounts && m.name == v.name {
      var k :| 0 <= k < |opts.volumes| && opts.volumes[k] == v;
      var l :| 0 <= l < |opts.mounts| && opts.mounts[l].name == v.name;
      assert opts.mounts[l] in opts.mounts;
    }
    for i := 0 to |opts.mounts|
      invariant forall k :: 0 <= k < i ==> opts.mounts[k].name in volumes
    {
      if opts.mounts[i].name !in volumes {
        assert opts.mounts[i] in opts.mounts;
        return false;
      }
    }
    return true;
  }

  // ---------------------------------------------------------------------------------------------
  // Building the pod

  predicate HasConfigMapSource(opts: TaskOptions) { opts.configMapSourceName != "" && opts.configMapSourceKey != "" }

  function HomeVolume(opts: TaskOptions): seq<Volume> {
    [Volume("infrakubehome", Claim(opts.prefixedName))]
  }

  function ScriptVolume(opts: TaskOptions): seq<Volume> {
    if HasConfigMapSource(opts) then [Volume("config-map-source", ConfigMap(opts.configMapSourceName))] else []
  }

  function SystemVolumes(opts: TaskOptions): seq<Volume> {
    [Volume("main-module-addons", ConfigMap(opts.versionedName)),
     Volume("gitaskpass", Secret(opts.versionedName)),
     Volume("ssh", Secret(opts.versionedName))]
  }

  function OwnVolumes(opts: TaskOptions): seq<Volume> {
    HomeVolume(opts) + opts.volumes + ScriptVolume(opts) + SystemVolumes(opts)
  }

  function ScriptMount(opts: TaskOptions): seq<Mount> {
    if HasConfigMapSource(opts) then [Mount("config-map-source", "/tmp/config-map-source")] else []
  }

  const HOME_MOUNT := [Mount("infrakubehome", "/home/infrakube-runner")]

  const SYSTEM_MOUNTS := [
    Mount("main-module-addons", "/tmp/main-module-addons"), Mount("gitaskpass", "/git/askpass"),
      Mount("ssh", "/tmp/ssh")
  ]

  function OwnMounts(opts: TaskOptions): seq<Mount> {
    HOME_MOUNT + opts.mounts + ScriptMount(opts) + SYSTEM_MOUNTS
  }

  function ContainerName(task: TaskName): string { if task.Id() == -2 then task.Text() else "task" }

  /** The volumes whose names are not on the list, which is not extended on the way. */
  function NewVolumes(list: set<string>, volumes: seq<Volume>): seq<Volume> {
    if volumes == [] then []
    else if volumes[0].name in list then NewVolumes(list, volumes[1..])
    else [volumes[0]] + NewVolumes(list, volumes[1..])
  }

  function Merged(spec: PodSpec, sidecars: seq<PodSpec>): PodSpec
    decreases sidecars
  {
    if sidecars == [] then spec
    else
      Merged(PodSpec(spec.containers + sidecars[0].containers, spec.volumes
        + NewVolumes(Names(spec.volumes), sidecars[0].volumes)),
             sidecars[1..])
  }

  function OwnSpec(opts: TaskOptions): PodSpec {
    PodSpec([Container(ContainerName(opts.task), OwnMounts(opts))], OwnVolumes(opts))
  }

  ghost function Generated(opts: TaskOptions): Option<PodSpec> {
    if Fits(opts) then Some(Merged(OwnSpec(opts), opts.sidecars)) else None
  }

  method GeneratePod(opts: TaskOptions) returns (pod: Option<PodSpec>)
    ensures pod == Generated(opts)
  {
    var volumes := [Volume("infrakubehome", Claim(opts.prefixedName))];
    var ok := ValidateVolume(opts);
    if !ok {
      return None;
    }
    volumes := volumes + opts.volumes;
    var mounts := [Mount("infrakubehome", "/home/infrakube-runner")];
    mounts := mounts + opts.mounts;
    if HasConfigMapSource(opts) {
      volumes := volumes + [Volume("config-map-source", ConfigMap(opts.configMapSourceName))];
      mounts := mounts + [Mount("config-map-source", "/tmp/config-map-source")];
    }
    volumes := volumes + [Volume("main-module-addons", ConfigMap(opts.versionedName))];
    mounts := mounts + [Mount("main-module-addons", "/tmp/main-module-addons")];
    volumes := volumes + [Volume("gitaskpass", Secret(opts.versionedName))];
    mounts := mounts + [Mount("gitaskpass", "/git/askpass")];
    volumes := volumes + [Volume("ssh", Secret(opts.versionedName))];
    mounts := mounts + [Mount("ssh", "/tmp/ssh")];
    assert volumes == OwnVolumes(opts) && mounts == OwnMounts(opts);

    var containers := [Container(ContainerName(opts.task), mounts)];
    for i := 0 to |opts.sidecars|
      invariant Merged(PodSpec(containers, volumes), opts.sidecars[i..]) == Merged(OwnSpec(opts), opts.sidecars)
    {
      assert opts.sidecars[i..][1..] == opts.sidecars[i + 1..];
      containers, volumes := MergeSidecar(containers, volumes, opts.sidecars[i]);
    }
    assert opts.sidecars[|opts.sidecars|..] == [];
    return Some(PodSpec(containers, volumes));
  }

  method MergeSidecar(containers: seq<Container>, volumes: seq<Volume>, sidecar: PodSpec)
    returns (moreContainers: seq<Container>, moreVolumes: seq<Volume>)
    ensures moreContainers == containers + sidecar.containers
    ensures moreVolumes == volumes + NewVolumes(Names(volumes), sidecar.volumes)
  {
    moreContainers := containers + sidecar.containers;
    var volumeList: seq<string> := [];
    for j := 0 to |volumes|
      invariant |volumeList| == j && forall k :: 0 <= k < j ==> volumeList[k] == volumes[k].name
    {
      volumeList := volumeList + [volumes[j].name];
    }
    ListedNames(volumes, volumeList);
    moreVolumes := volumes;
    for j := 0 to |sidecar.volumes|
      invariant moreVolumes + NewVolumes(Names(volumes), sidecar.volumes[j..])
                == volumes + NewVolumes(Names(volumes), sidecar.volumes)
    {
      var volume := sidecar.volumes[j];
      assert sidecar.volumes[j..][1..] == sidecar.volumes[j + 1..];
      var listed := Lists.ListContainsStr(volumeList, volume.name);
      if !listed {
        moreVolumes := moreVolumes + [volume];
      }
    }
    assert sidecar.volumes[|sidecar.volumes|..] == [];
  }

  lemma ListedNames(volumes: seq<Volume>, list: seq<string>)
    requires |list| == |volumes| && forall k :: 0 <= k < |list| ==> list[k] == volumes[k].name
    ensures forall n :: n in list <==> n in Names(volumes)
  {
  }

  // ---------------------------------------------------------------------------------------------
  // Every mount names a volume

  ghost predicate MountsHold(mounts: seq<Mount>, names: set<string>) {
    forall m :: m in mounts ==> m.name in names
  }

  /** Every mount of every container names a volume of the pod. */
  ghost predicate IsClosed(spec: PodSpec) {
    forall i :: 0 <= i < |spec.containers| ==> MountsHold(spec.containers[i].mounts, Names(spec.volumes))
  }

  lemma {:induction false} NewVolumesMeaning(list: set<string>, volumes: seq<Volume>)
    ensures Names(NewVolumes(list, volumes)) == Names(volumes) - list
    ensures Distinct(volumes) ==> Distinct(NewVolumes(list, volumes))
    ensures forall v :: v in NewVolumes(list, volumes) ==> v in volumes
  {
    if volumes != [] {
      assert volumes == [volumes[0]] + volumes[1..];
      NewVolumesMeaning(list, volumes[1..]);
      NamesAppend([volumes[0]], volumes[1..]);
      NamesAppend([volumes[0]], NewVolumes(list, volumes[1..]));
      assert Names([volumes[0]]) == {volumes[0].name};
      if Distinct(volumes) && volumes[0].name !in list {
        NotAmong(volumes);
        ConsDistinct(volumes[0], NewVolumes(list, volumes[1..]));
      }
    }
  }

  lemma NamesAppend(a: seq<Volume>, b: seq<Volume>)
    ensures Names(a + b) == Names(a) + Names(b)
  {
  }

  lemma NotAmong(volumes: seq<Volume>)
    requires volumes != [] && Distinct(volumes)
    ensures Distinct(volumes[1..]) && volumes[0].name !in Names(volumes[1..])
  {
  }

  lemma ConsDistinct(v: Volume, rest: seq<Volume>)
    requires Distinct(rest) && v.name !in Names(rest)
    ensures Distinct([v] + rest)
  {
  }

  lemma AppendDistinct(a: seq<Volume>, b: seq<Volume>)
    ensures Distinct(a + b) <==> Distinct(a) && Distinct(b) && Names(a) !! Names(b)
  {
    var all := a + b;
    if Distinct(a) && Distinct(b) && Names(a) !! Names(b) {
      forall i, j | 0 <= i < j < |all| ensures all[i].name != all[j].name {
        if i < |a| <= j {
          assert a[i] in a && b[j - |a|] in b;
          assert a[i].name in Names(a) && b[j - |a|].name in Names(b);
        }
      }
    }
    if Distinct(all) {
      assert forall i :: 0 <= i < |a| ==> all[i] == a[i];
      assert forall i :: 0 <= i < |b| ==> all[|a| + i] == b[i];
      forall i, j | 0 <= i < |a| && 0 <= j < |b| ensures a[i].name != b[j].name {
        assert all[i].name != all[|a| + j].name;
      }
    }
  }

  lemma MergeKeeps(spec: PodSpec, sidecar: PodSpec)
    requires IsClosed(spec) && IsClosed(sidecar)
    ensures IsClosed(PodSpec(spec.containers + sidecar.containers, spec.volumes
              + NewVolumes(Names(spec.volumes), sidecar.volumes)))
  {
    var more := NewVolumes(Names(spec.volumes), sidecar.volumes);
    NewVolumesMeaning(Names(spec.volumes), sidecar.volumes);
    NamesAppend(spec.volumes, more);
    var names := Names(spec.volumes + more);
    assert Names(spec.volumes) <= names && Names(sidecar.volumes) <= names;
    var containers := spec.containers + sidecar.containers;
    forall i | 0 <= i < |containers| ensures MountsHold(containers[i].mounts, names) {
      if i < |spec.containers| {
        assert MountsHold(spec.containers[i].mounts, Names(spec.volumes));
      } else {
        assert MountsHold(sidecar.containers[i - |spec.containers|].mounts, Names(sidecar.volumes));
      }
    }
  }

  lemma {:induction false} MergedIsClosed(spec: PodSpec, sidecars: seq<PodSpec>)
    requires IsClosed(spec) && forall i :: 0 <= i < |sidecars| ==> IsClosed(sidecars[i])
    ensures IsClosed(Merged(spec, sidecars))
    decreases sidecars
  {
    if sidecars != [] {
      MergeKeeps(spec, sidecars[0]);
      MergedIsClosed(PodSpec(spec.containers + sidecars[0].containers, spec.volumes
        + NewVolumes(Names(spec.volumes), sidecars[0].volumes)), sidecars[1..]);
    }
  }

  lemma OwnIsClosed(opts: TaskOptions)
    requires Fits(opts)
    ensures IsClosed(OwnSpec(opts))
  {
  }

  /** Whenever a pod is built, with any sidecars whose mounts name their own volumes, every mount of every container
      names a volume of the pod. Pods so built may in turn be sidecars. */
  lemma GeneratedIsClosed(opts: TaskOptions)
    requires Generated(opts).Some? && forall i :: 0 <= i < |opts.sidecars| ==> IsClosed(opts.sidecars[i])
    ensures IsClosed(Generated(opts).value)
  {
    OwnIsClosed(opts);
    MergedIsClosed(OwnSpec(opts), opts.sidecars);
  }

  // ---------------------------------------------------------------------------------------------
  // No name twice

  lemma {:induction false} MergedIsDistinct(spec: PodSpec, sidecars: seq<PodSpec>)
    requires Distinct(spec.volumes) && forall i :: 0 <= i < |sidecars| ==> Distinct(sidecars[i].volumes)
    ensures Distinct(Merged(spec, sidecars).volumes)
    decreases sidecars
  {
    if sidecars != [] {
      var more := NewVolumes(Names(spec.volumes), sidecars[0].volumes);
      NewVolumesMeaning(Names(spec.volumes), sidecars[0].volumes);
      AppendDistinct(spec.volumes, more);
      MergedIsDistinct(PodSpec(spec.containers + sidecars[0].containers, spec.volumes + more), sidecars[1..]);
    }
  }

  /** The system's own volumes take no name twice and none of a user's, so the names are distinct exactly if the
      user's are. */
  lemma OwnDistinctIff(opts: TaskOptions)
    requires Fits(opts)
    ensures Distinct(OwnVolumes(opts)) <==> Distinct(opts.volumes)
  {
    var first, third, last := HomeVolume(opts), ScriptVolume(opts), SystemVolumes(opts);
    SystemNames(opts);
    assert Names(opts.volumes) !! RESERVED;
    AppendDistinct(first, opts.volumes);
    NamesAppend(first, opts.volumes);
    AppendDistinct(first + opts.volumes, third);
    NamesAppend(first + opts.volumes, third);
    AppendDistinct(first + opts.volumes + third, last);
  }

  lemma SystemNames(opts: TaskOptions)
    ensures Names(HomeVolume(opts)) <= RESERVED && Names(ScriptVolume(opts)) <= RESERVED
            && Names(SystemVolumes(opts)) <= RESERVED
    ensures Names(HomeVolume(opts)) !! Names(ScriptVolume(opts))
            && Names(SystemVolumes(opts)) !! Names(HomeVolume(opts)) + Names(ScriptVolume(opts))
    ensures Distinct(HomeVolume(opts)) && Distinct(ScriptVolume(opts)) && Distinct(SystemVolumes(opts))
  {
  }

  /** If the user's volumes have distinct names and each sidecar is a pod with distinct volume names, the volumes of
      the pod have distinct names. Pods so built may in turn be sidecars. */
  lemma GeneratedIsDistinct(opts: TaskOptions)
    requires Generated(opts).Some? && Distinct(opts.volumes)
    requires forall i :: 0 <= i < |opts.sidecars| ==> Distinct(opts.sidecars[i].volumes)
    ensures Distinct(Generated(opts).value.volumes)
  {
    OwnDistinctIff(opts);
    MergedIsDistinct(OwnSpec(opts), opts.sidecars);
  }

  /** A sidecar as the controller makes it: a pod built from options without sidecars, with distinct user names. */
  ghost predicate IsBuilt(sidecar: PodSpec) {
    exists o: TaskOptions :: o.sidecars == [] && Distinct(o.volumes) && Generated(o) == Some(sidecar)
  }

  /** Merging any number of such sidecars leaves every mount with its volume and every name with one volume. */
  lemma BuiltSidecarsMerge(opts: TaskOptions)
    requires Generated(opts).Some? && Distinct(opts.volumes)
    requires forall i :: 0 <= i < |opts.sidecars| ==> IsBuilt(opts.sidecars[i])
    ensures IsClosed(Generated(opts).value) && Distinct(Generated(opts).value.volumes)
  {
    forall i | 0 <= i < |opts.sidecars| ensures IsClosed(opts.sidecars[i]) && Distinct(opts.sidecars[i].volumes) {
      assert IsBuilt(opts.sidecars[i]);
      var o: TaskOptions :| o.sidecars == [] && Distinct(o.volumes) && Generated(o) == Some(opts.sidecars[i]);
      GeneratedIsClosed(o);
      GeneratedIsDistinct(o);
    }
    GeneratedIsClosed(opts);
    GeneratedIsDistinct(opts);
  }

  // ---------------------------------------------------------------------------------------------
  // Which volume a name stands for

  function Resolve(volumes: seq<Volume>, name: string): Option<Source> {
    if volumes == [] then None
    else if volumes[0].name == name then Some(volumes[0].source)
    else Resolve(volumes[1..], name)
  }

  lemma {:induction false} ResolveAppend(a: seq<Volume>, b: seq<Volume>, name: string)
    ensures Resolve(a + b, name) == if name in Names(a) then Resolve(a, name) else Resolve(b, name)
  {
    if a == [] {
      assert a + b == b;
    } else {
      assert (a + b)[1..] == a[1..] + b;
      assert a == [a[0]] + a[1..];
      NamesAppend([a[0]], a[1..]);
      assert Names([a[0]]) == {a[0].name};
      ResolveAppend(a[1..], b, name);
    }
  }

  lemma {:induction false} ResolveNew(list: set<string>, volumes: seq<Volume>, name: string)
    ensures name !in list ==> Resolve(NewVolumes(list, volumes), name) == Resolve(volumes, name)
  {
    if volumes != [] {
      assert NewVolumes(list, volumes) != [] && volumes[0].name !in list ==>
        NewVolumes(list, volumes)[1..] == NewVolumes(list, volumes[1..]);
      ResolveNew(list, volumes[1..], name);
    }
  }

  /** A name that a sidecar mounts stands for what it stands for in the sidecar's own pod exactly if no earlier volume
      has the name, or the first one that has it is of the same source. */
  lemma SidecarSourceIff(spec: PodSpec, sidecar: PodSpec, name: string)
    ensures Resolve(Merged(spec, [sidecar]).volumes, name) == Resolve(sidecar.volumes, name) <==>
      name !in Names(spec.volumes) || Resolve(spec.volumes, name) == Resolve(sidecar.volumes, name)
  {
    assert [sidecar][1..] == [];
    var more := NewVolumes(Names(spec.volumes), sidecar.volumes);
    ResolveAppend(spec.volumes, more, name);
    ResolveNew(Names(spec.volumes), sidecar.volumes, name);
  }

  // ---------------------------------------------------------------------------------------------
  // What a container finds where

  /** Sidecars come after what is there: the containers so far stay in front, and the names so far keep their volumes.
      */
  lemma {:induction false} MergedKeeps(spec: PodSpec, sidecars: seq<PodSpec>)
    ensures spec.containers <= Merged(spec, sidecars).containers
    ensures forall n :: n in Names(spec.volumes) ==>
      n in Names(Merged(spec, sidecars).volumes)
      && Resolve(Merged(spec, sidecars).volumes, n) == Resolve(spec.volumes, n)
    decreases sidecars
  {
    if sidecars != [] {
      var more := NewVolumes(Names(spec.volumes), sidecars[0].volumes);
      var next := PodSpec(spec.containers + sidecars[0].containers, spec.volumes + more);
      MergedKeeps(next, sidecars[1..]);
      NamesAppend(spec.volumes, more);
      forall n | n in Names(spec.volumes) ensures Resolve(next.volumes, n) == Resolve(spec.volumes, n) {
        ResolveAppend(spec.volumes, more, n);
      }
    }
  }

  /** How many containers the first `i` sidecars bring. */
  function Brought(sidecars: seq<PodSpec>, i: nat): nat
    requires i <= |sidecars|
  {
    if i == 0 then 0 else Brought(sidecars, i - 1) + |sidecars[i - 1].containers|
  }

  lemma {:induction false} BroughtAfterFirst(sidecars: seq<PodSpec>, i: nat)
    requires 0 < i <= |sidecars|
    ensures Brought(sidecars, i) == |sidecars[0].containers| + Brought(sidecars[1..], i - 1)
  {
    if i > 1 {
      BroughtAfterFirst(sidecars, i - 1);
      assert sidecars[1..][i - 2] == sidecars[i - 1];
    }
  }

  lemma {:induction false} MergedBrings(spec: PodSpec, sidecars: seq<PodSpec>, i: nat)
    requires i < |sidecars|
    ensures var start, all := |spec.containers| + Brought(sidecars, i), Merged(spec, sidecars).containers;
      start + |sidecars[i].containers| <= |all|
      && all[start..start + |sidecars[i].containers|] == sidecars[i].containers
    decreases sidecars
  {
    var more := NewVolumes(Names(spec.volumes), sidecars[0].volumes);
    var next := PodSpec(spec.containers + sidecars[0].containers, spec.volumes + more);
    if i == 0 {
      MergedKeeps(next, sidecars[1..]);
      var all := Merged(spec, sidecars).containers;
      assert all[..|next.containers|] == next.containers;
      assert all[|spec.containers|..|next.containers|] == sidecars[0].containers;
    } else {
      BroughtAfterFirst(sidecars, i);
      MergedBrings(next, sidecars[1..], i - 1);
    }
  }

  lemma {:induction false} MergedCount(spec: PodSpec, sidecars: seq<PodSpec>)
    ensures |Merged(spec, sidecars).containers| == |spec.containers| + Brought(sidecars, |sidecars|)
    decreases sidecars
  {
    if sidecars != [] {
      var more := NewVolumes(Names(spec.volumes), sidecars[0].volumes);
      MergedCount(PodSpec(spec.containers + sidecars[0].containers, spec.volumes + more), sidecars[1..]);
      BroughtAfterFirst(sidecars, |sidecars|);
    }
  }

  /** The container mounts the name at this path and nowhere else, and the name stands for the source. */
  ghost predicate FindsAt(c: Container, pod: PodSpec, name: string, path: string, source: Source) {
    && (forall m :: m in c.mounts && m.name == name <==> m == Mount(name, path))
    && Resolve(pod.volumes, name) == Some(source)
  }

  lemma OwnMountIff(opts: TaskOptions, m: Mount)
    requires Fits(opts)
    ensures m in OwnMounts(opts) <==>
      || m in opts.mounts
      || m in {Mount("infrakubehome", "/home/infrakube-runner"), Mount("main-module-addons", "/tmp/main-module-addons"),
               Mount("gitaskpass", "/git/askpass"), Mount("ssh", "/tmp/ssh")}
      || (m == Mount("config-map-source", "/tmp/config-map-source")
          && opts.configMapSourceName != "" && opts.configMapSourceKey != "")
  {
  }

  lemma UserMountsAreFree(opts: TaskOptions, m: Mount)
    requires Fits(opts) && m in opts.mounts
    ensures m.name !in RESERVED
  {
  }

  lemma {:induction false} ResolvesItself(volumes: seq<Volume>, v: Volume)
    requires Distinct(volumes) && v in volumes
    ensures Resolve(volumes, v.name) == Some(v.source) && v.name in Names(volumes)
  {
    if volumes[0] != v {
      assert volumes == [volumes[0]] + volumes[1..];
      NotAmong(volumes);
      ResolvesItself(volumes[1..], v);
    }
  }

  lemma HomeIs(opts: TaskOptions, name: string)
    ensures Resolve(HomeVolume(opts), name) == if name == "infrakubehome" then Some(Claim(opts.prefixedName)) else None
    ensures Names(HomeVolume(opts)) == {"infrakubehome"}
  {
  }

  lemma ScriptIs(opts: TaskOptions, name: string)
    ensures var given := opts.configMapSourceName != "" && opts.configMapSourceKey != "";
      && Names(ScriptVolume(opts)) == (if given then {"config-map-source"} else {})
      && Resolve(ScriptVolume(opts), name)
         == if given && name == "config-map-source" then Some(ConfigMap(opts.configMapSourceName)) else None
  {
  }

  lemma SystemIs(opts: TaskOptions, name: string)
    ensures Resolve(SystemVolumes(opts), name) ==
      if name == "main-module-addons" then Some(ConfigMap(opts.versionedName))
      else if name == "gitaskpass" || name == "ssh" then Some(Secret(opts.versionedName)) else None
    ensures Names(SystemVolumes(opts)) == {"main-module-addons", "gitaskpass", "ssh"}
  {
    var volumes := SystemVolumes(opts);
    assert volumes == [volumes[0]] + ([volumes[1]] + [volumes[2]]);
    ResolveAppend([volumes[0]], [volumes[1]] + [volumes[2]], name);
    ResolveAppend([volumes[1]], [volumes[2]], name);
    NamesAppend([volumes[0]], [volumes[1]] + [volumes[2]]);
    NamesAppend([volumes[1]], [volumes[2]]);
  }

  /** A reserved name stands for the volume of its own group. */
  lemma OwnVolumeOf(opts: TaskOptions, name: string)
    requires Fits(opts) && name in RESERVED
    ensures var first, third, last := HomeVolume(opts), ScriptVolume(opts), SystemVolumes(opts);
      && Resolve(OwnVolumes(opts), name)
         == (if name in Names(first) then Resolve(first, name)
             else if name in Names(third) then Resolve(third, name) else Resolve(last, name))
      && (name in Names(OwnVolumes(opts)) <==> name in Names(first) + Names(third) + Names(last))
  {
    var first, third, last := HomeVolume(opts), ScriptVolume(opts), SystemVolumes(opts);
    ResolveAppend(first + opts.volumes + third, last, name);
    ResolveAppend(first + opts.volumes, third, name);
    ResolveAppend(first, opts.volumes, name);
    NamesAppend(first + opts.volumes + third, last);
    NamesAppend(first + opts.volumes, third);
    NamesAppend(first, opts.volumes);
    assert name !in Names(opts.volumes);
  }

  lemma OwnVolumeIs(opts: TaskOptions, name: string)
    requires Fits(opts) && name in RESERVED
    ensures Resolve(OwnVolumes(opts), name) ==
      if name == "infrakubehome" then Some(Claim(opts.prefixedName))
      else if name == "main-module-addons" then Some(ConfigMap(opts.versionedName))
      else if name == "gitaskpass" || name == "ssh" then Some(Secret(opts.versionedName))
      else if opts.configMapSourceName != "" && opts.configMapSourceKey != ""
      then Some(ConfigMap(opts.configMapSourceName)) else None
    ensures Resolve(OwnVolumes(opts), name).Some? ==> name in Names(OwnVolumes(opts))
  {
    OwnVolumeOf(opts, name);
    HomeIs(opts, name);
    ScriptIs(opts, name);
    SystemIs(opts, name);
  }

  /** The task's own container comes first, and its own names keep their volumes. */
  lemma OwnInPod(opts: TaskOptions)
    requires Generated(opts).Some?
    ensures var pod := Generated(opts).value;
      && pod.containers != [] && pod.containers[0] == Container(ContainerName(opts.task), OwnMounts(opts))
      && forall n :: n in Names(OwnVolumes(opts)) ==>
           n in Names(pod.volumes) && Resolve(pod.volumes, n) == Resolve(OwnVolumes(opts), n)
  {
    MergedKeeps(OwnSpec(opts), opts.sidecars);
  }

  lemma SystemMountsAre(opts: TaskOptions)
    requires Fits(opts)
    ensures forall m :: m in OwnMounts(opts) && m.name == "infrakubehome" <==>
      m == Mount("infrakubehome", "/home/infrakube-runner")
    ensures forall m :: m in OwnMounts(opts) && m.name == "main-module-addons" <==>
      m == Mount("main-module-addons", "/tmp/main-module-addons")
    ensures forall m :: m in OwnMounts(opts) && m.name == "gitaskpass" <==> m == Mount("gitaskpass", "/git/askpass")
    ensures forall m :: m in OwnMounts(opts) && m.name == "ssh" <==> m == Mount("ssh", "/tmp/ssh")
    ensures forall m :: m in OwnMounts(opts) && m.name == "config-map-source" <==>
      m == Mount("config-map-source", "/tmp/config-map-source")
      && opts.configMapSourceName != "" && opts.configMapSourceKey != ""
  {
    forall m ensures m in opts.mounts ==> m.name !in RESERVED {
      if m in opts.mounts {
        UserMountsAreFree(opts, m);
      }
    }
    forall m: Mount {
      OwnMountIff(opts, m);
    }
  }

  /** A pod is built if and only if no volume of the user has one of the system's five names, each has a mount, and each
      mount a volume. */
  lemma BuiltIff(opts: TaskOptions)
    ensures Generated(opts).Some? <==>
      && (forall i :: 0 <= i < |opts.volumes| ==>
            && opts.volumes[i].name
               !in {"infrakubehome", "config-map-source", "main-module-addons", "gitaskpass", "ssh"}
            && exists j :: 0 <= j < |opts.mounts| && opts.mounts[j].name == opts.volumes[i].name)
      && forall j :: 0 <= j < |opts.mounts| ==> IsVolumeName(opts.volumes, opts.mounts[j].name)
  {
    if Generated(opts).Some? {
      forall i | 0 <= i < |opts.volumes|
        ensures exists j :: 0 <= j < |opts.mounts| && opts.mounts[j].name == opts.volumes[i].name
      {
        assert opts.volumes[i] in opts.volumes;
        var m :| m in opts.mounts && m.name == opts.volumes[i].name;
        var j :| 0 <= j < |opts.mounts| && opts.mounts[j] == m;
      }
      forall j | 0 <= j < |opts.mounts| ensures IsVolumeName(opts.volumes, opts.mounts[j].name) {
        assert opts.mounts[j] in opts.mounts;
        var v :| v in opts.volumes && v.name == opts.mounts[j].name;
        var i :| 0 <= i < |opts.volumes| && opts.volumes[i] == v;
      }
    }
  }

  predicate IsVolumeName(volumes: seq<Volume>, name: string) {
    exists i :: 0 <= i < |volumes| && volumes[i].name == name
  }

  /** What the task's own container mounts under a name of its own is found there in the pod. */
  lemma OwnIsFound(opts: TaskOptions, name: string, path: string, source: Source)
    requires Generated(opts).Some? && name in RESERVED && Resolve(OwnVolumes(opts), name) == Some(source)
    requires forall m :: m in OwnMounts(opts) && m.name == name <==> m == Mount(name, path)
    ensures var pod := Generated(opts).value;
      pod.containers != [] && FindsAt(pod.containers[0], pod, name, path, source)
  {
    OwnInPod(opts);
    OwnVolumeIs(opts, name);
  }

  lemma ContainerNameIs(t: TaskName)
    ensures ContainerName(t) == if t.Custom? then t.name else "task"
  {
  }

  lemma OwnNameInPod(opts: TaskOptions)
    requires Generated(opts).Some?
    ensures var pod := Generated(opts).value;
      pod.containers != [] && pod.containers[0].name == if opts.task.Custom? then opts.task.name else "task"
  {
    OwnInPod(opts);
    ContainerNameIs(opts.task);
  }

  lemma HomeIsFound(opts: TaskOptions)
    requires Generated(opts).Some?
    ensures var pod := Generated(opts).value;
      pod.containers != [] && FindsAt(pod.containers[0], pod, "infrakubehome", "/home/infrakube-runner",
                                      Claim(opts.prefixedName))
  {
    SystemMountsAre(opts);
    OwnVolumeIs(opts, "infrakubehome");
    OwnIsFound(opts, "infrakubehome", "/home/infrakube-runner", Claim(opts.prefixedName));
  }

  lemma AddOnsAreFound(opts: TaskOptions)
    requires Generated(opts).Some?
    ensures var pod := Generated(opts).value;
      pod.containers != [] && FindsAt(pod.containers[0], pod, "main-module-addons", "/tmp/main-module-addons",
                                      ConfigMap(opts.versionedName))
  {
    SystemMountsAre(opts);
    OwnVolumeIs(opts, "main-module-addons");
    OwnIsFound(opts, "main-module-addons", "/tmp/main-module-addons", ConfigMap(opts.versionedName));
  }

  lemma AskPassIsFound(opts: TaskOptions)
    requires Generated(opts).Some?
    ensures var pod := Generated(opts).value;
      pod.containers != []
      && FindsAt(pod.containers[0], pod, "gitaskpass", "/git/askpass", Secret(opts.versionedName))
  {
    SystemMountsAre(opts);
    OwnVolumeIs(opts, "gitaskpass");
    OwnIsFound(opts, "gitaskpass", "/git/askpass", Secret(opts.versionedName));
  }

  lemma SshIsFound(opts: TaskOptions)
    requires Generated(opts).Some?
    ensures var pod := Generated(opts).value;
      pod.containers != [] && FindsAt(pod.containers[0], pod, "ssh", "/tmp/ssh", Secret(opts.versionedName))
  {
    SystemMountsAre(opts);
    OwnVolumeIs(opts, "ssh");
    OwnIsFound(opts, "ssh", "/tmp/ssh", Secret(opts.versionedName));
  }

  /** Whenever a pod is built, with any sidecars, its first container is the task's: it is named after the task exactly
      if that is none of the workflow's own, and its home, add-ons and the two secrets each are where the task looks for
      them, from the claim, the config map and the secret of the resource. */
  lemma TaskFindsItsFiles(opts: TaskOptions)
    requires Generated(opts).Some?
    ensures var pod := Generated(opts).value;
      && pod.containers != []
      && pod.containers[0].name == (if opts.task.Custom? then opts.task.name else "task")
      && FindsAt(pod.containers[0], pod, "infrakubehome", "/home/infrakube-runner", Claim(opts.prefixedName))
      && FindsAt(pod.containers[0], pod, "main-module-addons", "/tmp/main-module-addons",
                 ConfigMap(opts.versionedName))
      && FindsAt(pod.containers[0], pod, "gitaskpass", "/git/askpass", Secret(opts.versionedName))
      && FindsAt(pod.containers[0], pod, "ssh", "/tmp/ssh", Secret(opts.versionedName))
  {
    OwnNameInPod(opts);
    HomeIsFound(opts);
    AddOnsAreFound(opts);
    AskPassIsFound(opts);
    SshIsFound(opts);
  }

  /** The script's config map is mounted at its path exactly if both its name and its key are given, and then from that
      map. */
  lemma ScriptIsMountedIff(opts: TaskOptions)
    requires Generated(opts).Some?
    ensures var pod := Generated(opts).value;
      if opts.configMapSourceName != "" && opts.configMapSourceKey != ""
      then pod.containers != [] && FindsAt(pod.containers[0], pod, "config-map-source", "/tmp/config-map-source",
                                           ConfigMap(opts.configMapSourceName))
      else pod.containers != [] && forall m :: m in pod.containers[0].mounts ==> m.name != "config-map-source"
  {
    OwnInPod(opts);
    SystemMountsAre(opts);
    OwnVolumeIs(opts, "config-map-source");
  }

  /** Every mount of the user is there as given, and with distinct names each stands for the user's own volume. */
  lemma UserFindsOwnVolumes(opts: TaskOptions)
    requires Generated(opts).Some?
    ensures var pod := Generated(opts).value;
      && pod.containers != []
      && (forall m :: m in opts.mounts ==> m in pod.containers[0].mounts)
      && (forall m :: m in pod.containers[0].mounts && m.name !in RESERVED ==> m in opts.mounts)
      && (Distinct(opts.volumes) ==>
            forall v :: v in opts.volumes ==> Resolve(pod.volumes, v.name) == Some(v.source))
  {
    OwnInPod(opts);
    forall m: Mount {
      OwnMountIff(opts, m);
    }
    if Distinct(opts.volumes) {
      OwnDistinctIff(opts);
      forall v | v in opts.volumes ensures v.name in Names(OwnVolumes(opts))
          && Resolve(OwnVolumes(opts), v.name) == Some(v.source) {
        ResolvesItself(OwnVolumes(opts), v);
      }
    }
  }

  /** Behind the task's container the pod has exactly those of the sidecars, one sidecar after another. */
  lemma SidecarContainersFollow(opts: TaskOptions, i: nat)
    requires Generated(opts).Some? && i < |opts.sidecars|
    ensures var pod, start := Generated(opts).value, 1 + Brought(opts.sidecars, i);
      && |pod.containers| == 1 + Brought(opts.sidecars, |opts.sidecars|)
      && start + |opts.sidecars[i].containers| <= |pod.containers|
      && pod.containers[start..start + |opts.sidecars[i].containers|] == opts.sidecars[i].containers
  {
    var own := OwnSpec(opts);
    assert |own.containers| == 1;
    MergedCount(own, opts.sidecars);
    MergedBrings(own, opts.sidecars, i);
  }
}
