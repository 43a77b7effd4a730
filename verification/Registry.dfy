/** The clusters that kubeconfig secrets name, and the two maps that keep them apart. */
module Registry {
  import opened Wrappers

  datatype Options = Options(namespace: string, secretLabel: string, kubeconfigKey: string, clusterNameLabel: string)

  datatype Secret = Secret(namespace: string, name: string, labels: map<string, string>, data: map<string, string>)
  {
    function Key(): string { namespace + "/" + name }
  }

  datatype Index = Index(obj: string, field: string)

  /** An engaged cluster and the context it runs in. */
  datatype Entry = Entry(cluster: nat, context: nat)

  /** What reaches the provider. An object that is no secret is None. The remaining fields say how the calls made on
      the way turn out: the fields that a new cluster refuses to index, the clusters that refuse a new field, and the
      order in which they are asked. */
  datatype Event =
    | Handled(handled: Option<Secret>, parses: bool, created: bool, refused: set<Index>, engages: bool)
    | Deleted(deleted: Option<Secret>)
    | FieldIndexed(index: Index, hostOk: bool, order: seq<string>, refusing: set<string>)

  function Default(value: string, default: string): string { if value == "" then default else value }

  function WithDefaults(opts: Options): Options {
    Options(Default(opts.namespace, "infrakube-system"),
            Default(opts.secretLabel, "infrakube.galleybytes.com/cluster"),
            Default(opts.kubeconfigKey, "kubeconfig"),
            Default(opts.clusterNameLabel, "infrakube.galleybytes.com/cluster-name"))
  }

  predicate Matches(opts: Options, secret: Secret) {
    && secret.namespace == opts.namespace
    && opts.secretLabel in secret.labels && secret.labels[opts.secretLabel] == "true"
  }

  function ClusterName(opts: Options, secret: Secret): string {
    if opts.clusterNameLabel in secret.labels && secret.labels[opts.clusterNameLabel] != ""
    then secret.labels[opts.clusterNameLabel]
    else secret.name
  }

  predicate HasKubeconfig(opts: Options, secret: Secret) {
    opts.kubeconfigKey in secret.data && |secret.data[opts.kubeconfigKey]| > 0
  }

  // ---------------------------------------------------------------------------------------------
  // The state and one event

  /** `applied` are the fields indexed on each cluster ever created, `live` the contexts created and not cancelled. */
  datatype State = State(
    clusters: map<string, Entry>, secretCluster: map<string, string>, indexes: seq<Index>,
    applied: map<nat, seq<Index>>, live: set<nat>, nextCluster: nat, nextContext: nat)

  const EMPTY := State(map[], map[], [], map[], {}, 0, 0)

  function Unmapped(secretCluster: map<string, string>, cluster: string): map<string, string> {
    map s | s in secretCluster && secretCluster[s] != cluster :: secretCluster[s]
  }

  function Disengaged(st: State, cluster: string): State {
    if cluster in st.clusters then
      st.(clusters := st.clusters - {cluster}, secretCluster := Unmapped(st.secretCluster, cluster),
          live := st.live - {st.clusters[cluster].context})
    else st
  }

  function SecretDisengaged(st: State, key: string): State {
    if key in st.secretCluster && st.secretCluster[key] != "" then Disengaged(st, st.secretCluster[key]) else st
  }

  /** The fields that a new cluster indexes before it refuses one. */
  function IndexedUntil(indexes: seq<Index>, refused: set<Index>): seq<Index> {
    if indexes == [] || indexes[0] in refused then [] else [indexes[0]] + IndexedUntil(indexes[1..], refused)
  }

  predicate IndexesAll(indexes: seq<Index>, refused: set<Index>) {
    forall i :: 0 <= i < |indexes| ==> indexes[i] !in refused
  }

  function Claimed(st: State, key: string, cluster: string, e: Event): State
    requires e.Handled?
  {
    if !e.created then st
    else
      var made := st.(nextCluster := st.nextCluster + 1,
                      applied := st.applied[st.nextCluster := IndexedUntil(st.indexes, e.refused)]);
      if !IndexesAll(st.indexes, e.refused) then made
      else if !e.engages then
        made.(nextContext := st.nextContext + 1, live := st.live - {st.nextContext},
              clusters := st.clusters - {cluster}, secretCluster := st.secretCluster - {key})
      else
        made.(nextContext := st.nextContext + 1, live := st.live + {st.nextContext},
              clusters := st.clusters[cluster := Entry(st.nextCluster, st.nextContext)],
              secretCluster := st.secretCluster[key := cluster])
  }

  function IndexedOn(clusters: map<string, Entry>, applied: map<nat, seq<Index>>, index: Index, order: seq<string>,
      refusing: set<string>): map<nat, seq<Index>> {
    if order == [] then applied
    else if order[0] !in clusters || clusters[order[0]].cluster !in applied then
      IndexedOn(clusters, applied, index, order[1..], refusing)
    else if order[0] in refusing then applied
    else
      var id := clusters[order[0]].cluster;
      IndexedOn(clusters, applied[id := applied[id] + [index]], index, order[1..], refusing)
  }

  function Apply(opts: Options, st: State, e: Event): State {
    match e
    case Handled(None, _, _, _, _) => st
    case Handled(Some(secret), parses, _, _, _) =>
      if !Matches(opts, secret) || !HasKubeconfig(opts, secret) || !parses then SecretDisengaged(st, secret.Key())
      else
        var cluster := ClusterName(opts, secret);
        Claimed(Disengaged(SecretDisengaged(st, secret.Key()), cluster), secret.Key(), cluster, e)
    case Deleted(None) => st
    case Deleted(Some(secret)) => SecretDisengaged(st, secret.Key())
    case FieldIndexed(index, hostOk, order, refusing) =>
      var more := st.(indexes := st.indexes + [index]);
      if hostOk then more.(applied := IndexedOn(st.clusters, st.applied, index, order, refusing)) else more
  }

  function Run(opts: Options, history: seq<Event>): State {
    if history == [] then EMPTY else Apply(opts, Run(opts, history[..|history| - 1]), history[|history| - 1])
  }

  lemma PutTwice<K, V>(m: map<K, V>, k: K, u: V, v: V)
    ensures m[k := u][k := v] == m[k := v]
  {
  }

  lemma PutAndTakenOut<V>(m: map<string, V>, k: string, v: V)
    ensures m[k := v] - {k} == m - {k}
  {
  }

  // ---------------------------------------------------------------------------------------------
  // The provider as it is written

  class KubeconfigProvider {
    const opts: Options
    var clusters: map<string, Entry>
    var secretCluster: map<string, string>
    var indexes: seq<Index>
    var applied: map<nat, seq<Index>>
    var live: set<nat>
    var nextCluster: nat
    var nextContext: nat

    constructor (given: Options)
      ensures opts == WithDefaults(given) && Value() == EMPTY
      ensures opts.namespace == if given.namespace == "" then "infrakube-system" else given.namespace
      ensures opts.kubeconfigKey == if given.kubeconfigKey == "" then "kubeconfig" else given.kubeconfigKey
      ensures opts.secretLabel
           == if given.secretLabel == "" then "infrakube.galleybytes.com/cluster" else given.secretLabel
      ensures opts.clusterNameLabel == if given.clusterNameLabel == "" then "infrakube.galleybytes.com/cluster-name"
        else given.clusterNameLabel
    {
      opts := WithDefaults(given);
      clusters, secretCluster, indexes := map[], map[], [];
      applied, live, nextCluster, nextContext := map[], {}, 0, 0;
    }

    function Value(): State
      reads this
    {
      State(clusters, secretCluster, indexes, applied, live, nextCluster, nextContext)
    }

    method Get(clusterName: string) returns (cluster: Option<nat>)
      ensures cluster == if clusterName in clusters then Some(clusters[clusterName].cluster) else None
    {
      if clusterName !in clusters {
        return None;
      }
      return Some(clusters[clusterName].cluster);
    }

    method Disengage(clusterName: string)
      modifies this
      ensures Value() == Disengaged(old(Value()), clusterName)
    {
      if clusterName in clusters {
        var entry := clusters[clusterName];
        clusters := clusters - {clusterName};
        var todo := secretCluster.Keys;
        while todo != {}
          invariant todo <= secretCluster.Keys
          invariant Unmapped(secretCluster, clusterName) == Unmapped(old(secretCluster), clusterName)
          invariant forall s :: s in secretCluster && s !in todo ==> secretCluster[s] != clusterName
          invariant clusters == old(clusters) - {clusterName} && live == old(live) && indexes == old(indexes)
          invariant applied == old(applied) && nextCluster == old(nextCluster) && nextContext == old(nextContext)
          decreases |todo|
        {
          var secret :| secret in todo;
          todo := todo - {secret};
          if secretCluster[secret] == clusterName {
            secretCluster := secretCluster - {secret};
          }
        }
        assert Unmapped(secretCluster, clusterName) == secretCluster;
        live := live - {entry.context};
      }
    }

    method DisengageSecret(key: string)
      modifies this
      ensures Value() == SecretDisengaged(old(Value()), key)
    {
      var clusterName := if key in secretCluster then secretCluster[key] else "";
      if clusterName != "" {
        Disengage(clusterName);
      }
    }

    method HandleSecret(e: Event)
      requires e.Handled?
      modifies this
      ensures Value() == Apply(opts, old(Value()), e)
    {
      if e.handled.None? || !Matches(opts, e.handled.value) {
        if e.handled.Some? {
          DisengageSecret(e.handled.value.Key());
        }
        return;
      }
      var secret := e.handled.value;
      var name, clusterName := secret.Key(), ClusterName(opts, secret);
      if !HasKubeconfig(opts, secret) {
        DisengageSecret(name);
        return;
      }
      if !e.parses {
        DisengageSecret(name);
        return;
      }
      DisengageSecret(name);
      Disengage(clusterName);
      EngageCluster(name, clusterName, e);
    }

    /** Indexes every registered field on a new cluster, up to the first it refuses. */
    method IndexNew(cluster: nat, refused: set<Index>) returns (ok: bool)
      requires cluster in applied && applied[cluster] == []
      modifies this`applied
      ensures applied == old(applied)[cluster := IndexedUntil(indexes, refused)]
      ensures ok <==> IndexesAll(indexes, refused)
    {
      for i := 0 to |indexes|
        invariant cluster in applied && applied == old(applied)[cluster := applied[cluster]]
        invariant IndexesAll(indexes[..i], refused)
        invariant applied[cluster] + IndexedUntil(indexes[i..], refused) == IndexedUntil(indexes, refused)
      {
        var index := indexes[i];
        assert indexes[i..][1..] == indexes[i + 1..];
        if index in refused {
          assert applied[cluster] + [] == applied[cluster];
          return false;
        }
        applied := applied[cluster := applied[cluster] + [index]];
      }
      assert indexes[..|indexes|] == indexes && indexes[|indexes|..] == [];
      assert applied[cluster] + [] == applied[cluster];
      return true;
    }

    method EngageCluster(name: string, clusterName: string, e: Event)
      requires e.Handled?
      modifies this
      ensures Value() == Claimed(old(Value()), name, clusterName, e)
    {
      if !e.created {
        return;
      }
      var cluster := nextCluster;
      nextCluster := nextCluster + 1;
      applied := applied[cluster := []];
      var indexed := IndexNew(cluster, e.refused);
      PutTwice(old(applied), cluster, [], applied[cluster]);
      if !indexed {
        return;
      }

      var context := nextContext;
      nextContext := nextContext + 1;
      live := live + {context};
      clusters := clusters[clusterName := Entry(cluster, context)];
      secretCluster := secretCluster[name := clusterName];
      PutAndTakenOut(old(clusters), clusterName, Entry(cluster, context));
      PutAndTakenOut(old(secretCluster), name, clusterName);
      if !e.engages {
        // the engagement failed: the context is cancelled and the entry taken out again
        live := live - {context};
        clusters := clusters - {clusterName};
        secretCluster := secretCluster - {name};
      }
    }

    method DeleteSecret(e: Event)
      requires e.Deleted?
      modifies this
      ensures Value() == Apply(opts, old(Value()), e)
    {
      if e.deleted.None? {
        return;
      }
      DisengageSecret(e.deleted.value.Key());
    }

    method IndexField(e: Event) returns (ok: bool)
      requires e.FieldIndexed?
      modifies this
      ensures Value() == Apply(opts, old(Value()), e)
    {
      indexes := indexes + [e.index];
      if !e.hostOk {
        return false;
      }
      for i := 0 to |e.order|
        invariant Value() == old(Value()).(indexes := indexes, applied := applied)
        invariant indexes == old(indexes) + [e.index]
        invariant IndexedOn(clusters, applied, e.index, e.order[i..], e.refusing)
               == IndexedOn(clusters, old(applied), e.index, e.order, e.refusing)
      {
        var name := e.order[i];
        assert e.order[i..][1..] == e.order[i + 1..];
        if name in clusters && clusters[name].cluster in applied {
          if name in e.refusing {
            return false;
          }
          var id := clusters[name].cluster;
          applied := applied[id := applied[id] + [e.index]];
        }
      }
      assert e.order[|e.order|..] == [];
      return true;
    }
  }

  // ---------------------------------------------------------------------------------------------
  // What an event means

  /** An event claims a cluster for a secret, releases a secret, or concerns none. */
  datatype Meaning = Claim(key: string, cluster: string) | Release(released: string) | Nothing

  function LookUp(texts: map<string, string>, key: string): string { if key in texts then texts[key] else "" }

  /** The secret is in the namespace, carries the label with the value "true", and has data under the key. */
  predicate IsSelected(opts: Options, secret: Secret) {
    && secret.namespace == opts.namespace && LookUp(secret.labels, opts.secretLabel) == "true"
    && LookUp(secret.data, opts.kubeconfigKey) != ""
  }

  function MeaningOf(opts: Options, e: Event): Meaning {
    match e
    case Handled(Some(secret), parses, _, _, _) =>
      var key, named := secret.namespace + "/" + secret.name, LookUp(secret.labels, opts.clusterNameLabel);
      if IsSelected(opts, secret) && parses then Claim(key, if named != "" then named else secret.name)
      else Release(key)
    case Deleted(Some(secret)) => Release(secret.namespace + "/" + secret.name)
    case _ => Nothing
  }

  /** The secret that an event is of. */
  predicate IsOf(opts: Options, e: Event, key: string) {
    MeaningOf(opts, e) == Release(key) || (MeaningOf(opts, e).Claim? && MeaningOf(opts, e).key == key)
  }

  predicate IsClaimOf(opts: Options, e: Event, cluster: string) {
    MeaningOf(opts, e).Claim? && MeaningOf(opts, e).cluster == cluster
  }

  /** The claim goes through: the cluster is created, takes every field registered so far, and is engaged. */
  predicate Succeeds(e: Event, indexes: seq<Index>) {
    e.Handled? && e.created && IndexesAll(indexes, e.refused) && e.engages
  }

  /** The fields registered by a history. */
  function Registered(history: seq<Event>): seq<Index> {
    if history == [] then []
    else
      var before, e := Registered(history[..|history| - 1]), history[|history| - 1];
      if e.FieldIndexed? then before + [e.index] else before
  }

  /** The API server takes no secret without a name. */
  predicate Named(e: Event) {
    e.Handled? && e.handled.Some? ==> e.handled.value.name != ""
  }

  ghost predicate AllNamed(history: seq<Event>) {
    forall i :: 0 <= i < |history| ==> Named(history[i])
  }

  // ---------------------------------------------------------------------------------------------
  // The invariant

  /** Every cluster is mapped to by exactly one secret, and secrets are mapped to clusters only. */
  ghost predicate Bijective(secretCluster: map<string, string>, clusters: set<string>) {
    && secretCluster.Values == clusters && "" !in clusters
    && forall s, t :: s in secretCluster && t in secretCluster && secretCluster[s] == secretCluster[t] ==> s == t
  }

  /** The live contexts are those of the entries, and no two entries share one. */
  ghost predicate ContextsMatch(clusters: map<string, Entry>, live: set<nat>, next: nat) {
    && (forall c :: c in clusters ==> clusters[c].context in live)
    && (forall x :: x in live ==> x < next && OfSome(clusters, x))
    && forall c, d :: c in clusters && d in clusters && clusters[c].context == clusters[d].context ==> c == d
  }

  ghost predicate OfSome(clusters: map<string, Entry>, context: nat) {
    exists c :: c in clusters && clusters[c].context == context
  }

  /** The clusters of the entries were created, and no two entries share one. */
  ghost predicate ClustersKnown(clusters: map<string, Entry>, applied: map<nat, seq<Index>>, next: nat) {
    && (forall c :: c in clusters ==> clusters[c].cluster in applied)
    && (forall x :: x in applied ==> x < next)
    && forall c, d :: c in clusters && d in clusters && clusters[c].cluster == clusters[d].cluster ==> c == d
  }

  ghost predicate Valid(st: State) {
    && Bijective(st.secretCluster, st.clusters.Keys)
    && ContextsMatch(st.clusters, st.live, st.nextContext)
    && ClustersKnown(st.clusters, st.applied, st.nextCluster)
  }

  lemma UnmappedBijective(secretCluster: map<string, string>, clusters: set<string>, cluster: string)
    requires Bijective(secretCluster, clusters)
    ensures Bijective(Unmapped(secretCluster, cluster), clusters - {cluster})
    ensures cluster !in clusters ==> Unmapped(secretCluster, cluster) == secretCluster
  {
    var rest := Unmapped(secretCluster, cluster);
    forall c | c in clusters - {cluster} ensures c in rest.Values {
      var s :| s in secretCluster && secretCluster[s] == c;
      assert rest[s] == c;
    }
    if cluster !in clusters {
      forall s | s in secretCluster ensures secretCluster[s] != cluster {
        assert secretCluster[s] in secretCluster.Values;
      }
    }
  }

  /** The secret of a cluster is all that is unmapped with it. */
  lemma UnmapsOne(secretCluster: map<string, string>, clusters: set<string>, key: string)
    requires Bijective(secretCluster, clusters) && key in secretCluster
    ensures Unmapped(secretCluster, secretCluster[key]) == secretCluster - {key} && secretCluster[key] in clusters
  {
  }

  lemma MappedBijective(secretCluster: map<string, string>, clusters: set<string>, key: string, cluster: string)
    requires Bijective(secretCluster, clusters) && key !in secretCluster && cluster !in clusters && cluster != ""
    ensures Bijective(secretCluster[key := cluster], clusters + {cluster})
  {
    var more := secretCluster[key := cluster];
    forall s | s in secretCluster ensures secretCluster[s] in clusters {
      assert secretCluster[s] in secretCluster.Values;
    }
    assert more[key] == cluster;
    forall c | c in clusters + {cluster} ensures c in more.Values {
      if c in clusters {
        var s :| s in secretCluster && secretCluster[s] == c;
        assert more[s] == c;
      }
    }
  }

  lemma ContextRemoved(clusters: map<string, Entry>, live: set<nat>, next: nat, cluster: string)
    requires ContextsMatch(clusters, live, next) && cluster in clusters
    ensures ContextsMatch(clusters - {cluster}, live - {clusters[cluster].context}, next)
  {
    var rest := clusters - {cluster};
    forall x | x in live - {clusters[cluster].context} ensures OfSome(rest, x) {
      assert OfSome(clusters, x);
      var c :| c in clusters && clusters[c].context == x;
      assert c in rest && rest[c].context == x;
    }
  }

  lemma ContextAdded(clusters: map<string, Entry>, live: set<nat>, next: nat, cluster: string, id: nat)
    requires ContextsMatch(clusters, live, next) && cluster !in clusters
    ensures ContextsMatch(clusters[cluster := Entry(id, next)], live + {next}, next + 1)
  {
    var more := clusters[cluster := Entry(id, next)];
    forall x | x in live + {next} ensures OfSome(more, x) {
      if x in live {
        assert OfSome(clusters, x);
        var c :| c in clusters && clusters[c].context == x;
        assert c in more && more[c].context == x;
      } else {
        assert cluster in more && more[cluster].context == x;
      }
    }
  }

  lemma DisengagedValid(st: State, cluster: string)
    requires Valid(st)
    ensures Valid(Disengaged(st, cluster))
    ensures Disengaged(st, cluster).clusters.Keys == st.clusters.Keys - {cluster}
    ensures Disengaged(st, cluster).secretCluster == Unmapped(st.secretCluster, cluster)
    ensures Disengaged(st, cluster).indexes == st.indexes
  {
    UnmappedBijective(st.secretCluster, st.clusters.Keys, cluster);
    if cluster in st.clusters {
      ContextRemoved(st.clusters, st.live, st.nextContext, cluster);
      assert (st.clusters - {cluster}).Keys == st.clusters.Keys - {cluster};
    }
  }

  /** The secret goes and with it its cluster; no other secret does. */
  lemma SecretDisengagedValid(st: State, key: string)
    requires Valid(st)
    ensures Valid(SecretDisengaged(st, key))
    ensures SecretDisengaged(st, key).secretCluster == st.secretCluster - {key}
    ensures SecretDisengaged(st, key).indexes == st.indexes
  {
    if key in st.secretCluster {
      UnmapsOne(st.secretCluster, st.clusters.Keys, key);
      DisengagedValid(st, st.secretCluster[key]);
    } else {
      assert st.secretCluster - {key} == st.secretCluster;
    }
  }

  lemma FailedClaimValid(st: State, key: string, cluster: string, e: Event)
    requires Valid(st) && e.Handled? && key !in st.secretCluster && cluster !in st.clusters && !Succeeds(e, st.indexes)
    ensures Valid(Claimed(st, key, cluster, e))
    ensures Claimed(st, key, cluster, e).secretCluster == st.secretCluster
            && Claimed(st, key, cluster, e).indexes == st.indexes
  {
    assert st.clusters - {cluster} == st.clusters && st.secretCluster - {key} == st.secretCluster;
    assert st.live - {st.nextContext} == st.live;
  }

  lemma ClusterAdded(clusters: map<string, Entry>, applied: map<nat, seq<Index>>, next: nat, cluster: string,
      context: nat, fields: seq<Index>)
    requires ClustersKnown(clusters, applied, next) && cluster !in clusters
    ensures ClustersKnown(clusters[cluster := Entry(next, context)], applied[next := fields], next + 1)
  {
  }

  lemma MadeClaimValid(st: State, key: string, cluster: string, e: Event)
    requires Valid(st) && e.Handled? && key !in st.secretCluster && cluster !in st.clusters && cluster != ""
             && Succeeds(e, st.indexes)
    ensures Valid(Claimed(st, key, cluster, e))
    ensures Claimed(st, key, cluster, e).secretCluster == st.secretCluster[key := cluster]
    ensures Claimed(st, key, cluster, e).indexes == st.indexes
  {
    var claimed := Claimed(st, key, cluster, e);
    MappedBijective(st.secretCluster, st.clusters.Keys, key, cluster);
    assert claimed.clusters.Keys == st.clusters.Keys + {cluster};
    ContextAdded(st.clusters, st.live, st.nextContext, cluster, st.nextCluster);
    ClusterAdded(st.clusters, st.applied, st.nextCluster, cluster, st.nextContext, IndexedUntil(st.indexes, e.refused));
  }

  lemma ClaimedValid(st: State, key: string, cluster: string, e: Event)
    requires Valid(st) && e.Handled? && key !in st.secretCluster && cluster !in st.clusters && cluster != ""
    ensures Valid(Claimed(st, key, cluster, e))
    ensures Claimed(st, key, cluster, e).secretCluster
         == if Succeeds(e, st.indexes) then st.secretCluster[key := cluster] else st.secretCluster
    ensures Claimed(st, key, cluster, e).indexes == st.indexes
  {
    if Succeeds(e, st.indexes) {
      MadeClaimValid(st, key, cluster, e);
    } else {
      FailedClaimValid(st, key, cluster, e);
    }
  }

  lemma {:induction false} IndexedOnKeys(clusters: map<string, Entry>, applied: map<nat, seq<Index>>, index: Index,
      order: seq<string>, refusing: set<string>)
    ensures IndexedOn(clusters, applied, index, order, refusing).Keys == applied.Keys
    decreases order
  {
    if order != [] {
      if order[0] in clusters && clusters[order[0]].cluster in applied {
        var id := clusters[order[0]].cluster;
        IndexedOnKeys(clusters, applied[id := applied[id] + [index]], index, order[1..], refusing);
      } else {
        IndexedOnKeys(clusters, applied, index, order[1..], refusing);
      }
    }
  }

  /** An event's effect on who is engaged for what. */
  function Engaged(opts: Options, secretCluster: map<string, string>, e: Event, indexes: seq<Index>)
    : map<string, string>
  {
    match MeaningOf(opts, e)
    case Nothing => secretCluster
    case Release(key) => secretCluster - {key}
    case Claim(key, cluster) =>
      var rest := Unmapped(secretCluster - {key}, cluster);
      if Succeeds(e, indexes) then rest[key := cluster] else rest
  }

  /** A claim takes the secret from its cluster and the cluster from its secret. */
  lemma ClaimValid(st: State, key: string, cluster: string, e: Event)
    requires Valid(st) && e.Handled? && cluster != ""
    ensures var rest := Unmapped(st.secretCluster - {key}, cluster);
      var after := Claimed(Disengaged(SecretDisengaged(st, key), cluster), key, cluster, e);
      && Valid(after) && after.indexes == st.indexes
      && after.secretCluster == if Succeeds(e, st.indexes) then rest[key := cluster] else rest
  {
    SecretDisengagedValid(st, key);
    var released := SecretDisengaged(st, key);
    DisengagedValid(released, cluster);
    ClaimedValid(Disengaged(released, cluster), key, cluster, e);
  }

  /** An event does what it means. */
  lemma ApplyMeans(opts: Options, st: State, e: Event)
    ensures match MeaningOf(opts, e)
            case Release(key) => !e.FieldIndexed? && Apply(opts, st, e) == SecretDisengaged(st, key)
            case Claim(key, cluster) =>
              && e.Handled? && (Named(e) ==> cluster != "")
              && Apply(opts, st, e) == Claimed(Disengaged(SecretDisengaged(st, key), cluster), key, cluster, e)
            case Nothing => e.FieldIndexed? || Apply(opts, st, e) == st
  {
  }

  lemma ApplyValid(opts: Options, st: State, e: Event)
    requires Valid(st) && Named(e)
    ensures Valid(Apply(opts, st, e))
    ensures Apply(opts, st, e).secretCluster == Engaged(opts, st.secretCluster, e, st.indexes)
    ensures Apply(opts, st, e).indexes == if e.FieldIndexed? then st.indexes + [e.index] else st.indexes
  {
    ApplyMeans(opts, st, e);
    match MeaningOf(opts, e)
    case Release(key) => SecretDisengagedValid(st, key);
    case Claim(key, cluster) => ClaimValid(st, key, cluster, e);
    case Nothing =>
      if e.FieldIndexed? {
        IndexedOnKeys(st.clusters, st.applied, e.index, e.order, e.refusing);
      }
  }

  /** After every history the two maps are a bijection between the engaged secrets and the clusters, and the contexts
      that were created and not cancelled are exactly those of the entries. */
  lemma {:induction false} RunValid(opts: Options, history: seq<Event>)
    requires AllNamed(history)
    ensures Valid(Run(opts, history)) && Run(opts, history).indexes == Registered(history)
  {
    if history != [] {
      RunValid(opts, history[..|history| - 1]);
      ApplyValid(opts, Run(opts, history[..|history| - 1]), history[|history| - 1]);
    }
  }

  // ---------------------------------------------------------------------------------------------
  // Who is engaged after a history

  /** Event `i` of the history is the last one of the secret, claims the cluster for it and goes through, and no later
      event claims the cluster, whether it goes through or not. */
  ghost predicate LastClaim(opts: Options, history: seq<Event>, i: nat, key: string, cluster: string)
    requires i < |history|
  {
    && MeaningOf(opts, history[i]) == Claim(key, cluster) && Succeeds(history[i], Registered(history[..i]))
    && forall j :: i < j < |history| ==> !IsOf(opts, history[j], key) && !IsClaimOf(opts, history[j], cluster)
  }

  ghost predicate HasLastClaim(opts: Options, history: seq<Event>, key: string, cluster: string) {
    exists i :: 0 <= i < |history| && LastClaim(opts, history, i, key, cluster)
  }

  predicate MapsTo(secretCluster: map<string, string>, key: string, cluster: string) {
    key in secretCluster && secretCluster[key] == cluster
  }

  /** The secret is engaged for the cluster. */
  predicate IsEngaged(st: State, key: string, cluster: string) { MapsTo(st.secretCluster, key, cluster) }

  /** The event itself makes the engagement, or leaves it alone. */
  predicate Makes(opts: Options, e: Event, indexes: seq<Index>, key: string, cluster: string) {
    MeaningOf(opts, e) == Claim(key, cluster) && Succeeds(e, indexes)
  }

  predicate Spares(opts: Options, e: Event, key: string, cluster: string) {
    !IsOf(opts, e, key) && !IsClaimOf(opts, e, cluster)
  }

  lemma LastClaimExtends(opts: Options, before: seq<Event>, e: Event, key: string, cluster: string)
    ensures HasLastClaim(opts, before + [e], key, cluster) <==>
      || Makes(opts, e, Registered(before), key, cluster)
      || (Spares(opts, e, key, cluster) && HasLastClaim(opts, before, key, cluster))
  {
    var history, n := before + [e], |before|;
    assert history[..n] == before;
    forall i | 0 <= i < n
      ensures LastClaim(opts, history, i, key, cluster) <==>
        LastClaim(opts, before, i, key, cluster) && Spares(opts, e, key, cluster)
    {
      assert history[..i] == before[..i];
      assert history[i] == before[i] && history[n] == e;
    }
    assert LastClaim(opts, history, n, key, cluster) <==> Makes(opts, e, Registered(before), key, cluster);
  }

  lemma EngagedExtends(opts: Options, secretCluster: map<string, string>, e: Event, indexes: seq<Index>, key: string,
      cluster: string)
    ensures MapsTo(Engaged(opts, secretCluster, e, indexes), key, cluster) <==>
      Makes(opts, e, indexes, key, cluster) || (Spares(opts, e, key, cluster) && MapsTo(secretCluster, key, cluster))
  {
  }

  lemma EngagedAfter(opts: Options, before: seq<Event>, e: Event)
    requires AllNamed(before) && Named(e)
    ensures Run(opts, before + [e]).secretCluster
         == Engaged(opts, Run(opts, before).secretCluster, e, Registered(before))
  {
    var history := before + [e];
    assert history[..|history| - 1] == before;
    RunValid(opts, before);
    ApplyValid(opts, Run(opts, before), e);
  }

  /** Over any history of events, a secret is engaged for a cluster exactly if its latest event was a claim of that
      cluster that went through and no later claim of the cluster by any secret was made, even one that failed. */
  lemma {:induction false} EngagedIff(opts: Options, history: seq<Event>, key: string, cluster: string)
    requires AllNamed(history)
    ensures IsEngaged(Run(opts, history), key, cluster)
       <==> exists i :: 0 <= i < |history| && LastClaim(opts, history, i, key, cluster)
  {
    if history != [] {
      var before, e := history[..|history| - 1], history[|history| - 1];
      assert history == before + [e];
      EngagedIff(opts, before, key, cluster);
      EngagedAfter(opts, before, e);
      EngagedExtends(opts, Run(opts, before).secretCluster, e, Registered(before), key, cluster);
      LastClaimExtends(opts, before, e, key, cluster);
      assert HasLastClaim(opts, history, key, cluster) <==> IsEngaged(Run(opts, history), key, cluster);
    }
  }

  /** Get finds a cluster exactly if some secret is engaged for it. */
  lemma FoundIff(opts: Options, history: seq<Event>, cluster: string)
    requires AllNamed(history)
    ensures cluster in Run(opts, history).clusters <==>
      exists key, i :: 0 <= i < |history| && LastClaim(opts, history, i, key, cluster)
  {
    RunValid(opts, history);
    var st := Run(opts, history);
    if cluster in st.clusters {
      var key :| key in st.secretCluster && st.secretCluster[key] == cluster;
      EngagedIff(opts, history, key, cluster);
      assert IsEngaged(st, key, cluster);
    }
    if key, i :| 0 <= i < |history| && LastClaim(opts, history, i, key, cluster) {
      EngagedIff(opts, history, key, cluster);
    }
  }

  /** What is left of a history's last event when it is a claim that goes through. */
  lemma ClaimEngages(opts: Options, before: seq<Event>, e: Event, key: string, cluster: string)
    requires AllNamed(before) && Named(e) && Makes(opts, e, Registered(before), key, cluster)
    ensures var st := Run(opts, before + [e]);
      IsEngaged(st, key, cluster) && cluster in st.clusters && st.clusters[cluster].context in st.live
  {
    EngagedAfter(opts, before, e);
    EngagedExtends(opts, Run(opts, before).secretCluster, e, Registered(before), key, cluster);
    RunValid(opts, before + [e]);
    assert cluster in Run(opts, before + [e]).secretCluster.Values;
  }

  lemma ReleaseDisengages(opts: Options, before: seq<Event>, e: Event, key: string)
    requires AllNamed(before) && Named(e) && MeaningOf(opts, e) == Release(key)
    ensures key !in Run(opts, before + [e]).secretCluster
  {
    EngagedAfter(opts, before, e);
  }

  /** After any history, a handled secret of the namespace that carries the selector label "true", has data under the
      key that parses, and whose cluster is created, refuses no registered field and engages, is engaged for the cluster
      that its cluster label names, or without one for its own name. If the namespace, the label, the data or the
      parsing fails, it is engaged for nothing. */
  lemma HandledSecret(opts: Options, before: seq<Event>, e: Event, secret: Secret)
    requires AllNamed(before) && Named(e) && e.Handled? && e.handled == Some(secret)
    ensures var st, key := Run(opts, before + [e]), secret.namespace + "/" + secret.name;
      var selected := && secret.namespace == opts.namespace
                      && opts.secretLabel in secret.labels && secret.labels[opts.secretLabel] == "true"
                      && opts.kubeconfigKey in secret.data && secret.data[opts.kubeconfigKey] != "" && e.parses;
      var of := opts.clusterNameLabel;
      var name := if of in secret.labels && secret.labels[of] != "" then secret.labels[of] else secret.name;
      && (!selected ==> key !in st.secretCluster)
      && (selected && e.created && e.engages && (forall i :: i in Registered(before) ==> i !in e.refused) ==>
            IsEngaged(st, key, name) && name in st.clusters && st.clusters[name].context in st.live)
  {
    match MeaningOf(opts, e)
    case Claim(key, cluster) =>
      if Succeeds(e, Registered(before)) {
        ClaimEngages(opts, before, e, key, cluster);
      }
    case Release(key) => ReleaseDisengages(opts, before, e, key);
  }

  /** A secret with a cluster label that is handled leaves no other secret engaged for that cluster, whether its claim
      goes through or not: of two with the same label only the one handled last can be engaged for it. */
  lemma SameLabelDisplaces(opts: Options, before: seq<Event>, e: Event, secret: Secret, other: string)
    requires AllNamed(before) && Named(e) && e.Handled? && e.handled == Some(secret) && e.parses
    requires secret.namespace == opts.namespace && opts.kubeconfigKey in secret.data
    requires secret.data[opts.kubeconfigKey] != ""
    requires opts.secretLabel in secret.labels && secret.labels[opts.secretLabel] == "true"
    requires opts.clusterNameLabel in secret.labels && secret.labels[opts.clusterNameLabel] != ""
    requires other != secret.namespace + "/" + secret.name
    ensures !IsEngaged(Run(opts, before + [e]), other, secret.labels[opts.clusterNameLabel])
  {
    EngagedAfter(opts, before, e);
  }

  // ---------------------------------------------------------------------------------------------
  // Fields

  /** Registering the field succeeds, and each cluster is asked once. */
  ghost predicate IndexSucceeds(st: State, e: Event) {
    && e.FieldIndexed? && e.hostOk && e.refusing == {}
    && (forall c :: c in st.clusters <==> c in e.order)
    && forall i, j :: 0 <= i < j < |e.order| ==> e.order[i] != e.order[j]
  }

  ghost predicate NoIndexFails(opts: Options, history: seq<Event>) {
    history != [] ==>
      && NoIndexFails(opts, history[..|history| - 1])
      && var e := history[|history| - 1]; e.FieldIndexed? ==> IndexSucceeds(Run(opts, history[..|history| - 1]), e)
  }

  /** Every engaged cluster has all registered fields indexed, in the order of registration. */
  ghost predicate FullyIndexed(st: State) {
    forall c :: c in st.clusters ==>
      st.clusters[c].cluster in st.applied && st.applied[st.clusters[c].cluster] == st.indexes
  }

  lemma {:induction false} IndexedUntilAll(indexes: seq<Index>, refused: set<Index>)
    requires IndexesAll(indexes, refused)
    ensures IndexedUntil(indexes, refused) == indexes
  {
    if indexes != [] {
      IndexedUntilAll(indexes[1..], refused);
    }
  }

  lemma {:induction false} IndexedOnAll(clusters: map<string, Entry>, applied: map<nat, seq<Index>>, index: Index,
      order: seq<string>)
    requires forall i :: 0 <= i < |order| ==> order[i] in clusters && clusters[order[i]].cluster in applied
    requires forall i, j :: 0 <= i < j < |order| ==> clusters[order[i]].cluster != clusters[order[j]].cluster
    ensures var after := IndexedOn(clusters, applied, index, order, {});
      && after.Keys == applied.Keys
      && (forall i :: 0 <= i < |order| ==>
            after[clusters[order[i]].cluster] == applied[clusters[order[i]].cluster] + [index])
      && forall x :: x in applied && (forall i :: 0 <= i < |order| ==> clusters[order[i]].cluster != x) ==>
         after[x] == applied[x]
    decreases order
  {
    if order != [] {
      var id, rest := clusters[order[0]].cluster, order[1..];
      var next := applied[id := applied[id] + [index]];
      assert forall i :: 0 <= i < |rest| ==> rest[i] == order[i + 1];
      IndexedOnAll(clusters, next, index, rest);
      var after := IndexedOn(clusters, applied, index, order, {});
      assert after == IndexedOn(clusters, next, index, rest, {});
      forall i | 0 <= i < |order|
        ensures after[clusters[order[i]].cluster] == applied[clusters[order[i]].cluster] + [index]
      {
        if i > 0 {
          assert order[i] == rest[i - 1];
        }
      }
    }
  }

  /** A new cluster takes exactly the registered fields before the first that it refuses, in order. */
  lemma {:induction false} TakenUntilRefused(indexes: seq<Index>, refused: set<Index>)
    ensures var taken := IndexedUntil(indexes, refused);
      && taken <= indexes && (forall i :: 0 <= i < |taken| ==> taken[i] !in refused)
      && (|taken| < |indexes| ==> indexes[|taken|] in refused)
  {
    if indexes != [] && indexes[0] !in refused {
      TakenUntilRefused(indexes[1..], refused);
    }
  }

  /** The registration of a field gets to the i-th cluster asked: the host took it, and no engaged cluster asked up to
      there refuses. */
  ghost predicate GetsTo(clusters: map<string, Entry>, order: seq<string>, refusing: set<string>, i: nat)
    requires i < |order|
  {
    forall j :: 0 <= j <= i && order[j] in clusters ==> order[j] !in refusing
  }

  lemma GetsToRest(clusters: map<string, Entry>, order: seq<string>, refusing: set<string>, i: nat)
    requires 0 < i < |order|
    ensures GetsTo(clusters, order, refusing, i) <==>
      (order[0] in clusters ==> order[0] !in refusing) && GetsTo(clusters, order[1..], refusing, i - 1)
  {
    var rest := order[1..];
    assert forall j :: 0 < j < |order| ==> order[j] == rest[j - 1];
    if (order[0] in clusters ==> order[0] !in refusing) && GetsTo(clusters, rest, refusing, i - 1) {
      forall j | 0 < j <= i && order[j] in clusters ensures order[j] !in refusing {
        assert rest[j - 1] == order[j];
      }
    }
    if GetsTo(clusters, order, refusing, i) {
      forall j | 0 <= j <= i - 1 && rest[j] in clusters ensures rest[j] !in refusing {
        assert order[j + 1] == rest[j];
      }
    }
  }

  /** The names are asked once each, and the clusters among them are known by different numbers. */
  ghost predicate AskedOnce(clusters: map<string, Entry>, applied: map<nat, seq<Index>>, order: seq<string>) {
    && (forall c :: c in clusters ==> clusters[c].cluster in applied)
    && (forall c, d :: c in clusters && d in clusters && clusters[c].cluster == clusters[d].cluster ==> c == d)
    && forall i, j :: 0 <= i < j < |order| ==> order[i] != order[j]
  }

  lemma IndexedOnSpares(clusters: map<string, Entry>, applied: map<nat, seq<Index>>, index: Index, order: seq<string>,
      refusing: set<string>, id: nat)
    requires AskedOnce(clusters, applied, order) && id in applied
    requires forall i :: 0 <= i < |order| && order[i] in clusters ==> clusters[order[i]].cluster != id
    ensures id in IndexedOn(clusters, applied, index, order, refusing)
            && IndexedOn(clusters, applied, index, order, refusing)[id] == applied[id]
    decreases order
  {
    if order != [] && order[0] in clusters && order[0] !in refusing {
      var own := clusters[order[0]].cluster;
      IndexedOnSpares(clusters, applied[own := applied[own] + [index]], index, order[1..], refusing, id);
    } else if order != [] && order[0] !in clusters {
      IndexedOnSpares(clusters, applied, index, order[1..], refusing, id);
    }
  }

  lemma {:induction false} IndexedOnIff(clusters: map<string, Entry>, applied: map<nat, seq<Index>>, index: Index,
      order: seq<string>, refusing: set<string>, i: nat)
    requires AskedOnce(clusters, applied, order) && i < |order| && order[i] in clusters
    ensures var after, id := IndexedOn(clusters, applied, index, order, refusing), clusters[order[i]].cluster;
      id in after && after[id]
         == if GetsTo(clusters, order, refusing, i) then applied[id] + [index] else applied[id]
    decreases order
  {
    var rest, id := order[1..], clusters[order[i]].cluster;
    assert forall j :: 0 <= j < |rest| ==> rest[j] == order[j + 1];
    if i > 0 {
      GetsToRest(clusters, order, refusing, i);
    }
    if order[0] in clusters && order[0] !in refusing {
      var own := clusters[order[0]].cluster;
      var next := applied[own := applied[own] + [index]];
      if i == 0 {
        IndexedOnSpares(clusters, next, index, rest, refusing, id);
      } else {
        IndexedOnIff(clusters, next, index, rest, refusing, i - 1);
      }
    } else if order[0] !in clusters {
      IndexedOnIff(clusters, applied, index, rest, refusing, i - 1);
    }
  }

  /** After any history, a cluster that is asked to index a new field has it indexed if and only if the host took it and
      neither this cluster nor an engaged one asked before refuses; else its fields stay what they were. */
  lemma FieldIndexedIff(opts: Options, before: seq<Event>, e: Event, i: nat)
    requires AllNamed(before) && e.FieldIndexed? && i < |e.order|
    requires forall j, k :: 0 <= j < k < |e.order| ==> e.order[j] != e.order[k]
    requires e.order[i] in Run(opts, before).clusters
    ensures var st, st' := Run(opts, before), Run(opts, before + [e]);
      var id := st.clusters[e.order[i]].cluster;
      && st'.clusters == st.clusters && st'.indexes == st.indexes + [e.index] && id in st.applied && id in st'.applied
      && st'.applied[id]
         == if e.hostOk && GetsTo(st.clusters, e.order, e.refusing, i) then st.applied[id] + [e.index]
            else st.applied[id]
  {
    var st := Run(opts, before);
    assert (before + [e])[..|before + [e]| - 1] == before;
    RunValid(opts, before);
    if e.hostOk {
      IndexedOnIff(st.clusters, st.applied, e.index, e.order, e.refusing, i);
    }
  }

  lemma FieldKeepsIndexed(opts: Options, st: State, e: Event)
    requires Valid(st) && FullyIndexed(st) && IndexSucceeds(st, e)
    ensures FullyIndexed(Apply(opts, st, e))
  {
    forall i, j | 0 <= i < j < |e.order| ensures st.clusters[e.order[i]].cluster != st.clusters[e.order[j]].cluster {
      assert e.order[i] in e.order && e.order[j] in e.order;
    }
    forall i | 0 <= i < |e.order| ensures e.order[i] in st.clusters {
      assert e.order[i] in e.order;
    }
    IndexedOnAll(st.clusters, st.applied, e.index, e.order);
  }

  lemma ClaimedKeepsIndexed(st: State, key: string, cluster: string, e: Event)
    requires Valid(st) && FullyIndexed(st) && e.Handled?
    ensures FullyIndexed(Claimed(st, key, cluster, e))
  {
    if IndexesAll(st.indexes, e.refused) {
      IndexedUntilAll(st.indexes, e.refused);
    }
  }

  lemma DisengagedKeepsIndexed(st: State, cluster: string)
    requires FullyIndexed(st)
    ensures FullyIndexed(Disengaged(st, cluster))
  {
  }

  lemma SecretKeepsIndexed(opts: Options, st: State, e: Event)
    requires Valid(st) && FullyIndexed(st) && !e.FieldIndexed? && Named(e)
    ensures FullyIndexed(Apply(opts, st, e))
  {
    match MeaningOf(opts, e)
    case Release(key) =>
      if key in st.secretCluster {
        DisengagedKeepsIndexed(st, st.secretCluster[key]);
      }
    case Claim(key, cluster) =>
      SecretDisengagedValid(st, key);
      var released := SecretDisengaged(st, key);
      if key in st.secretCluster {
        DisengagedKeepsIndexed(st, st.secretCluster[key]);
      }
      DisengagedValid(released, cluster);
      DisengagedKeepsIndexed(released, cluster);
      ClaimedKeepsIndexed(Disengaged(released, cluster), key, cluster, e);
    case Nothing =>
  }

  /** As long as no registration of a field fails, every engaged cluster has exactly the registered fields indexed,
      in order, whether it was engaged before or after their registration. */
  lemma {:induction false} RunFullyIndexed(opts: Options, history: seq<Event>)
    requires AllNamed(history) && NoIndexFails(opts, history)
    ensures FullyIndexed(Run(opts, history))
  {
    if history != [] {
      var before, e := history[..|history| - 1], history[|history| - 1];
      RunFullyIndexed(opts, before);
      RunValid(opts, before);
      if e.FieldIndexed? {
        FieldKeepsIndexed(opts, Run(opts, before), e);
      } else {
        SecretKeepsIndexed(opts, Run(opts, before), e);
      }
    }
  }
}
