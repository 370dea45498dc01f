/**
 Runs in which objects of the operator outlive their cluster: created, rendered by one pass, and
 deleted by the next, with or without an edit of its instances in between. The deletion goes by
 the spec it finds, and by no record of the objects.
 */
module ClusterLeftovers {
  import opened Wrappers
  import opened ApiServer
  import opened ApiTypes
  import opened ClusterModel
  import opened ClusterConvergence
  import opened ClusterDeletion
  import Naming
  import PostgresConf

  // ------------------------------------------------------------------ the pass that renders

  /** Name and finalizer stay, and the cluster is not deleted. */
  ghost predicate Stands(w: World, name: string) {
    w.cluster.Some? && w.cluster.value.name == name && w.cluster.value.finalizer && !w.cluster.value.deleting
  }

  lemma ReportStands(s: Sys, c: Cluster, name: string)
    requires Undisturbed(s.script) && Stands(s.world, name)
    ensures Stands(ReportStatus(s, c).0.world, name)
  {
    var g0 := Gathered([], 0, c.status.currentPrimary);
    GatherFrames(s, c, 0, g0);
    var (s', g) := GatherFrom(s, c, 0, g0);
    var d := Arrive(s', UpdateStatus(c.(status := StatusFor(c, g))));
  }

  lemma SpecStands(s: Sys, c: Cluster, ch: Choices, name: string)
    requires Fair(ch) && Undisturbed(s.script) && s.world.cluster == Some(c) && Stands(s.world, name) && c.spec.instances != []
    ensures Stands(ReconcileSpec(s, c, ch).0.world, name)
  {
    var d := c.(spec := Defaulted(c.spec));
    RunPlanConverges(s, d, ch);
    ReportStands(RunPlan(s, ClusterPlan(d, ch)).0, d, name);
  }

  lemma PassStands(s: Sys, ch: Choices, name: string)
    requires Fair(ch) && Calm(s.script) && |s.script| >= 2 && Fresh(s.world, name)
    requires !s.world.cluster.value.deleting && s.world.cluster.value.spec.instances != []
    ensures Stands(Reconcile(s, ch).0.world, name)
  {
    var c := s.world.cluster.value;
    CalmExchange(API, s, GetCluster);
    var s1 := Call(s, GetCluster).0;
    CalmExchange(API, s1, UpdateCluster(c.(finalizer := true)));
    var (s2, a) := Call(s1, UpdateCluster(c.(finalizer := true)));
    CalmUndisturbed(s2.script);
    SpecStands(s2, a.cluster, ch, name);
  }

  lemma {:induction false} InstanceObjectNamed(cluster: string, instances: seq<InstanceSpec>, k: ObjKey)
    requires k in InstanceObjects(cluster, instances)
    ensures exists x :: LastInstance(instances, x).Some? && (k == ServiceKey(cluster, x) || k == StatefulSetKey(cluster, x))
  {
    if k == ServiceKey(cluster, instances[0].name) || k == StatefulSetKey(cluster, instances[0].name) {
      assert LastInstance(instances, instances[0].name).Some?;
    } else {
      InstanceObjectNamed(cluster, instances[1..], k);
      var x :| LastInstance(instances[1..], x).Some? && (k == ServiceKey(cluster, x) || k == StatefulSetKey(cluster, x));
      assert LastInstance(instances, x).Some?;
    }
  }

  lemma RenderedOwned(w: World, c: Cluster, k: ObjKey)
    requires Rendered(w, c) && k in ManagedKeys(c)
    ensures Owned(w, k)
  {
    if k in InstanceObjects(c.name, c.spec.instances) {
      InstanceObjectNamed(c.name, c.spec.instances, k);
      var x :| LastInstance(c.spec.instances, x).Some? && (k == ServiceKey(c.name, x) || k == StatefulSetKey(c.name, x));
      assert InstanceHolds(w, c, LastInstance(c.spec.instances, x).value, x);
      MetricsName(c.name, x);
    }
  }

  lemma ForeignStays(w: World, w': World, k: ObjKey)
    requires Follows(w, w') && !Owned(w, k) && k !in ManagedKeys(Intended(w.cluster.value))
    ensures !Owned(w', k)
  {
    assert SameObject(w, w', k);
  }

  /** After one undisturbed pass the operator owns exactly the objects the cluster asks for. */
  lemma PassOwns(s: Sys, ch: Choices, name: string, k: ObjKey)
    requires Fair(ch) && Calm(s.script) && Fresh(s.world, name)
    requires var c := s.world.cluster.value;
             !c.deleting && c.spec.instances != [] && Realizable(Intended(c), ch) && |s.script| >= Calls(c)
    ensures var w' := Reconcile(s, ch).0.world;
            Stands(w', name) && (Owned(w', k) <==> k in ManagedKeys(Intended(s.world.cluster.value)))
  {
    CalmPassCompletes(s, ch);
    CalmUndisturbed(s.script);
    PassConverges(s, ch);
    PassStands(s, ch, name);
    if k in ManagedKeys(Intended(s.world.cluster.value)) {
      RenderedOwned(Reconcile(s, ch).0.world, Intended(s.world.cluster.value), k);
    } else {
      ForeignStays(s.world, Reconcile(s, ch).0.world, k);
    }
  }

  // ------------------------------------------------------------------ the pass that deletes

  lemma {:induction false} CalmDeletes(s: Sys, keys: seq<ObjKey>)
    requires Calm(s.script) && |s.script| >= |keys|
    ensures var (s', ok) := DeleteAll(s, keys); ok && CalmlyAfter(s, s', |keys|) && s'.world.cluster == s.world.cluster
    decreases |keys|
  {
    if keys != [] {
      CalmExchange(API, s, DeleteObject(keys[0]));
      var s1 := Call(s, DeleteObject(keys[0])).0;
      CalmDeletes(s1, keys[1..]);
      CalmlyThen(s, s1, DeleteAll(s1, keys[1..]).0, 1, |keys| - 1);
    }
  }

  /** Undisturbed deletion settles. */
  lemma CalmDeletion(s: Sys, c: Cluster)
    requires Calm(s.script) && |s.script| > |DeletedKeys(c)| && s.world.cluster == Some(c) && c.deleting
    ensures var (s', outcome) := HandleDeletion(s, c); outcome == Settled && s'.world.cluster.None?
  {
    CalmDeletes(s, DeletedKeys(c));
    CalmExchange(API, DeleteAll(s, DeletedKeys(c)).0, UpdateCluster(c.(finalizer := false)));
  }

  ghost function CalmTurns(n: nat): (script: seq<Turn<EnvStep>>)
    ensures |script| == n && Calm(script)
  {
    seq(n, _ => Turn([], Served))
  }

  /** The spec is edited and deletion requested; then nothing disturbs the pass. */
  ghost function DeletingScript(spec: ClusterSpec, n: nat): seq<Turn<EnvStep>> {
    [Turn([SpecEdited(spec), DeletionRequested], Served)] + CalmTurns(n)
  }

  lemma EditsAndDeletes(s: Sys, spec: ClusterSpec, n: nat, name: string)
    requires Stands(s.world, name) && s.script == DeletingScript(spec, n)
    ensures var (s', a) := Call(s, GetCluster);
            && s'.script == CalmTurns(n) && s'.world.objects == s.world.objects
            && a.ClusterIs? && s'.world.cluster == Some(a.cluster)
            && a.cluster.name == name && a.cluster.finalizer && a.cluster.deleting && a.cluster.spec == spec
  {
    var env := [SpecEdited(spec), DeletionRequested];
    var s0 := s.(script := s.script[1..]);
    var s1 := s0.Become(Move(s0.world, env[0]));
    var s2 := s1.Become(Move(s1.world, env[1]));
    assert env[1..] == [env[1]] && env[1..][1..] == [];
    assert Drift(API, s2, []) == s2;
    assert Drift(API, s1, env[1..]) == s2;
    assert Drift(API, s0, env) == s2;
    assert s.script[1..] == CalmTurns(n);
  }

  /** What the cluster would delete with this spec. */
  ghost function DeletedWith(c: Cluster, spec: ClusterSpec): seq<ObjKey> {
    DeletedKeys(c.(spec := spec))
  }

  lemma DeletingPass(s: Sys, ch: Choices, spec: ClusterSpec, n: nat, name: string, k: ObjKey)
    requires Fair(ch) && Stands(s.world, name) && s.script == DeletingScript(spec, n) && n > |DeletedWith(s.world.cluster.value, spec)|
    ensures var w' := Reconcile(s, ch).0.world;
            w'.cluster.None? && (Owned(w', k) <==> Owned(s.world, k) && k !in DeletedWith(s.world.cluster.value, spec))
  {
    EditsAndDeletes(s, spec, n, name);
    var (s', a) := Call(s, GetCluster);
    CalmDeletion(s', a.cluster);
    CalmUndisturbed(s'.script);
    DeletionLeavesTheRest(s', a.cluster, k);
  }

  // ------------------------------------------------------------------ the runs

  /** A cluster the operator can render at once. */
  ghost predicate Ready(w: World, name: string, ch: Choices) {
    && Fair(ch) && Fresh(w, name) && !w.cluster.value.deleting
    && w.cluster.value.spec.instances != [] && Realizable(Intended(w.cluster.value), ch)
  }

  ghost function RenderAndDelete(w: World, name: string, ch: Choices, spec: ClusterSpec): (rounds: seq<Round>)
    requires Ready(w, name, ch)
    ensures FairRounds(rounds)
  {
    [Round(CalmTurns(Calls(w.cluster.value)), ch), Round(DeletingScript(spec, |DeletedWith(w.cluster.value, spec)| + 1), ch)]
  }

  lemma TwoRounds(s: Sys, a: Round, b: Round)
    requires FairRounds([a, b])
    ensures Fair(a.choices) && Fair(b.choices)
    ensures var s1 := Reconcile(s.(script := a.script), a.choices).0;
            Run(s, [a, b]) == Reconcile(s1.(script := b.script), b.choices).0
  {
    assert [a, b][0] == a && [a, b][1] == b;
    var s1 := Reconcile(s.(script := a.script), a.choices).0;
    var s2 := Reconcile(s1.(script := b.script), b.choices).0;
    assert [a, b][1..] == [b] && [b][1..] == [];
    assert Run(s2, []) == s2;
    assert Run(s1, [b]) == s2;
  }

  /**
   From a fresh cluster: one undisturbed pass, then its spec is edited to `spec` and it is deleted,
   undisturbed again. Of the objects the first spec asks for, exactly those not on the list of
   the second outlive the cluster.
   */
  lemma LeftBehind(w: World, name: string, ch: Choices, spec: ClusterSpec, k: ObjKey)
    requires Ready(w, name, ch)
    ensures var end := Run(Session([], w, []), RenderAndDelete(w, name, ch, spec)).world;
            && end.cluster.None?
            && (Owned(end, k) <==> k in ManagedKeys(Intended(w.cluster.value)) && k !in DeletedWith(w.cluster.value, spec))
  {
    var s := Session([], w, []);
    var rounds := RenderAndDelete(w, name, ch, spec);
    var a, b := rounds[0], rounds[1];
    assert rounds == [a, b];
    TwoRounds(s, a, b);
    PassOwns(s.(script := a.script), ch, name, k);
    var s1 := Reconcile(s.(script := a.script), ch).0;
    DeletingPass(s1.(script := b.script), ch, spec, |DeletedWith(w.cluster.value, spec)| + 1, name, k);
  }

  lemma {:induction false} ListedObjects(cluster: string, instances: seq<InstanceSpec>, x: string)
    requires x in InstanceNames(instances)
    ensures StatefulSetKey(cluster, x) in InstanceObjects(cluster, instances)
    ensures ServiceKey(cluster, x) in InstanceObjects(cluster, instances)
  {
    if instances[0].name != x {
      var i :| 0 <= i < |instances| && instances[i].name == x;
      assert instances[1..][i - 1].name == x;
      ListedObjects(cluster, instances[1..], x);
    }
  }

  /** An instance listed at first and not in the end leaves both its objects behind. */
  lemma DepartedInstanceStays(w: World, name: string, ch: Choices, spec: ClusterSpec, x: string)
    requires Ready(w, name, ch)
    requires x in InstanceNames(w.cluster.value.spec.instances) && x !in InstanceNames(spec.instances)
    ensures var end := Run(Session([], w, []), RenderAndDelete(w, name, ch, spec)).world;
            end.cluster.None? && Owned(end, StatefulSetKey(name, x)) && Owned(end, ServiceKey(name, x))
  {
    ListedObjects(name, w.cluster.value.spec.instances, x);
    NotListed(w.cluster.value, spec, x);
    LeftBehind(w, name, ch, spec, StatefulSetKey(name, x));
    LeftBehind(w, name, ch, spec, ServiceKey(name, x));
  }

  lemma NotListed(c: Cluster, spec: ClusterSpec, x: string)
    requires x !in InstanceNames(spec.instances)
    ensures StatefulSetKey(c.name, x) !in DeletedWith(c, spec) && ServiceKey(c.name, x) !in DeletedWith(c, spec)
  {
    forall y: string | y in InstanceNames(spec.instances) ensures Naming.ResourceName(c.name, y) != Naming.ResourceName(c.name, x) {
      Naming.ResourceNameInjective(c.name, y, x);
    }
    InstanceKeysMember(c.name, spec.instances, StatefulSetKey(c.name, x));
    InstanceKeysMember(c.name, spec.instances, ServiceKey(c.name, x));
  }

  /** So does monitoring, also when nothing is edited, unless an instance is called "metrics" in the end. */
  lemma MetricsServiceStays(w: World, name: string, ch: Choices, spec: ClusterSpec)
    requires Ready(w, name, ch) && MetricsOn(w.cluster.value) && "metrics" !in InstanceNames(spec.instances)
    ensures var end := Run(Session([], w, []), RenderAndDelete(w, name, ch, spec)).world;
            end.cluster.None? && Owned(end, MetricsKey(name))
  {
    NotListed(w.cluster.value, spec, "metrics");
    MetricsName(name, "metrics");
    LeftBehind(w, name, ch, spec, MetricsKey(name));
  }

  // ------------------------------------------------------------------ such clusters exist

  lemma OrderExists(m: map<string, string>)
    ensures exists order :: PostgresConf.IsOrder(m, order)
  {
    var order := PostgresConf.SomeOrder(m.Keys);
    assert PostgresConf.IsOrder(m, order);
  }

  ghost function OrderOf(m: map<string, string>): (order: seq<string>)
    ensures PostgresConf.IsOrder(m, order)
  {
    OrderExists(m);
    var order :| PostgresConf.IsOrder(m, order);
    order
  }

  function Plain(name: string): InstanceSpec {
    InstanceSpec(name, None, "", None, None, None, map[])
  }

  /** A monitored cluster with these instances, as its user has just created it. */
  function Monitored(names: seq<string>): Cluster {
    Resource("c", "n",
      ClusterSpec("15", seq(|names|, i requires 0 <= i < |names| => Plain(names[i])), HASpec(false, false, 30), map[], 1,
                  StorageSpec("", "10Gi", "", []), ResourceRequirements("500m", "1Gi"), DatabaseSpec("postgres", "", []),
                  MonitoringSpec(true, true, 9187)),
      ClusterStatus(Unknown, 0, "", "", []), 0, false, false)
  }

  ghost function SomeChoices(): Choices {
    Choices((i: nat, m: map<string, string>) => OrderOf(m), ["a", "b"], {"500m", "1Gi", "10Gi"})
  }

  /** Of the instances x and y, x is removed before the cluster is deleted. */
  lemma LeftoversExist() returns (w: World, rounds: seq<Round>)
    ensures w == World(Some(Monitored(["x", "y"])), map[]) && Fresh(w, "c") && FairRounds(rounds)
    ensures var end := Run(Session([], w, []), rounds).world;
            && end.cluster.None?
            && Owned(end, StatefulSetKey("c", "x")) && Owned(end, ServiceKey("c", "x")) && Owned(end, MetricsKey("c"))
  {
    w := World(Some(Monitored(["x", "y"])), map[]);
    var ch, spec := SomeChoices(), Monitored(["y"]).spec;
    assert Ready(w, "c", ch);
    rounds := RenderAndDelete(w, "c", ch, spec);
    assert w.cluster.value.spec.instances[0].name == "x" && "x"[0] != "y"[0] && |"metrics"| != |"y"|;
    DepartedInstanceStays(w, "c", ch, spec, "x");
    MetricsServiceStays(w, "c", ch, spec);
  }
}
