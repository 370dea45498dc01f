/**
 What the cluster controller writes is what its finalizer deletes, as long as no instance name
 ever leaves the spec: over every run, at every API call.

 The invariant says of every object the operator owns that it is on the list of keys the deletion
 goes through, or is the metrics Service. A pass keeps it because the keys it may write are among
 those, and the deletion because the finalizer goes only after the last key on the list has gone.
 */
module ClusterDeletion {
  import opened Wrappers
  import opened ApiServer
  import opened ApiTypes
  import opened ClusterModel
  import opened ClusterConvergence
  import opened ClusterRequests

  // ------------------------------------------------------------------ what holds in every world

  ghost function InstanceNames(instances: seq<InstanceSpec>): set<string> {
    set i | 0 <= i < |instances| :: instances[i].name
  }

  ghost function NamesIn(w: World): set<string> {
    if w.cluster.Some? then InstanceNames(w.cluster.value.spec.instances) else {}
  }

  /** No instance name leaves the spec while there is a cluster. */
  ghost predicate Grows(t: seq<World>) {
    forall i | 0 <= i < |t| - 1 :: GrowsTo(t[i], t[i + 1])
  }

  ghost predicate GrowsTo(w: World, w': World) {
    w'.cluster.Some? ==> NamesIn(w) <= NamesIn(w')
  }

  ghost predicate Owned(w: World, k: ObjKey) {
    k in w.objects && w.objects[k].owned
  }

  /** Every object of the operator is the metrics Service or will be deleted with this cluster. */
  ghost predicate Covered(w: World, c: Cluster) {
    forall k | Owned(w, k) :: k == MetricsKey(c.name) || k in DeletedKeys(c)
  }

  ghost predicate OnlyMetricsLeft(w: World, name: string) {
    forall k | Owned(w, k) :: k == MetricsKey(name)
  }

  ghost predicate Inv(w: World, name: string) {
    && (w.cluster.None? ==> OnlyMetricsLeft(w, name))
    && (w.cluster.Some? ==> ClusterInv(w, w.cluster.value, name))
  }

  ghost predicate ClusterInv(w: World, c: Cluster, name: string) {
    c.name == name && Covered(w, c) && (!c.finalizer ==> forall k :: !Owned(w, k))
  }

  ghost predicate Good(s: Sys, name: string) {
    Grows(s.Trace()) ==> forall i | 0 <= i < |s.Trace()| :: Inv(s.Trace()[i], name)
  }

  /** What a pass knows of the cluster it has read. */
  ghost predicate Knows(w: World, c: Cluster) {
    && (c.finalizer ==> w.cluster.Some?)
    && (w.cluster.Some? ==>
          && SameOrNewer(c, w.cluster.value)
          && InstanceNames(c.spec.instances) <= InstanceNames(w.cluster.value.spec.instances))
  }

  ghost predicate KnowsStill(s: Sys, c: Cluster) {
    Grows(s.Trace()) ==> Knows(s.world, c)
  }

  // ------------------------------------------------------------------ names and keys

  lemma {:induction false} InstanceKeysMember(cluster: string, instances: seq<InstanceSpec>, k: ObjKey)
    ensures k in InstanceKeys(cluster, instances)
       <==> exists name :: name in InstanceNames(instances) && (k == StatefulSetKey(cluster, name) || k == ServiceKey(cluster, name))
  {
    if instances != [] {
      InstanceKeysMember(cluster, instances[1..], k);
      assert InstanceNames(instances) == {instances[0].name} + InstanceNames(instances[1..]) by {
        assert forall i | 1 <= i < |instances| :: instances[i] == instances[1..][i - 1];
      }
      assert InstanceKeys(cluster, instances)
          == [StatefulSetKey(cluster, instances[0].name), ServiceKey(cluster, instances[0].name)] + InstanceKeys(cluster, instances[1..]);
    }
  }

  lemma DeletedKeysGrow(c: Cluster, c': Cluster, k: ObjKey)
    requires c'.name == c.name && InstanceNames(c.spec.instances) <= InstanceNames(c'.spec.instances)
    requires k in DeletedKeys(c)
    ensures k in DeletedKeys(c')
  {
    InstanceKeysMember(c.name, c.spec.instances, k);
    InstanceKeysMember(c.name, c'.spec.instances, k);
  }

  lemma CoveredGrows(w: World, w': World, c: Cluster, c': Cluster)
    requires Covered(w, c) && c'.name == c.name && InstanceNames(c.spec.instances) <= InstanceNames(c'.spec.instances)
    requires forall k | Owned(w', k) :: Owned(w, k)
    ensures Covered(w', c')
  {
    forall k | Owned(w', k) && k in DeletedKeys(c) ensures k in DeletedKeys(c') {
      DeletedKeysGrow(c, c', k);
    }
  }

  /** What a pass may write is what the finalizer deletes, and the metrics Service. */
  lemma PlannedAreDeleted(c: Cluster, ch: Choices)
    requires Fair(ch)
    ensures forall k | k in KeysOf(ClusterPlan(c, ch).writes) :: k == MetricsKey(c.name) || k in DeletedKeys(c)
  {
    PlanKeys(c, ch);
    InstanceObjectsDeleted(c.name, c.spec.instances);
  }

  lemma {:induction false} InstanceObjectsDeleted(cluster: string, instances: seq<InstanceSpec>)
    ensures forall k | k in InstanceObjects(cluster, instances) :: k in InstanceKeys(cluster, instances)
  {
    if instances != [] {
      InstanceObjectsDeleted(cluster, instances[1..]);
    }
  }

  // ------------------------------------------------------------------ the environment

  ghost predicate Drifted(w: World, w': World) {
    && (w.cluster.None? ==> w'.cluster.None?)
    && (w.cluster.Some? && w.cluster.value.finalizer ==> w'.cluster.Some?)
    && (w.cluster.Some? && w'.cluster.Some? ==> SameOrNewer(w.cluster.value, w'.cluster.value))
    && (forall k | Owned(w', k) :: Owned(w, k))
  }

  ghost predicate SameOrNewer(c: Cluster, c': Cluster) {
    || c' == c
    || (c.version < c'.version && (c'.name, c'.finalizer) == (c.name, c.finalizer) && (c.deleting ==> c'.deleting))
  }

  lemma MoveDrifts(w: World, e: EnvStep)
    ensures Drifted(w, Move(w, e))
  {
  }

  lemma DriftedInv(w: World, w': World, name: string)
    requires Inv(w, name) && Drifted(w, w') && GrowsTo(w, w')
    ensures Inv(w', name)
  {
    if w'.cluster.Some? {
      CoveredGrows(w, w', w.cluster.value, w'.cluster.value);
    }
  }

  lemma DriftedKnows(w: World, w': World, c: Cluster)
    requires Knows(w, c) && Drifted(w, w') && GrowsTo(w, w')
    ensures Knows(w', c)
  {
  }

  lemma GrowsPrefix(s: Sys, w: World)
    requires Grows(s.Become(w).Trace())
    ensures Grows(s.Trace()) && GrowsTo(s.world, w)
  {
    var t, t' := s.Trace(), s.Become(w).Trace();
    assert t' == t + [w];
    forall i | 0 <= i < |t| - 1 ensures GrowsTo(t[i], t[i + 1]) {
      assert t'[i] == t[i] && t'[i + 1] == t[i + 1];
    }
    assert t'[|t| - 1] == s.world && t'[|t|] == w;
  }

  /** One more world, which keeps the invariant if no name has left. */
  lemma Extend(s: Sys, w: World, name: string)
    requires Good(s, name)
    requires Inv(s.world, name) && Grows(s.Become(w).Trace()) ==> Inv(w, name)
    ensures Good(s.Become(w), name)
  {
    var t, t' := s.Trace(), s.Become(w).Trace();
    assert t' == t + [w];
    if Grows(t') {
      GrowsPrefix(s, w);
      assert t[|t| - 1] == s.world;
      forall i | 0 <= i < |t'| ensures Inv(t'[i], name) {
        if i < |t| {
          assert t'[i] == t[i];
        }
      }
    }
  }

  lemma {:induction false} DriftGood(s: Sys, env: seq<EnvStep>, name: string)
    requires Good(s, name)
    ensures var s' := Drift(API, s, env);
            && Good(s', name) && s'.script == s.script
            && (forall c | KnowsStill(s, c) :: KnowsStill(s', c))
            && (forall k | Owned(s'.world, k) :: Owned(s.world, k))
    decreases |env|
  {
    if env != [] {
      var w := Move(s.world, env[0]);
      MoveDrifts(s.world, env[0]);
      if Inv(s.world, name) && Grows(s.Become(w).Trace()) {
        GrowsPrefix(s, w);
        DriftedInv(s.world, w, name);
      }
      Extend(s, w, name);
      forall c | KnowsStill(s, c) ensures KnowsStill(s.Become(w), c) {
        if Grows(s.Become(w).Trace()) {
          GrowsPrefix(s, w);
          DriftedKnows(s.world, w, c);
        }
      }
      DriftGood(s.Become(w), env[1..], name);
    }
  }

  // ------------------------------------------------------------------ requests

  /** The session in which a request is served, if it is. */
  lemma ArriveGood(s: Sys, q: Request, name: string) returns (d: Sys)
    requires Good(s, name)
    ensures Good(d, name)
    ensures forall c | KnowsStill(s, c) :: KnowsStill(d, c)
    ensures forall k | Owned(d.world, k) :: Owned(s.world, k)
    ensures var (s', a) := Call(s, q);
            var (w, b) := Serve(d.world, q);
            (s' == d && a == Unreachable) || (s' == d.Become(w) && (a == b || a == Unreachable))
  {
    d := s;
    if s.script != [] {
      var s0 := s.(script := s.script[1..]);
      assert s0.Trace() == s.Trace();
      DriftGood(s0, s.script[0].env, name);
      d := Drift(API, s0, s.script[0].env);
    }
  }

  /** How a served request may change the world while a pass knows of cluster `c`. */
  ghost predicate Allowed(w: World, w': World, c: Cluster) {
    && (Knows(w, c) && c.finalizer ==> Knows(w', c) && w'.cluster.value.spec == w.cluster.value.spec)
    && (forall k | Owned(w', k) && !Owned(w, k) :: k == MetricsKey(c.name) || k in DeletedKeys(c))
  }

  lemma AllowedInv(w: World, w': World, c: Cluster, name: string)
    requires Inv(w, name) && Allowed(w, w', c) && Knows(w, c) && c.finalizer
    ensures Inv(w', name)
  {
    var now, now' := w.cluster.value, w'.cluster.value;
    forall k | Owned(w', k) ensures k == MetricsKey(now'.name) || k in DeletedKeys(now') {
      if Owned(w, k) {
        if k in DeletedKeys(now) {
          DeletedKeysGrow(now, now', k);
        }
      } else if k in DeletedKeys(c) {
        DeletedKeysGrow(c, now', k);
      }
    }
  }

  lemma CallGood(s: Sys, q: Request, c: Cluster, name: string)
    requires Good(s, name) && KnowsStill(s, c) && c.finalizer
    requires forall w :: Allowed(w, Serve(w, q).0, c)
    ensures var s' := Call(s, q).0; Good(s', name) && KnowsStill(s', c)
  {
    var d := ArriveGood(s, q, name);
    var w := Serve(d.world, q).0;
    if Grows(d.Become(w).Trace()) {
      GrowsPrefix(d, w);
      assert Knows(d.world, c) && Allowed(d.world, w, c);
      if Inv(d.world, name) {
        AllowedInv(d.world, w, c, name);
      }
    }
    Extend(d, w, name);
  }

  lemma ReadAllowed(q: Request, c: Cluster)
    requires q.GetObject? || q.GetCluster? || q.DeleteObject?
    ensures forall w :: Allowed(w, Serve(w, q).0, c)
  {
  }

  lemma WriteAllowed(q: Request, c: Cluster)
    requires q.CreateObject? || q.UpdateObject?
    requires q.key == MetricsKey(c.name) || q.key in DeletedKeys(c)
    ensures forall w :: Allowed(w, Serve(w, q).0, c)
  {
  }

  lemma StatusAllowed(c: Cluster, sent: Cluster)
    requires sent.version == c.version
    ensures forall w :: Allowed(w, Serve(w, UpdateStatus(sent)).0, c)
  {
  }

  // ------------------------------------------------------------------ the parts of a pass

  /** What a manner of requests may do while a pass knows of cluster `c`. */
  ghost predicate Safe(m: Manner, c: Cluster) {
    m.Writing? ==> forall k | k in m.keys :: k == MetricsKey(c.name) || k in DeletedKeys(c)
  }

  lemma {:induction false} IssuedGood(s: Sys, qs: seq<Request>, m: Manner, c: Cluster, name: string)
    requires Good(s, name) && KnowsStill(s, c) && c.finalizer && AllOf(qs, Of(m)) && Safe(m, c)
    ensures Good(Issued(API, s, qs), name) && KnowsStill(Issued(API, s, qs), c)
    decreases |qs|
  {
    if qs != [] {
      if qs[0].GetObject? || qs[0].DeleteObject? {
        ReadAllowed(qs[0], c);
      } else {
        WriteAllowed(qs[0], c);
      }
      CallGood(s, qs[0], c, name);
      IssuedGood(Call(s, qs[0]).0, qs[1..], m, c, name);
    }
  }

  lemma IssuesGood(s: Sys, s': Sys, m: Manner, c: Cluster, name: string)
    requires Good(s, name) && KnowsStill(s, c) && c.finalizer && Issues(API, s, s', Of(m)) && Safe(m, c)
    ensures Good(s', name) && KnowsStill(s', c)
  {
    var qs :| AllOf(qs, Of(m)) && Issued(API, s, qs) == s';
    IssuedGood(s, qs, m, c, name);
  }

  lemma ReportGood(s: Sys, d: Cluster, c: Cluster, name: string)
    requires Good(s, name) && KnowsStill(s, c) && c.finalizer && d.version == c.version
    ensures Good(ReportStatus(s, d).0, name)
  {
    var g0 := Gathered([], 0, d.status.currentPrimary);
    GatherIssues(s, d, 0, g0);
    var (s', g) := GatherFrom(s, d, 0, g0);
    IssuesGood(s, s', Reading, c, name);
    StatusAllowed(c, d.(status := StatusFor(d, g)));
    CallGood(s', UpdateStatus(d.(status := StatusFor(d, g))), c, name);
  }

  /** An update of the cluster at the version the pass has read. */
  lemma UpdateGood(s: Sys, c: Cluster, sent: Cluster, name: string)
    requires Good(s, name) && KnowsStill(s, c) && sent.version == c.version
    requires InstanceNames(c.spec.instances) <= InstanceNames(sent.spec.instances)
    requires forall w | Inv(w, name) && w.cluster == Some(c) :: Inv(Serve(w, UpdateCluster(sent)).0, name)
    ensures var (s', a) := Call(s, UpdateCluster(sent));
            Good(s', name) && (a.ClusterIs? && sent.finalizer ==> KnowsStill(s', a.cluster) && a.cluster.finalizer)
  {
    var d := ArriveGood(s, UpdateCluster(sent), name);
    var w := Serve(d.world, UpdateCluster(sent)).0;
    if Grows(d.Become(w).Trace()) {
      GrowsPrefix(d, w);
      assert Knows(d.world, c);
    }
    Extend(d, w, name);
  }

  lemma {:induction false} WrittenKeys(writes: seq<Write>)
    ensures forall i | 0 <= i < |writes| :: writes[i].key in KeysOf(writes)
  {
    if writes != [] {
      WrittenKeys(writes[1..]);
      assert forall i | 1 <= i < |writes| :: writes[i] == writes[1..][i - 1];
    }
  }

  lemma PlannedKeys(c: Cluster, d: Cluster, ch: Choices)
    requires Fair(ch) && d.name == c.name && d.spec.instances == c.spec.instances
    ensures forall k | k in KeysOf(ClusterPlan(d, ch).writes) :: k == MetricsKey(c.name) || k in DeletedKeys(c)
  {
    PlannedAreDeleted(d, ch);
  }

  lemma SpecGood(s: Sys, c: Cluster, ch: Choices, name: string)
    requires Fair(ch) && Good(s, name) && KnowsStill(s, c) && c.finalizer
    ensures Good(ReconcileSpec(s, c, ch).0, name)
  {
    var d := c.(spec := Defaulted(c.spec));
    if d.spec.instances == [] {
      var sent := d.(spec := WithInstances(d.spec));
      forall w | Inv(w, name) && w.cluster == Some(c) ensures Inv(Serve(w, UpdateCluster(sent)).0, name) {
        var w' := Serve(w, UpdateCluster(sent)).0;
        if w'.cluster.Some? {
          CoveredGrows(w, w', c, w'.cluster.value);
        }
      }
      UpdateGood(s, c, sent, name);
    } else {
      PlannedKeys(c, d, ch);
      var writes := ClusterPlan(d, ch).writes;
      WrittenKeys(writes);
      WritesIssue(s, writes, Writing(KeysOf(writes)));
      var (s1, ok) := RunPlan(s, ClusterPlan(d, ch));
      IssuesGood(s, s1, Writing(KeysOf(writes)), c, name);
      if ok {
        ReportGood(s1, d, c, name);
      }
    }
  }

  // ------------------------------------------------------------------ deletion

  lemma DeleteGood(s: Sys, k: ObjKey, c: Cluster, name: string)
    requires Good(s, name) && KnowsStill(s, c) && c.finalizer
    ensures var (s', a) := Call(s, DeleteObject(k));
            && Good(s', name) && KnowsStill(s', c)
            && (forall k' | Owned(s'.world, k') :: Owned(s.world, k'))
            && (a.Done? || a.NotFound? ==> !Owned(s'.world, k))
  {
    ReadAllowed(DeleteObject(k), c);
    CallGood(s, DeleteObject(k), c, name);
    var d := ArriveGood(s, DeleteObject(k), name);
  }

  lemma {:induction false} DeletesGood(s: Sys, keys: seq<ObjKey>, c: Cluster, name: string)
    requires Good(s, name) && KnowsStill(s, c) && c.finalizer
    ensures var (s', ok) := DeleteAll(s, keys);
            && Good(s', name) && KnowsStill(s', c)
            && (forall k | Owned(s'.world, k) :: Owned(s.world, k))
            && (ok ==> forall k | k in keys :: !Owned(s'.world, k))
    decreases |keys|
  {
    if keys != [] {
      DeleteGood(s, keys[0], c, name);
      var (s', a) := Call(s, DeleteObject(keys[0]));
      if a.Done? || a.NotFound? {
        DeletesGood(s', keys[1..], c, name);
      }
    }
  }

  lemma DropInv(w: World, c: Cluster, name: string)
    requires Inv(w, name) && w.cluster == Some(c) && c.deleting
    requires forall k | k in DeletedKeys(c) :: !Owned(w, k)
    ensures var w' := Serve(w, UpdateCluster(c.(finalizer := false))).0; w'.cluster.None? && Inv(w', name)
  {
    var w' := Serve(w, UpdateCluster(c.(finalizer := false))).0;
    forall k | Owned(w', k) ensures k == MetricsKey(name) {
      assert Owned(w, k);
    }
  }

  /** The finalizer goes once every object of the cluster read has been deleted. */
  lemma DropGood(s: Sys, c: Cluster, name: string)
    requires Good(s, name) && KnowsStill(s, c) && c.finalizer && c.deleting
    requires forall k | k in DeletedKeys(c) :: !Owned(s.world, k)
    ensures Good(Call(s, UpdateCluster(c.(finalizer := false))).0, name)
  {
    var sent := c.(finalizer := false);
    var d := ArriveGood(s, UpdateCluster(sent), name);
    var w := Serve(d.world, UpdateCluster(sent)).0;
    if Inv(d.world, name) && Grows(d.Become(w).Trace()) {
      GrowsPrefix(d, w);
      assert Knows(d.world, c);
      if w != d.world {
        DropInv(d.world, c, name);
      }
    }
    Extend(d, w, name);
  }

  lemma HandleDeletionGood(s: Sys, c: Cluster, name: string)
    requires Good(s, name) && KnowsStill(s, c) && c.finalizer && c.deleting
    ensures Good(HandleDeletion(s, c).0, name)
  {
    DeletesGood(s, DeletedKeys(c), c, name);
    var (s', ok) := DeleteAll(s, DeletedKeys(c));
    if ok {
      DropGood(s', c, name);
    }
  }

  // ------------------------------------------------------------------ passes and runs

  lemma FoundGood(s: Sys, c: Cluster, ch: Choices, name: string)
    requires Fair(ch) && Good(s, name) && KnowsStill(s, c) && c.finalizer
    ensures Good(ReconcileFound(s, c, ch).0, name)
  {
    if c.deleting {
      HandleDeletionGood(s, c, name);
    } else {
      SpecGood(s, c, ch, name);
    }
  }

  lemma GetGood(s: Sys, name: string)
    requires Good(s, name)
    ensures var (s', a) := Call(s, GetCluster);
            Good(s', name) && (a.ClusterIs? ==> s'.world.cluster == Some(a.cluster))
  {
    var d := ArriveGood(s, GetCluster, name);
    if Grows(d.Trace()) {
      assert d.Trace()[|d.past|] == d.world;
    }
    Extend(d, d.world, name);
  }

  lemma AddInv(w: World, c: Cluster, name: string)
    requires Inv(w, name) && w.cluster == Some(c) && !c.finalizer
    ensures Inv(Serve(w, UpdateCluster(c.(finalizer := true))).0, name)
  {
    var w' := Serve(w, UpdateCluster(c.(finalizer := true))).0;
    assert forall k | Owned(w', k) :: Owned(w, k);
  }

  lemma PassGood(s: Sys, ch: Choices, name: string)
    requires Fair(ch) && Good(s, name)
    ensures Good(Reconcile(s, ch).0, name)
  {
    GetGood(s, name);
    var (s1, got) := Call(s, GetCluster);
    if got.ClusterIs? {
      var c := got.cluster;
      if c.finalizer {
        FoundGood(s1, c, ch, name);
      } else {
        var sent := c.(finalizer := true);
        forall w | Inv(w, name) && w.cluster == Some(c) ensures Inv(Serve(w, UpdateCluster(sent)).0, name) {
          AddInv(w, c, name);
        }
        UpdateGood(s1, c, sent, name);
        var (s2, a) := Call(s1, UpdateCluster(sent));
        if a.ClusterIs? {
          FoundGood(s2, a.cluster, ch, name);
        }
      }
    }
  }

  lemma {:induction false} RunGood(s: Sys, rounds: seq<Round>, name: string)
    requires FairRounds(rounds) && Good(s, name)
    ensures Good(Run(s, rounds), name)
    decreases |rounds|
  {
    if rounds != [] {
      var s0 := s.(script := rounds[0].script);
      assert s0.Trace() == s.Trace();
      PassGood(s0, rounds[0].choices, name);
      RunGood(Reconcile(s0, rounds[0].choices).0, rounds[1..], name);
    }
  }

  /** A cluster the operator has not touched, among objects it did not write. */
  ghost predicate Fresh(w: World, name: string) {
    && w.cluster.Some? && w.cluster.value.name == name && !w.cluster.value.finalizer
    && forall k :: !Owned(w, k)
  }

  /**
   Over every run in which no instance name leaves the spec, at every API call of every pass:
   while the cluster exists, each object the operator has written is among those its deletion
   removes, the metrics Service apart; once it is gone, none but that Service is left.
   */
  lemma WritesCoveredByDeletes(w: World, name: string, rounds: seq<Round>)
    requires Fresh(w, name) && FairRounds(rounds)
    ensures var t := Run(Session([], w, []), rounds).Trace();
            Grows(t) ==> forall i | 0 <= i < |t| ::
              && (t[i].cluster.Some? ==> Covered(t[i], t[i].cluster.value))
              && (t[i].cluster.None? ==> OnlyMetricsLeft(t[i], name))
  {
    var s := Session([], w, []);
    assert s.Trace() == [w];
    RunGood(s, rounds, name);
  }

  // ------------------------------------------------------------------ what deletion leaves

  /**
   Undisturbed deletion touches nothing outside its list of keys, and one that gets through the
   list leaves nothing of it.
   */
  lemma {:induction false} DeletesExactly(s: Sys, keys: seq<ObjKey>, k: ObjKey)
    requires Undisturbed(s.script)
    ensures var (s', ok) := DeleteAll(s, keys);
            && Undisturbed(s'.script)
            && (k !in keys ==> SameObject(s.world, s'.world, k))
            && (k !in s.world.objects || (ok && k in keys) ==> k !in s'.world.objects)
    decreases |keys|
  {
    if keys != [] {
      var d := Arrive(s, DeleteObject(keys[0]));
      assert SameObject(s.world, d.world, k);
      var (s', a) := Call(s, DeleteObject(keys[0]));
      if a.Done? || a.NotFound? {
        DeletesExactly(s', keys[1..], k);
      }
    }
  }

  /**
   Whatever is not on the list outlives the cluster: the objects of an instance that has left
   the spec, and the metrics Service unless an instance is called "metrics". Once the deletion
   has settled, what is left of the operator's objects is exactly that.
   */
  lemma DeletionLeavesTheRest(s: Sys, c: Cluster, k: ObjKey)
    requires Undisturbed(s.script)
    ensures var s' := HandleDeletion(s, c).0; k !in DeletedKeys(c) ==> SameObject(s.world, s'.world, k)
    ensures var (s', outcome) := HandleDeletion(s, c);
            outcome == Settled ==> (Owned(s'.world, k) <==> Owned(s.world, k) && k !in DeletedKeys(c))
    ensures MetricsKey(c.name) in DeletedKeys(c) <==> "metrics" in InstanceNames(c.spec.instances)
  {
    DeletesExactly(s, DeletedKeys(c), k);
    var (s', ok) := DeleteAll(s, DeletedKeys(c));
    if ok {
      var d := Arrive(s', UpdateCluster(c.(finalizer := false)));
      assert SameObject(s'.world, d.world, k);
    }
    MetricsListed(c);
  }

  lemma MetricsListed(c: Cluster)
    ensures MetricsKey(c.name) in DeletedKeys(c) <==> "metrics" in InstanceNames(c.spec.instances)
  {
    InstanceKeysMember(c.name, c.spec.instances, MetricsKey(c.name));
    forall x: string ensures ServiceKey(c.name, x) == MetricsKey(c.name) <==> x == "metrics" {
      MetricsName(c.name, x);
    }
  }
}
