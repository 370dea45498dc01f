/**
 The status a pass persists, field by field, and what an undisturbed pass makes of the replicas
 that are ready: a cluster whose StatefulSets are all ready is reported Running.
 */
module ClusterHealth {
  import opened Wrappers
  import opened ApiServer
  import opened ApiTypes
  import opened ClusterModel
  import opened ClusterConvergence
  import opened ClusterReport

  // ------------------------------------------------------------------ the fields

  /** A leader is the first pod of a primary that has a ready one. */
  ghost predicate InstanceReported(status: InstanceStatus, cluster: string, instance: InstanceSpec, reading: Option<int>) {
    && (status.name, status.role) == (instance.name, instance.role)
    && status.readyReplicas == (match reading case Some(n) => n case None => 0)
    && status.currentLeader == (if instance.role == "primary" && status.readyReplicas > 0
                                then cluster + "-" + instance.name + "-0" else "")
    && status.labels == map["app" := "postgres", "cluster" := cluster, "instance" := instance.name, "role" := instance.role]
  }

  ghost predicate InstancesReported(statuses: seq<InstanceStatus>, c: Cluster, readings: seq<Option<int>>) {
    && |statuses| == |c.spec.instances| == |readings|
    && forall i | 0 <= i < |statuses| :: InstanceReported(statuses[i], c.name, c.spec.instances[i], readings[i])
  }

  /** An int32 equal to the sum up to a multiple of 2^32. */
  ghost predicate Wraps(n: int, sum: int) {
    -0x8000_0000 <= n < 0x8000_0000 && (n - sum) % 0x1_0000_0000 == 0
  }

  /** Running where the totals agree modulo 2^32, else Degraded where any replica is ready, else Pending. */
  ghost predicate PhaseSays(status: ClusterStatus, ready: int, wanted: int) {
    && (status.phase == ClusterRunning <==> (ready - wanted) % 0x1_0000_0000 == 0)
    && (status.phase == Degraded <==> (ready - wanted) % 0x1_0000_0000 != 0 && status.readyReplicas > 0)
    && (status.phase == ClusterPending <==> (ready - wanted) % 0x1_0000_0000 != 0 && status.readyReplicas <= 0)
  }

  /** What a status says of a cluster whose StatefulSets have been read. */
  ghost predicate StatusSays(status: ClusterStatus, c: Cluster, readings: seq<Option<int>>) {
    && InstancesReported(status.instances, c, readings)
    && Wraps(status.readyReplicas, TotalReady(readings))
    && status.currentPrimary == LastLeader(c.name, c.spec.instances, readings, c.status.currentPrimary)
    && status.databaseVersion == c.spec.postgresVersion
    && PhaseSays(status, TotalReady(readings), TotalDesired(c.spec.instances))
  }

  lemma GatherReports(c: Cluster, instance: InstanceSpec, reading: Option<int>, g: Gathered)
    ensures var g' := Gather(c, instance, reading, g);
            |g'.statuses| == |g.statuses| + 1 && g'.statuses[..|g.statuses|] == g.statuses
            && InstanceReported(g'.statuses[|g.statuses|], c.name, instance, reading)
  {
  }

  lemma {:induction false} GatheredStatuses(s: Sys, c: Cluster, i: nat, g: Gathered, all: seq<Option<int>>)
    requires i <= |c.spec.instances| == |all| && |g.statuses| == i && all[i..] == Readings(s, c, i)
    requires forall k | 0 <= k < i :: InstanceReported(g.statuses[k], c.name, c.spec.instances[k], all[k])
    ensures InstancesReported(GatherFrom(s, c, i, g).1.statuses, c, all)
    decreases |c.spec.instances| - i
  {
    if i < |c.spec.instances| {
      var (s', a) := Call(s, GetObject(StatefulSetKey(c.name, c.spec.instances[i].name)));
      var reading := if a.ObjectIs? then Some(a.found.ready) else None;
      var g' := Gather(c, c.spec.instances[i], reading, g);
      assert Readings(s, c, i)[0] == reading && Readings(s, c, i)[1..] == Readings(s', c, i + 1);
      assert all[i] == all[i..][0] && all[i + 1..] == all[i..][1..];
      GatherReports(c, c.spec.instances[i], reading, g);
      forall k | 0 <= k < i + 1 ensures InstanceReported(g'.statuses[k], c.name, c.spec.instances[k], all[k]) {
        if k < i {
          assert g'.statuses[k] == g'.statuses[..i][k];
        }
      }
      GatheredStatuses(s', c, i + 1, g', all);
    }
  }

  lemma InstancesAreReported(s: Sys, c: Cluster)
    ensures var g := GatherFrom(s, c, 0, Gathered([], 0, c.status.currentPrimary)).1;
            && InstancesReported(g.statuses, c, Readings(s, c, 0))
            && g.primary == LastLeader(c.name, c.spec.instances, Readings(s, c, 0), c.status.currentPrimary)
  {
    var g0 := Gathered([], 0, c.status.currentPrimary);
    GatheredStatuses(s, c, 0, g0, Readings(s, c, 0));
    GatheredPrimary(s, c, 0, g0);
    assert c.spec.instances[0..] == c.spec.instances;
  }

  lemma PhaseSaysSo(status: ClusterStatus, ready: int, wanted: int)
    requires status.readyReplicas == Int32(ready) && status.phase == PhaseOf(Int32(ready), Int32(wanted))
    ensures Wraps(status.readyReplicas, ready) && PhaseSays(status, ready, wanted)
  {
    Int32Agree(ready, wanted);
  }

  lemma PhaseIsReported(s: Sys, c: Cluster)
    ensures var status := StatusFor(c, GatherFrom(s, c, 0, Gathered([], 0, c.status.currentPrimary)).1);
            && Wraps(status.readyReplicas, TotalReady(Readings(s, c, 0)))
            && PhaseSays(status, TotalReady(Readings(s, c, 0)), TotalDesired(c.spec.instances))
  {
    GatheredWraps(s, c, 0, Gathered([], 0, c.status.currentPrimary), 0);
    ExpectedWraps(c.spec.instances);
    PhaseSaysSo(StatusFor(c, GatherFrom(s, c, 0, Gathered([], 0, c.status.currentPrimary)).1),
                TotalReady(Readings(s, c, 0)), TotalDesired(c.spec.instances));
  }

  lemma StatusForSays(s: Sys, c: Cluster)
    ensures StatusSays(StatusFor(c, GatherFrom(s, c, 0, Gathered([], 0, c.status.currentPrimary)).1), c, Readings(s, c, 0))
  {
    InstancesAreReported(s, c);
    PhaseIsReported(s, c);
  }

  /** Whatever happens meanwhile, a report that is accepted is persisted, and says what was read. */
  lemma ReportSays(s: Sys, c: Cluster)
    requires ReportStatus(s, c).1
    ensures var w' := ReportStatus(s, c).0.world; w'.cluster.Some? && StatusSays(w'.cluster.value.status, c, Readings(s, c, 0))
  {
    StatusForSays(s, c);
    var (s', g) := GatherFrom(s, c, 0, Gathered([], 0, c.status.currentPrimary));
    assert Call(s', UpdateStatus(c.(status := StatusFor(c, g)))).1.ClusterIs?;
  }

  // ------------------------------------------------------------------ undisturbed passes

  /** The ready replicas of a StatefulSet; none if it does not exist yet. */
  ghost function ReadyNow(w: World, cluster: string, instance: InstanceSpec): int {
    var k := ObjKey(StatefulSet, cluster + "-" + instance.name);
    if k in w.objects then w.objects[k].ready else 0
  }

  /** Writing objects does not make replicas ready or unready. */
  ghost predicate SameReadiness(w: World, w': World) {
    && w'.cluster == w.cluster
    && forall k | k in w'.objects :: w'.objects[k].ready == if k in w.objects then w.objects[k].ready else 0
  }

  lemma CalmWriteReadiness(s: Sys, write: Write)
    requires Calm(s.script) && |s.script| >= 2
    ensures var s' := CreateOrUpdate(s, write).0;
            SameReadiness(s.world, s'.world) && s.world.objects.Keys <= s'.world.objects.Keys
  {
    CalmExchange(API, s, GetObject(write.key));
    var (s1, current) := Call(s, GetObject(write.key));
    if current.ObjectIs? {
      CalmExchange(API, s1, UpdateObject(write.key, write.body, current.found.version));
    } else {
      CalmExchange(API, s1, CreateObject(write.key, write.body));
    }
  }

  lemma {:induction false} CalmWritesReadiness(s: Sys, writes: seq<Write>)
    requires Calm(s.script) && |s.script| >= 2 * |writes|
    ensures var s' := ApplyWrites(s, writes).0;
            SameReadiness(s.world, s'.world) && s.world.objects.Keys <= s'.world.objects.Keys
    decreases |writes|
  {
    if writes != [] {
      CalmWrite(s, writes[0]);
      CalmWriteReadiness(s, writes[0]);
      CalmWritesReadiness(CreateOrUpdate(s, writes[0]).0, writes[1..]);
    }
  }

  ghost predicate AllExist(w: World, c: Cluster) {
    forall i | 0 <= i < |c.spec.instances| :: ObjKey(StatefulSet, c.name + "-" + c.spec.instances[i].name) in w.objects
  }

  lemma {:induction false} CalmReadings(s: Sys, c: Cluster, i: nat)
    requires i <= |c.spec.instances| && Calm(s.script) && |s.script| >= |c.spec.instances| - i && AllExist(s.world, c)
    ensures forall k | i <= k < |c.spec.instances| :: Readings(s, c, i)[k - i] == Some(ReadyNow(s.world, c.name, c.spec.instances[k]))
    decreases |c.spec.instances| - i
  {
    if i < |c.spec.instances| {
      var q := GetObject(StatefulSetKey(c.name, c.spec.instances[i].name));
      CalmExchange(API, s, q);
      var s' := Call(s, q).0;
      CalmReadings(s', c, i + 1);
      assert ObjKey(StatefulSet, c.name + "-" + c.spec.instances[i].name) in s.world.objects;
      assert Readings(s, c, i)[1..] == Readings(s', c, i + 1);
    }
  }

  lemma {:induction false} LastInstanceOf(instances: seq<InstanceSpec>, i: nat)
    requires i < |instances|
    ensures LastInstance(instances, instances[i].name).Some?
  {
    if i > 0 {
      LastInstanceOf(instances[1..], i - 1);
    }
  }

  lemma RenderedExist(w: World, c: Cluster)
    requires Rendered(w, c)
    ensures AllExist(w, c)
  {
    forall i | 0 <= i < |c.spec.instances| ensures ObjKey(StatefulSet, c.name + "-" + c.spec.instances[i].name) in w.objects {
      LastInstanceOf(c.spec.instances, i);
      var name := c.spec.instances[i].name;
      assert InstanceHolds(w, c, LastInstance(c.spec.instances, name).value, name);
    }
  }

  /** The replicas of each instance that are ready in the store, in the spec's order. */
  ghost function Readiness(w: World, c: Cluster): (readings: seq<Option<int>>)
    ensures |readings| == |c.spec.instances|
  {
    seq(|c.spec.instances|, i requires 0 <= i < |c.spec.instances| => Some(ReadyNow(w, c.name, c.spec.instances[i])))
  }

  lemma SameReadings(s: Sys, c: Cluster, w: World)
    requires Calm(s.script) && |s.script| >= |c.spec.instances| && AllExist(s.world, c) && SameReadiness(w, s.world)
    ensures Readings(s, c, 0) == Readiness(w, c)
  {
    CalmReadings(s, c, 0);
    forall i | 0 <= i < |c.spec.instances| ensures Readings(s, c, 0)[i] == Readiness(w, c)[i] {
      assert Readings(s, c, 0)[i - 0] == Some(ReadyNow(s.world, c.name, c.spec.instances[i]));
    }
  }

  /** The persisted status tells how the StatefulSets stood when the pass began. */
  ghost predicate Reported(w': World, w: World, c: Cluster) {
    w'.cluster.Some? && StatusSays(w'.cluster.value.status, c, Readiness(w, c))
  }

  lemma CalmSpecReports(s: Sys, c: Cluster, ch: Choices)
    requires Fair(ch) && Calm(s.script) && s.world.cluster == Some(c) && !c.deleting && c.spec.instances != []
    requires Realizable(Intended(c), ch) && |s.script| >= Calls(c) - 2
    ensures Reported(ReconcileSpec(s, c, ch).0.world, s.world, Intended(c))
  {
    var d := Intended(c);
    assert d == c.(spec := Defaulted(c.spec));
    var plan := ClusterPlan(d, ch);
    PlanOk(d, ch);
    CalmUndisturbed(s.script);
    CalmWrites(s, plan.writes);
    CalmWritesReadiness(s, plan.writes);
    RunPlanConverges(s, d, ch);
    var s1 := RunPlan(s, plan).0;
    RenderedExist(s1.world, d);
    SameReadings(s1, d, s.world);
    CalmReport(s1, d);
    ReportSays(s1, d);
  }

  /** From any store, an undisturbed pass reports the replicas it found ready, of every instance of the spec. */
  lemma CalmPassReports(s: Sys, ch: Choices)
    requires Fair(ch) && Calm(s.script) && s.world.cluster.Some?
    requires var c := s.world.cluster.value;
             && !c.deleting && c.spec.instances != []
             && Realizable(Intended(c), ch) && |s.script| >= Calls(c)
    ensures Reported(Reconcile(s, ch).0.world, s.world, Intended(s.world.cluster.value))
  {
    var c := s.world.cluster.value;
    CalmExchange(API, s, GetCluster);
    var s1 := Call(s, GetCluster).0;
    if c.finalizer {
      CalmSpecReports(s1, c, ch);
    } else {
      CalmExchange(API, s1, UpdateCluster(c.(finalizer := true)));
      var (s2, a) := Call(s1, UpdateCluster(c.(finalizer := true)));
      RealizableSame(Intended(c), Intended(a.cluster), ch);
      CalmSpecReports(s2, a.cluster, ch);
      assert Intended(a.cluster).(finalizer := c.finalizer, version := c.version) == Intended(c);
      ReportedAlike(Reconcile(s, ch).0.world, s.world, s2.world, Intended(c), Intended(a.cluster));
    }
  }

  lemma ReportedAlike(w': World, w: World, w1: World, c: Cluster, c1: Cluster)
    requires Reported(w', w1, c1) && w1.objects == w.objects
    requires (c1.name, c1.spec, c1.status) == (c.name, c.spec, c.status)
    ensures Reported(w', w, c)
  {
    assert Readiness(w1, c1) == Readiness(w, c);
  }

  // ------------------------------------------------------------------ a cluster that is ready

  ghost predicate DistinctNames(instances: seq<InstanceSpec>) {
    forall i, j | 0 <= i < j < |instances| :: instances[i].name != instances[j].name
  }

  /** Every StatefulSet has as many ready replicas as it is told to have. */
  ghost predicate AllScaled(w: World, c: Cluster) {
    forall i | 0 <= i < |c.spec.instances| ::
      var k := ObjKey(StatefulSet, c.name + "-" + c.spec.instances[i].name);
      k in w.objects && w.objects[k].body.StatefulSetBody? && w.objects[k].ready == w.objects[k].body.replicas
  }

  lemma {:induction false} LastIsOnly(instances: seq<InstanceSpec>, i: nat)
    requires i < |instances| && DistinctNames(instances)
    ensures LastInstance(instances, instances[i].name) == Some(instances[i])
  {
    if i > 0 {
      assert forall a, b | 0 <= a < b < |instances| - 1 ::
        instances[1..][a] == instances[a + 1] && instances[1..][b] == instances[b + 1];
      LastIsOnly(instances[1..], i - 1);
    } else {
      NoneLater(instances, instances[0].name);
    }
  }

  lemma {:induction false} NoneLater(instances: seq<InstanceSpec>, name: string)
    requires instances != [] && forall i | 1 <= i < |instances| :: instances[i].name != name
    ensures LastInstance(instances[1..], name) == None
  {
    if |instances| > 1 {
      assert instances[1..][0] == instances[1];
      assert forall i | 1 <= i < |instances| - 1 :: instances[1..][i] == instances[i + 1];
      NoneLater(instances[1..], name);
    }
  }

  /** In a rendered world a StatefulSet is told to have the replicas its instance asks for. */
  lemma ScaledIsWanted(w: World, c: Cluster)
    requires Rendered(w, c) && DistinctNames(c.spec.instances)
    ensures AllScaled(w, c) <==> AllReady(c.spec.instances, Readiness(w, c))
  {
    forall i | 0 <= i < |c.spec.instances|
      ensures var k := ObjKey(StatefulSet, c.name + "-" + c.spec.instances[i].name);
              && k in w.objects && w.objects[k].body.StatefulSetBody?
              && w.objects[k].body.replicas == Wanted(c.spec.instances[i])
              && ReadyOf(Readiness(w, c)[i]) == w.objects[k].ready
    {
      LastIsOnly(c.spec.instances, i);
      assert InstanceHolds(w, c, c.spec.instances[i], c.spec.instances[i].name);
    }
  }

  lemma {:induction false} AllReadySums(instances: seq<InstanceSpec>, readings: seq<Option<int>>)
    requires |readings| == |instances| && AllReady(instances, readings)
    ensures TotalReady(readings) == TotalDesired(instances)
  {
    if instances != [] {
      assert ReadyOf(readings[0]) == Wanted(instances[0]);
      forall i | 0 <= i < |instances| - 1 ensures ReadyOf(readings[1..][i]) == Wanted(instances[1..][i]) {
        assert ReadyOf(readings[i + 1]) == Wanted(instances[i + 1]);
      }
      AllReadySums(instances[1..], readings[1..]);
      DesiredFirst(instances);
    }
  }

  /** No instance has replicas to spare, and the sum of those wanted is less than 2^32. */
  ghost predicate Fits(instances: seq<InstanceSpec>, readings: seq<Option<int>>) {
    NoneOver(instances, readings) && TotalDesired(instances) < 0x1_0000_0000
  }

  lemma PhaseOfReadings(status: ClusterStatus, c: Cluster, readings: seq<Option<int>>)
    requires StatusSays(status, c, readings)
    ensures AllReady(c.spec.instances, readings) ==> status.phase == ClusterRunning
    ensures Fits(c.spec.instances, readings) ==> (status.phase == ClusterRunning <==> AllReady(c.spec.instances, readings))
  {
    if AllReady(c.spec.instances, readings) {
      AllReadySums(c.spec.instances, readings);
    }
    if Fits(c.spec.instances, readings) {
      TotalsCompare(c.spec.instances, readings);
    }
  }

  /** Running is reported of a cluster that is ready, and where its replicas fit, of no other. */
  ghost predicate RunsIffReady(w': World, w: World, c: Cluster) {
    && w'.cluster.Some?
    && var running := w'.cluster.value.status.phase == ClusterRunning;
       && (AllScaled(w, c) ==> running)
       && (Fits(c.spec.instances, Readiness(w, c)) ==> (running <==> AllScaled(w, c)))
  }

  lemma ReportedReady(w': World, w: World, c: Cluster)
    requires Reported(w', w, c) && Rendered(w, c) && DistinctNames(c.spec.instances)
    ensures RunsIffReady(w', w, c)
  {
    ScaledIsWanted(w, c);
    PhaseOfReadings(w'.cluster.value.status, c, Readiness(w, c));
  }

  lemma IntendedReady(w': World, w: World, c: Cluster)
    requires c.spec.instances != [] && RunsIffReady(w', w, Intended(c))
    ensures RunsIffReady(w', w, c)
  {
    assert Intended(c).spec.instances == c.spec.instances;
    assert Readiness(w, Intended(c)) == Readiness(w, c);
    assert AllScaled(w, Intended(c)) <==> AllScaled(w, c);
  }

  /**
   Once the objects are as the spec asks and every StatefulSet has its replicas ready, the next
   undisturbed pass reports Running. Where no instance has replicas to spare and their sum is less
   than 2^32, it does so of no other cluster.
   */
  lemma ReadyIsReported(s: Sys, ch: Choices)
    requires Fair(ch) && Calm(s.script) && s.world.cluster.Some?
    requires var c := s.world.cluster.value;
             && !c.deleting && c.spec.instances != [] && DistinctNames(c.spec.instances)
             && Realizable(Intended(c), ch) && |s.script| >= Calls(c) && Rendered(s.world, Intended(c))
    ensures RunsIffReady(Reconcile(s, ch).0.world, s.world, s.world.cluster.value)
  {
    var c, w' := s.world.cluster.value, Reconcile(s, ch).0.world;
    CalmPassReports(s, ch);
    ReportedReady(w', s.world, Intended(c));
    IntendedReady(w', s.world, c);
  }
}
