/**
 What a cluster's status says: when the sums behind the phase tell the truth, and where the
 recorded primary comes from.
 */
module ClusterReport {
  import opened Wrappers
  import opened ApiServer
  import opened ApiTypes
  import opened ClusterModel
  import Naming

  // ------------------------------------------------------------------ what a pass reads

  /** The ready replicas of each StatefulSet from the i-th instance on, None if it could not be read. */
  ghost function Readings(s: Sys, c: Cluster, i: nat): (readings: seq<Option<int>>)
    requires i <= |c.spec.instances|
    ensures |readings| == |c.spec.instances| - i
    decreases |c.spec.instances| - i
  {
    if i == |c.spec.instances| then []
    else
      var (s', a) := Call(s, GetObject(StatefulSetKey(c.name, c.spec.instances[i].name)));
      [if a.ObjectIs? then Some(a.found.ready) else None] + Readings(s', c, i + 1)
  }

  function ReadyOf(reading: Option<int>): int {
    if reading.Some? then reading.value else 0
  }

  ghost function TotalReady(readings: seq<Option<int>>): int {
    if readings == [] then 0 else ReadyOf(readings[0]) + TotalReady(readings[1..])
  }

  /** The replicas an instance asks for; one if it does not say. */
  ghost function Wanted(instance: InstanceSpec): int {
    match instance.replicas
    case Some(n) => n
    case None => 1
  }

  ghost function TotalDesired(instances: seq<InstanceSpec>): int {
    if instances == [] then 0
    else TotalDesired(instances[..|instances| - 1]) + Wanted(instances[|instances| - 1])
  }

  lemma Wrap(x: int, y: int)
    ensures Int32(Int32(x) + y) == Int32(x + y)
  {
  }

  lemma {:induction false} ExpectedWraps(instances: seq<InstanceSpec>)
    ensures Expected(instances) == Int32(TotalDesired(instances))
  {
    if instances != [] {
      var n := |instances| - 1;
      ExpectedWraps(instances[..n]);
      Wrap(TotalDesired(instances[..n]), Wanted(instances[n]));
    }
  }

  lemma {:induction false} GatheredWraps(s: Sys, c: Cluster, i: nat, g: Gathered, sum: int)
    requires i <= |c.spec.instances| && g.ready == Int32(sum)
    ensures GatherFrom(s, c, i, g).1.ready == Int32(sum + TotalReady(Readings(s, c, i)))
    decreases |c.spec.instances| - i
  {
    if i < |c.spec.instances| {
      var (s', a) := Call(s, GetObject(StatefulSetKey(c.name, c.spec.instances[i].name)));
      var reading := if a.ObjectIs? then Some(a.found.ready) else None;
      Wrap(sum, ReadyOf(reading));
      GatheredWraps(s', c, i + 1, Gather(c, c.spec.instances[i], reading, g), sum + ReadyOf(reading));
      assert Readings(s, c, i)[1..] == Readings(s', c, i + 1);
    }
  }

  // ------------------------------------------------------------------ the phase

  /** Each reading next to the replicas its instance asks for. */
  ghost predicate NoneOver(instances: seq<InstanceSpec>, readings: seq<Option<int>>) {
    && |readings| == |instances|
    && forall i | 0 <= i < |instances| :: 0 <= ReadyOf(readings[i]) <= Wanted(instances[i])
  }

  ghost predicate AllReady(instances: seq<InstanceSpec>, readings: seq<Option<int>>)
    requires |readings| == |instances|
  {
    forall i | 0 <= i < |instances| :: ReadyOf(readings[i]) == Wanted(instances[i])
  }

  ghost predicate NoneReady(readings: seq<Option<int>>) {
    forall i | 0 <= i < |readings| :: ReadyOf(readings[i]) == 0
  }

  lemma {:induction false} DesiredFirst(instances: seq<InstanceSpec>)
    requires instances != []
    ensures TotalDesired(instances) == Wanted(instances[0]) + TotalDesired(instances[1..])
  {
    var n := |instances| - 1;
    if n > 0 {
      DesiredFirst(instances[..n]);
      assert instances[..n][1..] == instances[1..][..n - 1];
    } else {
      assert instances[..n] == [] && instances[1..] == [];
    }
  }

  /** Where no instance has more than it asks for, the totals compare as the instances do. */
  lemma {:induction false} TotalsCompare(instances: seq<InstanceSpec>, readings: seq<Option<int>>)
    requires NoneOver(instances, readings)
    ensures 0 <= TotalReady(readings) <= TotalDesired(instances)
    ensures TotalReady(readings) == TotalDesired(instances) <==> AllReady(instances, readings)
    ensures TotalReady(readings) == 0 <==> NoneReady(readings)
  {
    if instances != [] {
      DesiredFirst(instances);
      TotalsCompare(instances[1..], readings[1..]);
      if AllReady(instances[1..], readings[1..]) {
        assert forall i | 1 <= i < |instances| :: ReadyOf(readings[i]) == ReadyOf(readings[1..][i - 1]) == Wanted(instances[1..][i - 1]);
      } else {
        var i :| 0 <= i < |instances| - 1 && ReadyOf(readings[1..][i]) != Wanted(instances[1..][i]);
        assert ReadyOf(readings[i + 1]) != Wanted(instances[i + 1]);
      }
      if NoneReady(readings[1..]) {
        assert forall i | 1 <= i < |readings| :: ReadyOf(readings[i]) == ReadyOf(readings[1..][i - 1]);
      } else {
        var i :| 0 <= i < |readings| - 1 && ReadyOf(readings[1..][i]) != 0;
        assert ReadyOf(readings[i + 1]) != 0;
      }
    }
  }

  /** The phase a pass reports after its reads. */
  ghost function ReportedPhase(s: Sys, c: Cluster): ClusterPhase {
    StatusFor(c, GatherFrom(s, c, 0, Gathered([], 0, c.status.currentPrimary)).1).phase
  }

  lemma PhaseOfTotals(s: Sys, c: Cluster)
    ensures ReportedPhase(s, c) == PhaseOf(Int32(TotalReady(Readings(s, c, 0))), Int32(TotalDesired(c.spec.instances)))
  {
    GatheredWraps(s, c, 0, Gathered([], 0, c.status.currentPrimary), 0);
    ExpectedWraps(c.spec.instances);
  }

  lemma Int32Agree(x: int, y: int)
    ensures Int32(x) == Int32(y) <==> (x - y) % 0x1_0000_0000 == 0
    ensures 0 <= x < 0x8000_0000 ==> Int32(x) == x
  {
  }

  /** Whatever the readings, the phase is Running exactly when the totals agree modulo 2^32. */
  lemma RunningComparesTotals(s: Sys, c: Cluster)
    ensures ReportedPhase(s, c) == ClusterRunning
       <==> (TotalReady(Readings(s, c, 0)) - TotalDesired(c.spec.instances)) % 0x1_0000_0000 == 0
  {
    PhaseOfTotals(s, c);
    Int32Agree(TotalReady(Readings(s, c, 0)), TotalDesired(c.spec.instances));
  }

  /**
   Where no instance has more ready replicas than it asks for and the sum fits an int32, the
   phase is Running exactly when every instance is ready, Pending exactly when some are wanted
   and none is ready, and Degraded in between.
   */
  lemma PhaseIsSound(s: Sys, c: Cluster)
    requires NoneOver(c.spec.instances, Readings(s, c, 0)) && TotalDesired(c.spec.instances) < 0x8000_0000
    ensures var all := AllReady(c.spec.instances, Readings(s, c, 0));
            var none := NoneReady(Readings(s, c, 0));
            && (ReportedPhase(s, c) == ClusterRunning <==> all)
            && (ReportedPhase(s, c) == Degraded <==> !all && !none)
            && (ReportedPhase(s, c) == ClusterPending <==> !all && none)
  {
    var readings := Readings(s, c, 0);
    PhaseOfTotals(s, c);
    TotalsCompare(c.spec.instances, readings);
    Int32Agree(TotalReady(readings), TotalDesired(c.spec.instances));
    Int32Agree(TotalDesired(c.spec.instances), TotalReady(readings));
  }

  /** One instance has a replica too many, another none: the sums agree, and the phase is Running. */
  lemma OneMasksAnother(s: Sys, c: Cluster, a: InstanceSpec, b: InstanceSpec)
    requires c.spec.instances == [a, b] && Wanted(a) == 1 && Wanted(b) == 1
    requires Readings(s, c, 0) == [Some(2), Some(0)]
    ensures ReportedPhase(s, c) == ClusterRunning && !AllReady(c.spec.instances, Readings(s, c, 0))
  {
    RunningComparesTotals(s, c);
    assert TotalDesired([a, b]) == 2 by {
      DesiredFirst([a, b]);
      assert [a, b][1..] == [b] && [b][..0] == [];
    }
    assert TotalReady([Some(2), Some(0)]) == 2 by {
      assert [Some(2), Some(0)][1..] == [Some(0)];
    }
    assert ReadyOf([Some(2), Some(0)][1]) == 0;
  }

  /** The StatefulSets report two ready replicas and none, as after the first has been scaled down to one. */
  function MaskingScript(c: Cluster, a: InstanceSpec, b: InstanceSpec): seq<Turn<EnvStep>> {
    [Turn([ReadyChanged(Naming.ResourceName(c.name, a.name), 2), ReadyChanged(Naming.ResourceName(c.name, b.name), 0)], Served),
     Turn([], Served)]
  }

  lemma MaskingMoves(s: Sys, a: string, b: string, rest: seq<Turn<EnvStep>>)
    requires ObjKey(StatefulSet, a) in s.world.objects && ObjKey(StatefulSet, b) in s.world.objects && a != b
    requires s.script == [Turn([ReadyChanged(a, 2), ReadyChanged(b, 0)], Served)] + rest
    ensures var (s', answer) := Call(s, GetObject(ObjKey(StatefulSet, a)));
            && answer.ObjectIs? && answer.found.ready == 2 && s'.script == rest
            && ObjKey(StatefulSet, b) in s'.world.objects && s'.world.objects[ObjKey(StatefulSet, b)].ready == 0
  {
    var env := [ReadyChanged(a, 2), ReadyChanged(b, 0)];
    var s0 := s.(script := s.script[1..]);
    var s1 := s0.Become(Move(s0.world, env[0]));
    var s2 := s1.Become(Move(s1.world, env[1]));
    assert env[1..] == [env[1]] && env[1..][1..] == [];
    assert Drift(API, s2, []) == s2;
    assert Drift(API, s1, env[1..]) == s2;
    assert Drift(API, s0, env) == s2;
    assert s.script[1..] == rest;
  }

  /** So wherever both StatefulSets exist, a pass may find them so, and report Running. */
  lemma MaskingSession(w: World, c: Cluster, a: InstanceSpec, b: InstanceSpec)
    requires c.spec.instances == [a, b] && Wanted(a) == 1 && Wanted(b) == 1 && a.name != b.name
    requires StatefulSetKey(c.name, a.name) in w.objects && StatefulSetKey(c.name, b.name) in w.objects
    ensures var s := Session([], w, MaskingScript(c, a, b));
            && Readings(s, c, 0) == [Some(2), Some(0)]
            && ReportedPhase(s, c) == ClusterRunning && !AllReady(c.spec.instances, Readings(s, c, 0))
  {
    var s := Session([], w, MaskingScript(c, a, b));
    var first, second := Naming.ResourceName(c.name, a.name), Naming.ResourceName(c.name, b.name);
    Naming.ResourceNameInjective(c.name, a.name, b.name);
    assert s.script == [s.script[0]] + [Turn([], Served)];
    MaskingMoves(s, first, second, [Turn([], Served)]);
    var s1 := Call(s, GetObject(ObjKey(StatefulSet, first))).0;
    CalmExchange(API, s1, GetObject(ObjKey(StatefulSet, second)));
    var s2 := Call(s1, GetObject(ObjKey(StatefulSet, second))).0;
    assert Readings(s2, c, 2) == [];
    assert Readings(s1, c, 1) == [Some(0)];
    assert Readings(s, c, 0) == [Some(2), Some(0)];
    OneMasksAnother(s, c, a, b);
  }

  // ------------------------------------------------------------------ the primary, in one pass

  ghost predicate Leads(instance: InstanceSpec, reading: Option<int>) {
    instance.role == "primary" && ReadyOf(reading) > 0
  }

  /** The first pod of an instance's StatefulSet. */
  function FirstPod(cluster: string, instance: InstanceSpec): string {
    Naming.ResourceName(cluster, instance.name) + "-0"
  }

  ghost function LastLeader(cluster: string, instances: seq<InstanceSpec>, readings: seq<Option<int>>, before: string): string
    requires |readings| == |instances|
  {
    if instances == [] then before
    else
      var here := if Leads(instances[0], readings[0]) then FirstPod(cluster, instances[0]) else before;
      LastLeader(cluster, instances[1..], readings[1..], here)
  }

  /** A pass records the first pod of the last ready primary in the list, or keeps what it read. */
  lemma {:induction false} LastLeaderIsLast(cluster: string, instances: seq<InstanceSpec>, readings: seq<Option<int>>, before: string)
    requires |readings| == |instances|
    ensures var p := LastLeader(cluster, instances, readings, before);
            || (p == before && forall i | 0 <= i < |instances| :: !Leads(instances[i], readings[i]))
            || exists i :: 0 <= i < |instances| && Leads(instances[i], readings[i]) && p == FirstPod(cluster, instances[i])
                 && forall j | i < j < |instances| :: !Leads(instances[j], readings[j])
  {
    if instances != [] {
      var here := if Leads(instances[0], readings[0]) then FirstPod(cluster, instances[0]) else before;
      LastLeaderIsLast(cluster, instances[1..], readings[1..], here);
      assert forall i | 0 <= i < |instances| - 1 :: instances[1..][i] == instances[i + 1] && readings[1..][i] == readings[i + 1];
      if forall i | 0 <= i < |instances| - 1 :: !Leads(instances[1..][i], readings[1..][i]) {
        assert forall i | 1 <= i < |instances| :: Leads(instances[i], readings[i]) == Leads(instances[1..][i - 1], readings[1..][i - 1]);
      } else {
        var i :| 0 <= i < |instances| - 1 && Leads(instances[1..][i], readings[1..][i])
          && LastLeader(cluster, instances, readings, before) == FirstPod(cluster, instances[1..][i])
          && forall j | i < j < |instances| - 1 :: !Leads(instances[1..][j], readings[1..][j]);
        forall j | i + 1 < j < |instances| ensures !Leads(instances[j], readings[j]) {
          assert !Leads(instances[1..][j - 1], readings[1..][j - 1]);
        }
        assert Leads(instances[i + 1], readings[i + 1]);
      }
    }
  }

  lemma {:induction false} GatheredPrimary(s: Sys, c: Cluster, i: nat, g: Gathered)
    requires i <= |c.spec.instances|
    ensures GatherFrom(s, c, i, g).1.primary == LastLeader(c.name, c.spec.instances[i..], Readings(s, c, i), g.primary)
    decreases |c.spec.instances| - i
  {
    if i < |c.spec.instances| {
      var (s', a) := Call(s, GetObject(StatefulSetKey(c.name, c.spec.instances[i].name)));
      var reading := if a.ObjectIs? then Some(a.found.ready) else None;
      GatheredPrimary(s', c, i + 1, Gather(c, c.spec.instances[i], reading, g));
      assert Readings(s, c, i)[1..] == Readings(s', c, i + 1);
      assert c.spec.instances[i..][1..] == c.spec.instances[i + 1..];
    }
  }
}
