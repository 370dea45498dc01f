/**
 The recorded primary over whole runs: it is what it was in the beginning, or the first pod of
 an instance that some pass saw leading.

 Only the status write of a pass changes it, and what is written was gathered before from reads
 of the StatefulSets, each in some world of the trace. So a recorded primary can be traced back
 to a world in which its StatefulSet had a ready replica.
 */
module ClusterPrimary {
  import opened Wrappers
  import opened ApiServer
  import opened ApiTypes
  import opened ClusterModel
  import opened ClusterReport
  import opened ClusterRequests

  /**
   Up to now some cluster spec listed this primary instance, and later its StatefulSet had a
   ready replica.
   */
  ghost predicate Led(t: seq<World>, cluster: string, instance: InstanceSpec) {
    exists i, j :: 0 <= i <= j < |t| && Lists(t[i], cluster, instance) && HasReady(t[j], cluster, instance)
  }

  ghost predicate Lists(w: World, cluster: string, instance: InstanceSpec) {
    w.cluster.Some? && w.cluster.value.name == cluster && instance.role == "primary"
    && instance in w.cluster.value.spec.instances
  }

  ghost predicate HasReady(w: World, cluster: string, instance: InstanceSpec) {
    var k := StatefulSetKey(cluster, instance.name);
    k in w.objects && w.objects[k].ready > 0
  }

  /** Where a recorded primary comes from. */
  ghost predicate Earned(t: seq<World>, cluster: string, initial: string, primary: string) {
    primary == initial || exists instance :: Led(t, cluster, instance) && primary == FirstPod(cluster, instance)
  }

  lemma LedLater(t: seq<World>, u: seq<World>, cluster: string, instance: InstanceSpec)
    requires Led(t, cluster, instance) && |t| <= |u| && u[..|t|] == t
    ensures Led(u, cluster, instance)
  {
    var i, j :| 0 <= i <= j < |t| && Lists(t[i], cluster, instance) && HasReady(t[j], cluster, instance);
    assert u[..|t|][i] == u[i] && u[..|t|][j] == u[j];
  }

  lemma EarnedLater(t: seq<World>, u: seq<World>, cluster: string, initial: string, primary: string)
    requires Earned(t, cluster, initial, primary) && |t| <= |u| && u[..|t|] == t
    ensures Earned(u, cluster, initial, primary)
  {
    if primary != initial {
      var instance :| Led(t, cluster, instance) && primary == FirstPod(cluster, instance);
      LedLater(t, u, cluster, instance);
    }
  }

  ghost predicate Stated(t: seq<World>, cluster: string, initial: string, j: nat)
    requires j < |t|
  {
    t[j].cluster.Some? ==>
      && t[j].cluster.value.name == cluster
      && Earned(t[..j + 1], cluster, initial, t[j].cluster.value.status.currentPrimary)
  }

  ghost predicate Good(s: Sys, cluster: string, initial: string) {
    forall j | 0 <= j < |s.Trace()| :: Stated(s.Trace(), cluster, initial, j)
  }

  ghost predicate Grown(s: Sys, s': Sys) {
    |s.Trace()| <= |s'.Trace()| && s'.Trace()[..|s.Trace()|] == s.Trace()
  }

  lemma GrownTwice(s: Sys, s1: Sys, s2: Sys)
    requires Grown(s, s1) && Grown(s1, s2)
    ensures Grown(s, s2)
  {
    var n := |s.Trace()|;
    assert s2.Trace()[..|s1.Trace()|][..n] == s2.Trace()[..n];
  }

  lemma Extend(s: Sys, w: World, cluster: string, initial: string)
    requires Good(s, cluster, initial)
    requires w.cluster.Some? ==>
      w.cluster.value.name == cluster && Earned(s.Trace(), cluster, initial, w.cluster.value.status.currentPrimary)
    ensures Good(s.Become(w), cluster, initial) && Grown(s, s.Become(w))
  {
    var t, t' := s.Trace(), s.Become(w).Trace();
    assert t' == t + [w];
    forall j | 0 <= j < |t'| ensures Stated(t', cluster, initial, j) {
      if j < |t| {
        assert Stated(t, cluster, initial, j);
        assert t'[..j + 1] == t[..j + 1];
      } else {
        EarnedNow(t, t'[..j + 1], w, cluster, initial);
      }
    }
  }

  lemma EarnedNow(t: seq<World>, u: seq<World>, w: World, cluster: string, initial: string)
    requires u == t + [w]
    ensures w.cluster.Some? && Earned(t, cluster, initial, w.cluster.value.status.currentPrimary)
        ==> Earned(u, cluster, initial, w.cluster.value.status.currentPrimary)
  {
    if w.cluster.Some? && Earned(t, cluster, initial, w.cluster.value.status.currentPrimary) {
      EarnedLater(t, u, cluster, initial, w.cluster.value.status.currentPrimary);
    }
  }

  /** What the world says of the primary now. */
  lemma Now(s: Sys, cluster: string, initial: string)
    requires Good(s, cluster, initial)
    ensures s.world.cluster.Some? ==>
      && s.world.cluster.value.name == cluster
      && Earned(s.Trace(), cluster, initial, s.world.cluster.value.status.currentPrimary)
  {
    var t := s.Trace();
    assert Stated(t, cluster, initial, |t| - 1);
    assert t[..|t|] == t;
  }

  /** The cluster keeps its name and its recorded primary. */
  ghost predicate SamePrimary(w: World, w': World) {
    w'.cluster.Some? ==>
      && w.cluster.Some? && w'.cluster.value.name == w.cluster.value.name
      && w'.cluster.value.status.currentPrimary == w.cluster.value.status.currentPrimary
  }

  lemma MoveSame(w: World, e: EnvStep)
    ensures SamePrimary(w, Move(w, e))
  {
  }

  lemma {:induction false} DriftGood(s: Sys, env: seq<EnvStep>, cluster: string, initial: string)
    requires Good(s, cluster, initial)
    ensures var s' := Drift(API, s, env); Good(s', cluster, initial) && Grown(s, s')
    decreases |env|
  {
    if env != [] {
      var w := Move(s.world, env[0]);
      MoveSame(s.world, env[0]);
      Now(s, cluster, initial);
      Extend(s, w, cluster, initial);
      DriftGood(s.Become(w), env[1..], cluster, initial);
      GrownTwice(s, s.Become(w), Drift(API, s, env));
    }
  }

  lemma ServeSame(w: World, q: Request)
    requires !q.UpdateStatus?
    ensures SamePrimary(w, Serve(w, q).0)
  {
  }

  /** A status write records a primary that was earned. */
  ghost predicate Permitted(s: Sys, q: Request, cluster: string, initial: string) {
    q.UpdateStatus? ==> Earned(s.Trace(), cluster, initial, q.sent.status.currentPrimary)
  }

  lemma ServeGood(s: Sys, q: Request, cluster: string, initial: string)
    requires Good(s, cluster, initial) && Permitted(s, q, cluster, initial)
    ensures var s' := s.Become(Serve(s.world, q).0); Good(s', cluster, initial) && Grown(s, s')
  {
    var w := Serve(s.world, q).0;
    Now(s, cluster, initial);
    if !q.UpdateStatus? {
      ServeSame(s.world, q);
    }
    Extend(s, w, cluster, initial);
  }

  /** The answer tells what the world is like after the request. */
  ghost predicate Truthful(w: World, q: Request, a: Answer) {
    && (q.GetObject? && a.ObjectIs? ==> q.key in w.objects && w.objects[q.key] == a.found)
    && (a.ClusterIs? && !(q.UpdateCluster? && !q.sent.finalizer) ==> w.cluster == Some(a.cluster))
  }

  lemma CallGood(s: Sys, q: Request, cluster: string, initial: string)
    requires Good(s, cluster, initial) && Permitted(s, q, cluster, initial)
    ensures var (s', a) := Call(s, q); Good(s', cluster, initial) && Grown(s, s') && Truthful(s'.world, q, a)
  {
    if s.script != [] {
      var s0 := s.(script := s.script[1..]);
      assert s0.Trace() == s.Trace();
      DriftGood(s0, s.script[0].env, cluster, initial);
      var d := Drift(API, s0, s.script[0].env);
      if q.UpdateStatus? {
        EarnedLater(s.Trace(), d.Trace(), cluster, initial, q.sent.status.currentPrimary);
      }
      if s.script[0].reply != Refused {
        ServeGood(d, q, cluster, initial);
        GrownTwice(s, d, d.Become(Serve(d.world, q).0));
      }
    }
  }

  // ------------------------------------------------------------------ a pass

  /** The cluster in memory was once persisted, with these instances and this primary. */
  ghost predicate Read(s: Sys, c: Cluster, cluster: string, initial: string) {
    && (exists i :: 0 <= i < |s.Trace()| && Source(s.Trace()[i], c, cluster))
    && Earned(s.Trace(), cluster, initial, c.status.currentPrimary)
  }

  ghost predicate Source(w: World, c: Cluster, cluster: string) {
    w.cluster.Some? && w.cluster.value.name == cluster == c.name && w.cluster.value.spec.instances == c.spec.instances
  }

  lemma ReadLater(s: Sys, s': Sys, c: Cluster, cluster: string, initial: string)
    requires Read(s, c, cluster, initial) && Grown(s, s')
    ensures Read(s', c, cluster, initial)
  {
    var i :| 0 <= i < |s.Trace()| && Source(s.Trace()[i], c, cluster);
    assert s'.Trace()[..|s.Trace()|][i] == s'.Trace()[i];
    EarnedLater(s.Trace(), s'.Trace(), cluster, initial, c.status.currentPrimary);
  }

  lemma ReadNow(s: Sys, c: Cluster, cluster: string, initial: string)
    requires Good(s, cluster, initial) && s.world.cluster == Some(c)
    ensures Read(s, c, cluster, initial)
  {
    Now(s, cluster, initial);
    assert Source(s.Trace()[|s.Trace()| - 1], c, cluster);
  }

  /** An instance of the cluster read has a ready replica now. */
  lemma LedNow(s: Sys, c: Cluster, i: nat, cluster: string, initial: string)
    requires Read(s, c, cluster, initial) && i < |c.spec.instances|
    requires c.spec.instances[i].role == "primary" && HasReady(s.world, cluster, c.spec.instances[i])
    ensures Led(s.Trace(), cluster, c.spec.instances[i])
  {
    var k :| 0 <= k < |s.Trace()| && Source(s.Trace()[k], c, cluster);
    assert Lists(s.Trace()[k], cluster, c.spec.instances[i]);
    assert HasReady(s.Trace()[|s.Trace()| - 1], cluster, c.spec.instances[i]);
  }

  lemma {:induction false} GatherGood(s: Sys, c: Cluster, i: nat, g: Gathered, cluster: string, initial: string)
    requires Good(s, cluster, initial) && Read(s, c, cluster, initial) && i <= |c.spec.instances|
    requires Earned(s.Trace(), cluster, initial, g.primary)
    ensures var (s', g') := GatherFrom(s, c, i, g);
            Good(s', cluster, initial) && Earned(s'.Trace(), cluster, initial, g'.primary)
    decreases |c.spec.instances| - i
  {
    if i < |c.spec.instances| {
      var instance := c.spec.instances[i];
      var q := GetObject(StatefulSetKey(c.name, instance.name));
      CallGood(s, q, cluster, initial);
      var (s', a) := Call(s, q);
      ReadLater(s, s', c, cluster, initial);
      EarnedLater(s.Trace(), s'.Trace(), cluster, initial, g.primary);
      var reading := if a.ObjectIs? then Some(a.found.ready) else None;
      if Leads(instance, reading) {
        LedNow(s', c, i, cluster, initial);
      }
      GatherGood(s', c, i + 1, Gather(c, instance, reading, g), cluster, initial);
    }
  }

  lemma ReportGood(s: Sys, c: Cluster, cluster: string, initial: string)
    requires Good(s, cluster, initial) && Read(s, c, cluster, initial)
    ensures Good(ReportStatus(s, c).0, cluster, initial)
  {
    var g0 := Gathered([], 0, c.status.currentPrimary);
    GatherGood(s, c, 0, g0, cluster, initial);
    var (s', g) := GatherFrom(s, c, 0, g0);
    CallGood(s', UpdateStatus(c.(status := StatusFor(c, g))), cluster, initial);
  }

  lemma {:induction false} IssuedGood(s: Sys, qs: seq<Request>, m: Manner, cluster: string, initial: string)
    requires Good(s, cluster, initial) && AllOf(qs, Of(m))
    ensures var s' := Issued(API, s, qs); Good(s', cluster, initial) && Grown(s, s')
    decreases |qs|
  {
    if qs != [] {
      CallGood(s, qs[0], cluster, initial);
      var s1 := Call(s, qs[0]).0;
      IssuedGood(s1, qs[1..], m, cluster, initial);
      GrownTwice(s, s1, Issued(API, s, qs));
    }
  }

  lemma IssuesGood(s: Sys, s': Sys, m: Manner, cluster: string, initial: string)
    requires Good(s, cluster, initial) && Issues(API, s, s', Of(m))
    ensures Good(s', cluster, initial) && Grown(s, s')
  {
    var qs :| AllOf(qs, Of(m)) && Issued(API, s, qs) == s';
    IssuedGood(s, qs, m, cluster, initial);
  }

  lemma SpecGood(s: Sys, c: Cluster, ch: Choices, cluster: string, initial: string)
    requires Fair(ch) && Good(s, cluster, initial) && Read(s, c, cluster, initial)
    ensures Good(ReconcileSpec(s, c, ch).0, cluster, initial)
  {
    var d := c.(spec := Defaulted(c.spec));
    if d.spec.instances == [] {
      CallGood(s, UpdateCluster(d.(spec := WithInstances(d.spec))), cluster, initial);
    } else {
      var writes := ClusterPlan(d, ch).writes;
      var keys := set i | 0 <= i < |writes| :: writes[i].key;
      WritesIssue(s, writes, Writing(keys));
      var (s1, ok) := RunPlan(s, ClusterPlan(d, ch));
      IssuesGood(s, s1, Writing(keys), cluster, initial);
      ReadLater(s, s1, c, cluster, initial);
      assert Read(s1, d, cluster, initial) by {
        var k :| 0 <= k < |s1.Trace()| && Source(s1.Trace()[k], c, cluster);
        assert Source(s1.Trace()[k], d, cluster);
      }
      if ok {
        ReportGood(s1, d, cluster, initial);
      }
    }
  }

  lemma FoundGood(s: Sys, c: Cluster, ch: Choices, cluster: string, initial: string)
    requires Fair(ch) && Good(s, cluster, initial) && Read(s, c, cluster, initial)
    ensures Good(ReconcileFound(s, c, ch).0, cluster, initial)
  {
    if c.deleting {
      DeletesIssue(s, DeletedKeys(c));
      IssuesGood(s, DeleteAll(s, DeletedKeys(c)).0, Deleting, cluster, initial);
      CallGood(DeleteAll(s, DeletedKeys(c)).0, UpdateCluster(c.(finalizer := false)), cluster, initial);
    } else {
      SpecGood(s, c, ch, cluster, initial);
    }
  }

  lemma PassGood(s: Sys, ch: Choices, cluster: string, initial: string)
    requires Fair(ch) && Good(s, cluster, initial)
    ensures Good(Reconcile(s, ch).0, cluster, initial)
  {
    CallGood(s, GetCluster, cluster, initial);
    var (s1, got) := Call(s, GetCluster);
    if got.ClusterIs? {
      if got.cluster.finalizer {
        ReadNow(s1, got.cluster, cluster, initial);
        FoundGood(s1, got.cluster, ch, cluster, initial);
      } else {
        var sent := got.cluster.(finalizer := true);
        CallGood(s1, UpdateCluster(sent), cluster, initial);
        var (s2, a) := Call(s1, UpdateCluster(sent));
        if a.ClusterIs? {
          ReadNow(s2, a.cluster, cluster, initial);
          FoundGood(s2, a.cluster, ch, cluster, initial);
        }
      }
    }
  }

  lemma {:induction false} RunGood(s: Sys, rounds: seq<Round>, cluster: string, initial: string)
    requires FairRounds(rounds) && Good(s, cluster, initial)
    ensures Good(Run(s, rounds), cluster, initial)
    decreases |rounds|
  {
    if rounds != [] {
      var s0 := s.(script := rounds[0].script);
      assert s0.Trace() == s.Trace();
      PassGood(s0, rounds[0].choices, cluster, initial);
      RunGood(Reconcile(s0, rounds[0].choices).0, rounds[1..], cluster, initial);
    }
  }

  /**
   Over every run, at every API call, whatever fails: the persisted primary is the initial one,
   or the first pod of an instance the spec listed as primary and that had a ready replica at
   some moment before.
   */
  lemma PrimaryEarned(w: World, rounds: seq<Round>)
    requires w.cluster.Some? && FairRounds(rounds)
    ensures var t := Run(Session([], w, []), rounds).Trace();
            forall j | 0 <= j < |t| && t[j].cluster.Some? ::
              Earned(t[..j + 1], w.cluster.value.name, w.cluster.value.status.currentPrimary, t[j].cluster.value.status.currentPrimary)
  {
    var s := Session([], w, []);
    var cluster, initial := w.cluster.value.name, w.cluster.value.status.currentPrimary;
    assert s.Trace() == [w];
    assert Good(s, cluster, initial);
    RunGood(s, rounds, cluster, initial);
    var t := Run(s, rounds).Trace();
    forall j | 0 <= j < |t| && t[j].cluster.Some?
      ensures Earned(t[..j + 1], cluster, initial, t[j].cluster.value.status.currentPrimary)
    {
      assert Stated(t, cluster, initial, j);
    }
  }
}
