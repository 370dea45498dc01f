/**
 controllers/postgrescluster_controller.go and internal/k8s CreateOrUpdate in their own form:
 methods that update the PostgresCluster in memory and call the API server. Each is proved to
 do to both exactly what the functions of ClusterModel say.
 */
module ClusterController {
  import opened Wrappers
  import opened ApiServer
  import opened ApiTypes
  import opened ClusterModel
  import Model = ClusterModel
  import Naming
  import PostgresConf

  /** The PostgresCluster the reconciler holds in memory. */
  class ClusterObject {
    var name: string
    var namespace: string
    var spec: ClusterSpec
    var phase: ClusterPhase
    var readyReplicas: int
    var currentPrimary: string
    var databaseVersion: string
    var instances: seq<InstanceStatus>
    var version: nat
    var finalizer: bool
    var deleting: bool

    ghost function Value(): Cluster
      reads this
    {
      Resource(name, namespace, spec, ClusterStatus(phase, readyReplicas, currentPrimary, databaseVersion, instances),
               version, finalizer, deleting)
    }

    constructor (c: Cluster)
      ensures Value() == c
    {
      name, namespace, spec := c.name, c.namespace, c.spec;
      phase, readyReplicas, currentPrimary := c.status.phase, c.status.readyReplicas, c.status.currentPrimary;
      databaseVersion, instances := c.status.databaseVersion, c.status.instances;
      version, finalizer, deleting := c.version, c.finalizer, c.deleting;
    }

    /** What a successful write does: the server's version replaces the one in memory. */
    method Overwrite(c: Cluster)
      modifies this
      ensures Value() == c
    {
      name, namespace, spec := c.name, c.namespace, c.spec;
      phase, readyReplicas, currentPrimary := c.status.phase, c.status.readyReplicas, c.status.currentPrimary;
      databaseVersion, instances := c.status.databaseVersion, c.status.instances;
      version, finalizer, deleting := c.version, c.finalizer, c.deleting;
    }

    method Snapshot() returns (c: Cluster)
      ensures c == Value()
    {
      c := Resource(name, namespace, spec, ClusterStatus(phase, readyReplicas, currentPrimary, databaseVersion, instances),
                    version, finalizer, deleting);
    }
  }

  /** An object about to be written; CreateOrUpdate sets its resource version in place. */
  class ManagedObject {
    const key: ObjKey
    const body: Body
    var resourceVersion: nat

    constructor (key: ObjKey, body: Body)
      ensures this.key == key && this.body == body
    {
      this.key, this.body, this.resourceVersion := key, body, 0;
    }
  }

  // ------------------------------------------------------------------ plans, one after the other

  lemma {:induction false} ApplyAppend(s: Sys, a: seq<Write>, b: seq<Write>)
    ensures ApplyWrites(s, a + b)
         == var (s1, ok) := ApplyWrites(s, a); if ok then ApplyWrites(s1, b) else (s1, false)
    decreases |a|
  {
    if a == [] {
      assert a + b == b;
    } else {
      assert (a + b)[1..] == a[1..] + b;
      var (s1, ok) := CreateOrUpdate(s, a[0]);
      if ok {
        ApplyAppend(s1, a[1..], b);
      }
    }
  }

  lemma RunThen(s: Sys, p: Plan, q: Plan)
    ensures RunPlan(s, p.Then(q)) == var (s1, ok) := RunPlan(s, p); if ok then RunPlan(s1, q) else (s1, false)
  {
    if p.ok {
      ApplyAppend(s, p.writes, q.writes);
    }
  }

  lemma RunOne(s: Sys, write: Write)
    ensures RunPlan(s, Plan([write], true)) == CreateOrUpdate(s, write)
  {
    assert [write][1..] == [];
    var (s1, ok) := CreateOrUpdate(s, write);
    assert ApplyWrites(s1, []) == (s1, true);
  }

  lemma InstanceInOrder(s: Sys, c: Cluster, instance: InstanceSpec, ch: Choices)
    ensures RunPlan(s, InstancePlan(c, instance, ch))
         == (var (s1, ok) := Model.CreateOrUpdate(s, Write(ServiceKey(c.name, instance.name), ServiceFor(c, instance)));
             if ok && QuantitiesParse(c, instance, ch)
             then Model.CreateOrUpdate(s1, Write(StatefulSetKey(c.name, instance.name), StatefulSetFor(c, instance)))
             else (s1, false))
  {
    var first := Write(ServiceKey(c.name, instance.name), ServiceFor(c, instance));
    var second := Write(StatefulSetKey(c.name, instance.name), StatefulSetFor(c, instance));
    OneThenMaybe(s, first, second, QuantitiesParse(c, instance, ch));
  }

  lemma OneThenMaybe(s: Sys, first: Write, second: Write, more: bool)
    ensures RunPlan(s, Plan([first], true).Then(if more then Plan([second], true) else Plan([], false)))
         == (var (s1, ok) := Model.CreateOrUpdate(s, first);
             if ok && more then Model.CreateOrUpdate(s1, second) else (s1, false))
  {
    RunOne(s, first);
    RunThen(s, Plan([first], true), if more then Plan([second], true) else Plan([], false));
    RunOne(Model.CreateOrUpdate(s, first).0, second);
  }

  // ------------------------------------------------------------------ credentials

  /** One drawn password per user; a username listed twice keeps the last. */
  ghost function Drawn(access: seq<DatabaseAccess>, draws: seq<string>): map<string, string>
    requires |draws| >= |access|
  {
    if access == [] then map[]
    else
      var n := |access| - 1;
      Drawn(access[..n], draws[..n])[access[n].username := draws[n]]
  }

  lemma UserKeysDiffer(a: string, b: string)
    ensures UserKey(a) == UserKey(b) <==> a == b
  {
    if UserKey(a) == UserKey(b) {
      var n := |"user-"|;
      assert |a| == |b|;
      assert UserKey(a)[n..n + |a|] == a && UserKey(b)[n..n + |b|] == b;
    }
  }

  /** The secret's entries are the drawn passwords under the users' keys. */
  lemma {:induction false} DrawnInSecret(access: seq<DatabaseAccess>, draws: seq<string>)
    requires |draws| >= |access|
    ensures Joined(map[], Drawn(access, draws), UserPasswords(access, draws))
  {
    if access != [] {
      var n := |access| - 1;
      DrawnInSecret(access[..n], draws[..n]);
      var p, d := UserPasswords(access, draws), Drawn(access, draws);
      forall u | u in d ensures UserKey(u) in p && p[UserKey(u)] == d[u] {
        UserKeysDiffer(u, access[n].username);
      }
      forall k | k in p ensures exists u :: u in d && k == UserKey(u) {
        if k == UserKey(access[n].username) {
          assert access[n].username in d;
        } else {
          var u :| u in Drawn(access[..n], draws[..n]) && k == UserKey(u);
          assert u in d;
        }
      }
    }
  }

  function LabelsOf(cluster: string, instance: InstanceSpec): map<string, string> {
    map["app" := "postgres", "cluster" := cluster, "instance" := instance.name, "role" := instance.role]
  }

  lemma LabelsAgree(c: Cluster, instance: InstanceSpec)
    ensures LabelsOf(c.name, instance) == InstanceLabels(c, instance)
  {
  }

  class ClusterReconciler {
    const api: Server<World, EnvStep, Request, Answer>

    constructor (api: Server<World, EnvStep, Request, Answer>)
      ensures this.api == api
    {
      this.api := api;
    }

    /** internal/k8s/resources.go, lines 15-29. */
    method CreateOrUpdate(obj: ManagedObject) returns (ok: bool)
      requires api.p == API
      modifies api, obj`resourceVersion
      ensures (api.State(), ok) == Model.CreateOrUpdate(old(api.State()), Write(obj.key, obj.body))
    {
      var current := api.Call(GetObject(obj.key));
      if !current.ObjectIs? {
        if current.NotFound? {
          var a := api.Call(CreateObject(obj.key, obj.body));
          return a.Done?;
        }
        return false;
      }
      obj.resourceVersion := current.found.version;
      var a := api.Call(UpdateObject(obj.key, obj.body, obj.resourceVersion));
      ok := a.Done?;
    }

    method SetDefaults(cluster: ClusterObject)
      modifies cluster`spec
      ensures cluster.spec == Defaulted(old(cluster.spec))
    {
      var spec := cluster.spec;
      if spec.replicas == 0 { spec := spec.(replicas := 1); }
      if spec.postgresVersion == "" { spec := spec.(postgresVersion := "15"); }
      var database, storage, resources := spec.database, spec.storage, spec.resources;
      if database.name == "" { database := database.(name := "postgres"); }
      assert database == cluster.spec.database.(name := Or(cluster.spec.database.name, "postgres"));
      if storage.size == "" { storage := storage.(size := "10Gi"); }
      assert storage == cluster.spec.storage.(size := Or(cluster.spec.storage.size, "10Gi"));
      if resources.cpu == "" { resources := resources.(cpu := "500m"); }
      assert resources.cpu == Or(cluster.spec.resources.cpu, "500m");
      if resources.memory == "" { resources := resources.(memory := "1Gi"); }
      assert resources.memory == Or(cluster.spec.resources.memory, "1Gi");
      var ha, monitoring := spec.highAvailability, spec.monitoring;
      if ha.failoverTimeout == 0 { ha := ha.(failoverTimeout := 30); }
      if monitoring.enabled && monitoring.port == 0 { monitoring := monitoring.(port := 9187); }
      cluster.spec := spec.(
        database := database, storage := storage, resources := resources, highAvailability := ha, monitoring := monitoring);
    }

    method ReconcileConfigMap(cluster: ClusterObject, ch: Choices) returns (ok: bool)
      requires api.p == API && Fair(ch)
      modifies api
      ensures (api.State(), ok) == RunPlan(old(api.State()), ConfigMapPlan(cluster.Value(), ch))
    {
      var text := PostgresConf.GeneratePostgresConfig(
        cluster.spec.highAvailability, cluster.spec.instances, Orders(ch, cluster.spec.instances));
      var configMap := new ManagedObject(ObjKey(ConfigMap, ConfigName(cluster.name)), ConfigMapBody(text));
      RunOne(api.State(), Write(configMap.key, configMap.body));
      ok := CreateOrUpdate(configMap);
    }

    /** Lines 205-212: a password for each access entry, until none can be drawn. */
    method DrawPasswords(access: seq<DatabaseAccess>, draws: seq<string>) returns (dbUsers: Option<map<string, string>>)
      ensures dbUsers == if |draws| < |access| then None else Some(Drawn(access, draws))
    {
      var users: map<string, string> := map[];
      var i := 0;
      while i < |access|
        invariant 0 <= i <= |access| && i <= |draws|
        invariant users == Drawn(access[..i], draws[..i])
      {
        if i == |draws| { return None; }
        users := users[access[i].username := draws[i]];
        assert access[..i + 1][..i] == access[..i] && draws[..i + 1][..i] == draws[..i];
        i := i + 1;
      }
      assert access[..i] == access;
      DrawnPrefix(access, draws);
      return Some(users);
    }

    /** Lines 225-227: the users' passwords join the secret, in whatever order. */
    method AddUsers(fixed: map<string, string>, dbUsers: map<string, string>) returns (data: map<string, string>)
      requires forall u: string :: UserKey(u) !in fixed
      ensures Joined(fixed, dbUsers, data)
    {
      data := fixed;
      var rest := dbUsers.Keys;
      while rest != {}
        invariant rest <= dbUsers.Keys
        invariant forall k | k in fixed :: k in data && data[k] == fixed[k]
        invariant forall u | u in dbUsers && u !in rest :: UserKey(u) in data && data[UserKey(u)] == dbUsers[u]
        invariant forall k | k in data :: k in fixed || exists u :: u in dbUsers && k == UserKey(u)
        decreases |rest|
      {
        var u :| u in rest;
        forall v | v in dbUsers && v !in rest ensures UserKey(v) != UserKey(u) {
          UserKeysDiffer(u, v);
        }
        data := data[UserKey(u) := dbUsers[u]];
        rest := rest - {u};
      }
    }

    method ReconcileSecret(cluster: ClusterObject, ch: Choices) returns (ok: bool)
      requires api.p == API
      modifies api
      ensures (api.State(), ok) == RunPlan(old(api.State()), SecretPlan(cluster.Value(), ch))
    {
      if |ch.draws| < 2 { return false; }
      var dbUsers := DrawPasswords(cluster.spec.database.access, ch.draws[2..]);
      if dbUsers.None? { return false; }
      var fixed := map["postgres-password" := ch.draws[0], "replication-password" := ch.draws[1]];
      NoUserKey();
      var data := AddUsers(fixed, dbUsers.value);
      SameSecret(cluster.spec.database.access, ch.draws, data);
      var secret := new ManagedObject(ObjKey(Secret, CredentialsName(cluster.name)), SecretBody(data));
      RunOne(api.State(), Write(secret.key, secret.body));
      ok := CreateOrUpdate(secret);
    }

    method ReconcileInstance(cluster: ClusterObject, instance: InstanceSpec, ch: Choices) returns (ok: bool)
      requires api.p == API
      modifies api
      ensures (api.State(), ok) == RunPlan(old(api.State()), InstancePlan(cluster.Value(), instance, ch))
    {
      var c := cluster.Snapshot();
      InstanceInOrder(api.State(), c, instance, ch);
      var service := new ManagedObject(ServiceKey(c.name, instance.name), ServiceFor(c, instance));
      ok := CreateOrUpdate(service);
      if !ok { return; }
      if !QuantitiesParse(c, instance, ch) { return false; }
      var statefulSet := new ManagedObject(StatefulSetKey(c.name, instance.name), StatefulSetFor(c, instance));
      ok := CreateOrUpdate(statefulSet);
    }

    method ReconcileInstances(cluster: ClusterObject, ch: Choices) returns (ok: bool)
      requires api.p == API
      modifies api
      ensures (api.State(), ok) == RunPlan(old(api.State()), InstancesPlan(cluster.Value(), cluster.spec.instances, ch))
    {
      ghost var start, c := api.State(), cluster.Value();
      var instances := cluster.spec.instances;
      assert instances[0..] == instances;
      var i := 0;
      while i < |instances|
        invariant 0 <= i <= |instances|
        invariant RunPlan(api.State(), InstancesPlan(c, instances[i..], ch)) == RunPlan(start, InstancesPlan(c, instances, ch))
      {
        RunThen(api.State(), InstancePlan(c, instances[i], ch), InstancesPlan(c, instances[i + 1..], ch));
        assert instances[i..][1..] == instances[i + 1..];
        ok := ReconcileInstance(cluster, instances[i], ch);
        if !ok { return; }
        i := i + 1;
      }
      ok := true;
    }

    method ReconcileMonitoring(cluster: ClusterObject) returns (ok: bool)
      requires api.p == API
      modifies api
      ensures cluster.spec.monitoring.enabled ==>
        (api.State(), ok) == RunPlan(old(api.State()), MonitoringPlan(cluster.Value()))
    {
      if !cluster.spec.monitoring.prometheus { return true; }
      var c := cluster.Snapshot();
      var service := new ManagedObject(MetricsKey(c.name), MetricsFor(c));
      RunOne(api.State(), Write(service.key, service.body));
      ok := CreateOrUpdate(service);
    }

    method ReconcileCluster(cluster: ClusterObject, ch: Choices) returns (ok: bool)
      requires api.p == API && Fair(ch)
      modifies api
      ensures (api.State(), ok) == RunPlan(old(api.State()), ClusterPlan(cluster.Value(), ch))
    {
      ghost var start, c := api.State(), cluster.Value();
      ghost var p1, p2, p3, p4 := ConfigMapPlan(c, ch), SecretPlan(c, ch), InstancesPlan(c, c.spec.instances, ch), MonitoringPlan(c);
      RunThen(start, p1, p2);
      RunThen(start, p1.Then(p2), p3);
      RunThen(start, p1.Then(p2).Then(p3), p4);
      ok := ReconcileConfigMap(cluster, ch);
      if !ok { return; }
      ok := ReconcileSecret(cluster, ch);
      if !ok { return; }
      ok := ReconcileInstances(cluster, ch);
      if !ok { return; }
      if cluster.spec.monitoring.enabled {
        ok := ReconcileMonitoring(cluster);
      }
    }

    /** One turn of the first loop of updateStatus, on what the read of the StatefulSet has said. */
    method Inspect(cluster: ClusterObject, instance: InstanceSpec, a: Answer, total: int)
      returns (status: InstanceStatus, newTotal: int)
      modifies cluster`currentPrimary
      ensures forall c: Cluster, statuses | c.name == cluster.name ::
        Gather(c, instance, if a.ObjectIs? then Some(a.found.ready) else None, Gathered(statuses, total, old(cluster.currentPrimary)))
        == Gathered(statuses + [status], newTotal, cluster.currentPrimary)
    {
      var instanceName := Naming.ResourceName(cluster.name, instance.name);
      status := InstanceStatus(instance.name, instance.role, 0, "", LabelsOf(cluster.name, instance));
      newTotal := total;
      forall c: Cluster | c.name == cluster.name ensures LabelsOf(cluster.name, instance) == InstanceLabels(c, instance) {
        LabelsAgree(c, instance);
      }
      if a.ObjectIs? {
        status := status.(readyReplicas := a.found.ready);
        newTotal := Int32(total + a.found.ready);
        if instance.role == "primary" && a.found.ready > 0 {
          status := status.(currentLeader := instanceName + "-0");
          cluster.currentPrimary := status.currentLeader;
        }
      }
    }

    /** The first loop of updateStatus: what each StatefulSet says goes into the status. */
    method GatherInstances(cluster: ClusterObject) returns (total: int)
      requires api.p == API
      modifies api, cluster`instances, cluster`currentPrimary
      ensures GatherFrom(old(api.State()), old(cluster.Value()), 0, Gathered([], 0, old(cluster.currentPrimary)))
           == (api.State(), Gathered(cluster.instances, total, cluster.currentPrimary))
    {
      ghost var start, c := api.State(), cluster.Value();
      cluster.instances := [];
      total := 0;
      var i := 0;
      while i < |cluster.spec.instances|
        invariant 0 <= i <= |cluster.spec.instances|
        invariant GatherFrom(api.State(), c, i, Gathered(cluster.instances, total, cluster.currentPrimary))
               == GatherFrom(start, c, 0, Gathered([], 0, c.status.currentPrimary))
      {
        var instance := cluster.spec.instances[i];
        var a := api.Call(GetObject(StatefulSetKey(cluster.name, instance.name)));
        var status;
        status, total := Inspect(cluster, instance, a, total);
        cluster.instances := cluster.instances + [status];
        i := i + 1;
      }
    }

    /** The second loop of updateStatus. */
    method ExpectedReplicas(instances: seq<InstanceSpec>) returns (expected: int)
      ensures expected == Expected(instances)
    {
      expected := 0;
      var i := 0;
      while i < |instances|
        invariant 0 <= i <= |instances|
        invariant expected == Expected(instances[..i])
      {
        assert instances[..i + 1][..i] == instances[..i];
        if instances[i].replicas.Some? {
          expected := Int32(expected + instances[i].replicas.value);
        } else {
          expected := Int32(expected + 1);
        }
        i := i + 1;
      }
      assert instances[..i] == instances;
    }

    /** The rest of updateStatus before the status is sent. */
    method FillStatus(cluster: ClusterObject, total: int)
      modifies cluster`readyReplicas, cluster`phase, cluster`databaseVersion
      ensures cluster.Value() == old(cluster.Value()).(
        status := StatusFor(old(cluster.Value()), Gathered(cluster.instances, total, cluster.currentPrimary)))
    {
      var expected := ExpectedReplicas(cluster.spec.instances);
      cluster.readyReplicas := total;
      if total == expected {
        cluster.phase := ClusterRunning;
      } else if total > 0 {
        cluster.phase := Degraded;
      } else {
        cluster.phase := ClusterPending;
      }
      cluster.databaseVersion := cluster.spec.postgresVersion;
    }

    method UpdateStatus(cluster: ClusterObject) returns (ok: bool)
      requires api.p == API
      modifies api, cluster
      ensures (api.State(), ok) == ReportStatus(old(api.State()), old(cluster.Value()))
    {
      ghost var c := cluster.Value();
      var total := GatherInstances(cluster);
      ghost var g := Gathered(cluster.instances, total, cluster.currentPrimary);
      FillStatus(cluster, total);
      var sent := cluster.Snapshot();
      assert sent == c.(status := StatusFor(c, g));
      var a := api.Call(Request.UpdateStatus(sent));
      ok := a.ClusterIs?;
    }

    /** Deletes one object; one that is not there is as good as deleted. */
    method Delete(key: ObjKey) returns (ok: bool)
      requires api.p == API
      modifies api
      ensures var (s, a) := Call(old(api.State()), DeleteObject(key)); api.State() == s && ok == (a.Done? || a.NotFound?)
    {
      var a := api.Call(DeleteObject(key));
      ok := a.Done? || a.NotFound?;
    }

    method DeleteInstances(cluster: ClusterObject) returns (ok: bool)
      requires api.p == API
      modifies api
      ensures (api.State(), ok) == DeleteAll(old(api.State()), InstanceKeys(cluster.name, cluster.spec.instances))
    {
      ghost var start := api.State();
      var name, instances := cluster.name, cluster.spec.instances;
      assert instances[0..] == instances;
      var i := 0;
      while i < |instances|
        invariant 0 <= i <= |instances|
        invariant DeleteAll(api.State(), InstanceKeys(name, instances[i..])) == DeleteAll(start, InstanceKeys(name, instances))
      {
        DeleteTwo(api.State(), name, instances[i..]);
        assert instances[i..][1..] == instances[i + 1..];
        ok := Delete(StatefulSetKey(name, instances[i].name));
        if !ok { return; }
        ok := Delete(ServiceKey(name, instances[i].name));
        if !ok { return; }
        i := i + 1;
      }
      ok := true;
    }

    method HandleDeletion(cluster: ClusterObject) returns (outcome: Outcome)
      requires api.p == API
      modifies api, cluster`finalizer
      ensures (api.State(), outcome) == Model.HandleDeletion(old(api.State()), old(cluster.Value()))
    {
      ghost var start, c := api.State(), cluster.Value();
      DeletedInOrder(start, c);
      var ok := DeleteInstances(cluster);
      if !ok { return Failing; }
      ok := Delete(ObjKey(ConfigMap, ConfigName(cluster.name)));
      if !ok { return Failing; }
      ok := Delete(ObjKey(Secret, CredentialsName(cluster.name)));
      if !ok { return Failing; }
      cluster.finalizer := false;
      var sent := cluster.Snapshot();
      var a := api.Call(UpdateCluster(sent));
      return if a.ClusterIs? then Settled else Failing;
    }

    /** Lines 63-96. */
    method ReconcileObject(cluster: ClusterObject, ch: Choices) returns (outcome: Outcome)
      requires api.p == API && Fair(ch)
      modifies api, cluster
      ensures (api.State(), outcome) == ReconcileFound(old(api.State()), old(cluster.Value()), ch)
    {
      if cluster.deleting {
        outcome := HandleDeletion(cluster);
        return;
      }
      SetDefaults(cluster);
      if |cluster.spec.instances| == 0 {
        cluster.spec := cluster.spec.(instances := [
          InstanceSpec("primary", Some(cluster.spec.replicas), "primary", Some(cluster.spec.storage),
                       Some(cluster.spec.resources), Some(cluster.spec.database), map[])]);
        var sent := cluster.Snapshot();
        var a := api.Call(UpdateCluster(sent));
        return if a.ClusterIs? then RequeueNow else Failing;
      }
      var ok := ReconcileCluster(cluster, ch);
      if !ok { return Failing; }
      ok := UpdateStatus(cluster);
      return if ok then RequeueLater else Failing;
    }

    method Reconcile(ch: Choices) returns (outcome: Outcome)
      requires api.p == API && Fair(ch)
      modifies api
      ensures (api.State(), outcome) == Model.Reconcile(old(api.State()), ch)
    {
      var got := api.Call(GetCluster);
      if !got.ClusterIs? {
        return if got.NotFound? then Settled else Failing;
      }
      var cluster := new ClusterObject(got.cluster);
      if !cluster.finalizer {
        cluster.finalizer := true;
        var sent := cluster.Snapshot();
        var a := api.Call(UpdateCluster(sent));
        if !a.ClusterIs? { return Failing; }
        cluster.Overwrite(a.cluster);
      }
      outcome := ReconcileObject(cluster, ch);
    }
  }

  // ------------------------------------------------------------------ steps of the loops

  lemma {:induction false} DrawnPrefix(access: seq<DatabaseAccess>, draws: seq<string>)
    requires |draws| >= |access|
    ensures Drawn(access, draws[..|access|]) == Drawn(access, draws)
  {
    if access != [] {
      var n := |access| - 1;
      assert draws[..|access|][..n] == draws[..n];
    }
  }

  lemma NoUserKey()
    ensures forall u: string :: UserKey(u) != "postgres-password" && UserKey(u) != "replication-password"
  {
    forall u: string ensures UserKey(u) != "postgres-password" && UserKey(u) != "replication-password" {
      assert UserKey(u)[0] == 'u';
    }
  }

  lemma SameSecret(access: seq<DatabaseAccess>, draws: seq<string>, data: map<string, string>)
    requires |draws| >= 2 + |access|
    requires Joined(map["postgres-password" := draws[0], "replication-password" := draws[1]], Drawn(access, draws[2..]), data)
    ensures data == SecretData(access, draws)
  {
    NoUserKey();
    DrawnInSecret(access, draws[2..]);
    var fixed := map["postgres-password" := draws[0], "replication-password" := draws[1]];
    SameUnion(fixed, UserPasswords(access, draws[2..]), Drawn(access, draws[2..]), data);
  }

  /** The fixed entries and one entry for each user. */
  ghost predicate Joined(fixed: map<string, string>, users: map<string, string>, data: map<string, string>) {
    && (forall k | k in fixed :: k in data && data[k] == fixed[k])
    && (forall u | u in users :: UserKey(u) in data && data[UserKey(u)] == users[u])
    && (forall k | k in data :: k in fixed || exists u :: u in users && k == UserKey(u))
  }

  lemma SameUnion(fixed: map<string, string>, p: map<string, string>, users: map<string, string>, data: map<string, string>)
    requires Joined(fixed, users, data) && Joined(map[], users, p)
    requires forall u: string :: UserKey(u) !in fixed
    ensures data == fixed + p
  {
    forall k | k in data ensures k in fixed + p && (fixed + p)[k] == data[k] {
      if k !in fixed {
        var u :| u in users && k == UserKey(u);
      }
    }
    forall k | k in fixed + p ensures k in data {
    }
  }

  lemma {:induction false} DeleteAppend(s: Sys, a: seq<ObjKey>, b: seq<ObjKey>)
    ensures DeleteAll(s, a + b) == var (s1, ok) := DeleteAll(s, a); if ok then DeleteAll(s1, b) else (s1, false)
    decreases |a|
  {
    if a == [] {
      assert a + b == b;
    } else {
      assert (a + b)[1..] == a[1..] + b;
      var (s1, answer) := Call(s, DeleteObject(a[0]));
      if answer.Done? || answer.NotFound? {
        DeleteAppend(s1, a[1..], b);
      }
    }
  }

  /** The requests after the loop of handleDeletion. */
  lemma DeletedInOrder(s: Sys, c: Cluster)
    ensures DeleteAll(s, DeletedKeys(c))
         == (var (s1, ok) := DeleteAll(s, InstanceKeys(c.name, c.spec.instances));
             if ok then DeleteBoth(s1, ObjKey(ConfigMap, ConfigName(c.name)), ObjKey(Secret, CredentialsName(c.name)))
             else (s1, false))
  {
    var k1, k2 := ObjKey(ConfigMap, ConfigName(c.name)), ObjKey(Secret, CredentialsName(c.name));
    DeleteAppend(s, InstanceKeys(c.name, c.spec.instances), [k1, k2]);
    BothInOrder(DeleteAll(s, InstanceKeys(c.name, c.spec.instances)).0, k1, k2);
  }

  ghost function DeleteBoth(s: Sys, k1: ObjKey, k2: ObjKey): (Sys, bool) {
    var (s1, a1) := Call(s, DeleteObject(k1));
    if !(a1.Done? || a1.NotFound?) then (s1, false)
    else
      var (s2, a2) := Call(s1, DeleteObject(k2));
      (s2, a2.Done? || a2.NotFound?)
  }

  lemma BothInOrder(s: Sys, k1: ObjKey, k2: ObjKey)
    ensures DeleteAll(s, [k1, k2]) == DeleteBoth(s, k1, k2)
  {
    assert [k1, k2][1..] == [k2] && [k2][1..] == [];
    var (s1, a1) := Call(s, DeleteObject(k1));
    var (s2, a2) := Call(s1, DeleteObject(k2));
    assert DeleteAll(s2, []) == (s2, true);
  }

  lemma DeleteTwo(s: Sys, cluster: string, instances: seq<InstanceSpec>)
    requires instances != []
    ensures DeleteAll(s, InstanceKeys(cluster, instances))
         == (var (s1, ok) := DeleteBoth(s, StatefulSetKey(cluster, instances[0].name), ServiceKey(cluster, instances[0].name));
             if ok then DeleteAll(s1, InstanceKeys(cluster, instances[1..])) else (s1, false))
  {
    var k1, k2 := StatefulSetKey(cluster, instances[0].name), ServiceKey(cluster, instances[0].name);
    DeleteAppend(s, [k1, k2], InstanceKeys(cluster, instances[1..]));
    BothInOrder(s, k1, k2);
  }
}
