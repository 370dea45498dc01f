/**
 Whatever earlier passes left behind, one complete pass puts every managed object in the state
 the spec asks for, and no pass touches anything else.
 */
module ClusterConvergence {
  import opened Wrappers
  import opened ApiServer
  import opened ApiTypes
  import opened ClusterModel
  import Naming
  import PostgresConf

  // ------------------------------------------------------------------ undisturbed passes

  /** During the pass the environment does no more than change how many replicas are ready. */
  ghost predicate Undisturbed(script: seq<Turn<EnvStep>>) {
    forall i | 0 <= i < |script| :: OnlyReadiness(script[i].env)
  }

  ghost predicate OnlyReadiness(env: seq<EnvStep>) {
    forall i | 0 <= i < |env| :: env[i].ReadyChanged?
  }

  /** What an object says and whether the operator wrote it; its readiness and version left out. */
  ghost function View(w: World, k: ObjKey): Option<(Body, bool)> {
    if k in w.objects then Some((w.objects[k].body, w.objects[k].owned)) else None
  }

  ghost predicate SameObject(w: World, w': World, k: ObjKey) {
    View(w', k) == View(w, k)
  }

  /** The cluster is the same, and so is every object but these, up to readiness. */
  ghost predicate Frame(w: World, w': World, keys: set<ObjKey>) {
    w'.cluster == w.cluster && forall k | k !in keys :: SameObject(w, w', k)
  }

  /** The operator has written this body last. */
  ghost predicate Holds(w: World, k: ObjKey, body: Body) {
    View(w, k) == Some((body, true))
  }

  lemma {:induction false} DriftFrames(s: Sys, env: seq<EnvStep>)
    requires OnlyReadiness(env)
    ensures var s' := Drift(API, s, env); Frame(s.world, s'.world, {}) && s'.script == s.script
    decreases |env|
  {
    if env != [] {
      var s1 := s.Become(Move(s.world, env[0]));
      assert Frame(s.world, s1.world, {});
      DriftFrames(s1, env[1..]);
    }
  }

  /** The world in which an undisturbed request is served, if it is. */
  lemma Arrive(s: Sys, q: Request) returns (d: Sys)
    requires Undisturbed(s.script)
    ensures Frame(s.world, d.world, {}) && Undisturbed(Call(s, q).0.script)
    ensures var (s', a) := Call(s, q);
            var (w, b) := Serve(d.world, q);
            (s'.world == d.world && a == Unreachable) || (s'.world == w && (a == b || a == Unreachable))
  {
    d := s;
    if s.script != [] {
      var s0 := s.(script := s.script[1..]);
      DriftFrames(s0, s.script[0].env);
      d := Drift(API, s0, s.script[0].env);
      assert Undisturbed(s.script[1..]);
    }
  }

  lemma ReadFrames(s: Sys, q: Request)
    requires Undisturbed(s.script) && (q.GetCluster? || q.GetObject?)
    ensures var (s', a) := Call(s, q);
            Frame(s.world, s'.world, {}) && Undisturbed(s'.script) && (a == Unreachable || a == Serve(s'.world, q).1)
  {
    var d := Arrive(s, q);
  }

  lemma CreateOrUpdateFrames(s: Sys, write: Write)
    requires Undisturbed(s.script)
    ensures var (s', ok) := CreateOrUpdate(s, write);
            && Frame(s.world, s'.world, {write.key}) && Undisturbed(s'.script)
            && (ok ==> Holds(s'.world, write.key, write.body))
  {
    ReadFrames(s, GetObject(write.key));
    var (s1, current) := Call(s, GetObject(write.key));
    if current.ObjectIs? {
      var d := Arrive(s1, UpdateObject(write.key, write.body, current.found.version));
    } else if current.NotFound? {
      var d := Arrive(s1, CreateObject(write.key, write.body));
    }
  }

  ghost function KeysOf(writes: seq<Write>): set<ObjKey> {
    if writes == [] then {} else {writes[0].key} + KeysOf(writes[1..])
  }

  /** The body the last write to a key leaves. */
  ghost function LastBody(writes: seq<Write>, k: ObjKey): Option<Body> {
    if writes == [] then None
    else if LastBody(writes[1..], k).Some? then LastBody(writes[1..], k)
    else if writes[0].key == k then Some(writes[0].body)
    else None
  }

  lemma {:induction false} LastBodyKeys(writes: seq<Write>, k: ObjKey)
    ensures LastBody(writes, k).Some? <==> k in KeysOf(writes)
  {
    if writes != [] {
      LastBodyKeys(writes[1..], k);
    }
  }

  /** All writes, in order: the last one to each key stays, other objects are left alone. */
  lemma {:induction false} ApplyWritesConverges(s: Sys, writes: seq<Write>)
    requires Undisturbed(s.script)
    ensures var (s', ok) := ApplyWrites(s, writes);
            && Frame(s.world, s'.world, KeysOf(writes)) && Undisturbed(s'.script)
            && (ok ==> forall k | LastBody(writes, k).Some? :: Holds(s'.world, k, LastBody(writes, k).value))
    decreases |writes|
  {
    if writes != [] {
      CreateOrUpdateFrames(s, writes[0]);
      var (s1, ok) := CreateOrUpdate(s, writes[0]);
      if ok {
        ApplyWritesConverges(s1, writes[1..]);
        var s' := ApplyWrites(s1, writes[1..]).0;
        forall k | ApplyWrites(s1, writes[1..]).1 && LastBody(writes, k).Some?
          ensures Holds(s'.world, k, LastBody(writes, k).value)
        {
          LastBodyKeys(writes[1..], k);
        }
      }
    }
  }

  // ------------------------------------------------------------------ what the plan says

  /** The last instance of that name in the list. */
  ghost function LastInstance(instances: seq<InstanceSpec>, name: string): Option<InstanceSpec> {
    if instances == [] then None
    else if LastInstance(instances[1..], name).Some? then LastInstance(instances[1..], name)
    else if instances[0].name == name then Some(instances[0])
    else None
  }

  lemma {:induction false} LastBodyAppend(a: seq<Write>, b: seq<Write>, k: ObjKey)
    ensures LastBody(a + b, k) == if LastBody(b, k).Some? then LastBody(b, k) else LastBody(a, k)
  {
    if a == [] {
      assert a + b == b;
    } else {
      assert (a + b)[1..] == a[1..] + b;
      LastBodyAppend(a[1..], b, k);
    }
  }

  ghost predicate InstanceKind(kind: Kind) {
    kind == Service || kind == StatefulSet
  }

  /** What an instance's Service or StatefulSet says. */
  ghost function BodyFor(c: Cluster, instance: InstanceSpec, kind: Kind): Body {
    if kind == Service then ServiceFor(c, instance) else StatefulSetFor(c, instance)
  }

  lemma InstanceLast(c: Cluster, instance: InstanceSpec, ch: Choices, kind: Kind, name: string)
    requires InstancePlan(c, instance, ch).ok && InstanceKind(kind)
    ensures LastBody(InstancePlan(c, instance, ch).writes, ObjKey(kind, Naming.ResourceName(c.name, name)))
         == if instance.name == name then Some(BodyFor(c, instance, kind)) else None
  {
    Naming.ResourceNameInjective(c.name, name, instance.name);
    var first := [Write(ServiceKey(c.name, instance.name), ServiceFor(c, instance))];
    var second := [Write(StatefulSetKey(c.name, instance.name), StatefulSetFor(c, instance))];
    assert InstancePlan(c, instance, ch).writes == first + second;
    LastBodyAppend(first, second, ObjKey(kind, Naming.ResourceName(c.name, name)));
  }

  /** After the loop over the instances, the last instance of each name has its way. */
  lemma {:induction false} InstancesLast(c: Cluster, instances: seq<InstanceSpec>, ch: Choices, kind: Kind, name: string)
    requires InstancesPlan(c, instances, ch).ok && InstanceKind(kind)
    ensures LastBody(InstancesPlan(c, instances, ch).writes, ObjKey(kind, Naming.ResourceName(c.name, name)))
         == if LastInstance(instances, name).Some? then Some(BodyFor(c, LastInstance(instances, name).value, kind)) else None
  {
    if instances != [] {
      InstancesLast(c, instances[1..], ch, kind, name);
      InstanceLast(c, instances[0], ch, kind, name);
      LastBodyAppend(InstancePlan(c, instances[0], ch).writes, InstancesPlan(c, instances[1..], ch).writes,
                     ObjKey(kind, Naming.ResourceName(c.name, name)));
    }
  }

  ghost predicate MetricsOn(c: Cluster) {
    c.spec.monitoring.enabled && c.spec.monitoring.prometheus
  }

  /** The Services and StatefulSets of the cluster's instances. */
  ghost function InstanceObjects(cluster: string, instances: seq<InstanceSpec>): set<ObjKey> {
    if instances == [] then {}
    else
      {ServiceKey(cluster, instances[0].name), StatefulSetKey(cluster, instances[0].name)}
      + InstanceObjects(cluster, instances[1..])
  }

  /** Every object the operator has a say in. */
  ghost function ManagedKeys(c: Cluster): set<ObjKey> {
    {ObjKey(ConfigMap, ConfigName(c.name)), ObjKey(Secret, CredentialsName(c.name))}
    + InstanceObjects(c.name, c.spec.instances)
    + if MetricsOn(c) then {MetricsKey(c.name)} else {}
  }

  lemma {:induction false} InstancesPlanKeys(c: Cluster, instances: seq<InstanceSpec>, ch: Choices)
    ensures KeysOf(InstancesPlan(c, instances, ch).writes) <= InstanceObjects(c.name, instances)
  {
    if instances != [] {
      InstancesPlanKeys(c, instances[1..], ch);
      KeysAppend(InstancePlan(c, instances[0], ch).writes, InstancesPlan(c, instances[1..], ch).writes);
      InstancePlanKeys(c, instances[0], ch);
    }
  }

  lemma InstancePlanKeys(c: Cluster, instance: InstanceSpec, ch: Choices)
    ensures KeysOf(InstancePlan(c, instance, ch).writes)
         <= {ServiceKey(c.name, instance.name), StatefulSetKey(c.name, instance.name)}
  {
    var first := [Write(ServiceKey(c.name, instance.name), ServiceFor(c, instance))];
    var second := [Write(StatefulSetKey(c.name, instance.name), StatefulSetFor(c, instance))];
    assert first[1..] == [] && second[1..] == [];
    if QuantitiesParse(c, instance, ch) {
      assert InstancePlan(c, instance, ch).writes == first + second;
      KeysAppend(first, second);
    } else {
      assert InstancePlan(c, instance, ch).writes == first;
    }
  }

  lemma {:induction false} KeysAppend(a: seq<Write>, b: seq<Write>)
    ensures KeysOf(a + b) == KeysOf(a) + KeysOf(b)
  {
    if a == [] {
      assert a + b == b;
    } else {
      assert (a + b)[1..] == a[1..] + b;
      KeysAppend(a[1..], b);
    }
  }

  lemma PlanKeys(c: Cluster, ch: Choices)
    requires Fair(ch)
    ensures KeysOf(ClusterPlan(c, ch).writes) <= ManagedKeys(c)
  {
    var p1, p2, p3, p4 := ConfigMapPlan(c, ch), SecretPlan(c, ch), InstancesPlan(c, c.spec.instances, ch), MonitoringPlan(c);
    KeysAppend(p1.writes, p2.writes);
    KeysAppend(p1.Then(p2).writes, p3.writes);
    KeysAppend(p1.Then(p2).Then(p3).writes, p4.writes);
    InstancesPlanKeys(c, c.spec.instances, ch);
    assert p1.writes[1..] == [] && (p2.writes == [] || p2.writes[1..] == []) && (p4.writes == [] || p4.writes[1..] == []);
  }

  // ------------------------------------------------------------------ one pass

  /** The cluster as a pass renders it. */
  function Intended(c: Cluster): Cluster {
    c.(spec := WithInstances(Defaulted(c.spec)))
  }

  /** Both clusters ask for the same objects. */
  ghost predicate SameIntent(c: Cluster, c': Cluster) {
    (c'.name, c'.namespace, c'.deleting, WithInstances(Defaulted(c'.spec)))
    == (c.name, c.namespace, c.deleting, WithInstances(Defaulted(c.spec)))
  }

  lemma IntentIdempotent(spec: ClusterSpec)
    ensures Defaulted(Defaulted(spec)) == Defaulted(spec)
    ensures WithInstances(Defaulted(WithInstances(Defaulted(spec)))) == WithInstances(Defaulted(spec))
  {
  }

  /** A cluster that is not being deleted, and the objects of another world that asks for the same. */
  ghost predicate Follows(w: World, w': World) {
    && w.cluster.Some? && !w.cluster.value.deleting
    && w'.cluster.Some? && SameIntent(w.cluster.value, w'.cluster.value)
    && forall k | k !in ManagedKeys(Intended(w.cluster.value)) :: SameObject(w, w', k)
  }

  ghost function SecretKeys(access: seq<DatabaseAccess>): set<string> {
    {"postgres-password", "replication-password"} + set i | 0 <= i < |access| :: UserKey(access[i].username)
  }

  ghost predicate SecretHolds(w: World, c: Cluster) {
    var k := ObjKey(Secret, c.name + "-credentials");
    && Wrote(w, k) && w.objects[k].body.SecretBody?
    && w.objects[k].body.data.Keys == SecretKeys(c.spec.database.access)
  }

  /** The text is the rendering for some order in which each instance's map was ranged over. */
  ghost predicate ConfigMapHolds(w: World, c: Cluster) {
    var k := ObjKey(ConfigMap, c.name + "-config");
    && Wrote(w, k) && w.objects[k].body.ConfigMapBody?
    && exists orders :: PostgresConf.AreOrders(c.spec.instances, orders)
         && w.objects[k].body.conf == PostgresConf.ConfigText(c.spec.highAvailability, c.spec.instances, orders)
  }

  ghost predicate InstancesHold(w: World, c: Cluster) {
    forall name | LastInstance(c.spec.instances, name).Some? :: InstanceHolds(w, c, LastInstance(c.spec.instances, name).value, name)
  }

  /** The operator has written the object last. */
  ghost predicate Wrote(w: World, k: ObjKey) {
    k in w.objects && w.objects[k].owned
  }

  /** What an instance gives for itself it has; the rest it has from the cluster. */
  ghost predicate OwnOrCluster(body: Body, c: Cluster, instance: InstanceSpec)
    requires body.StatefulSetBody?
  {
    && body.replicas == (match instance.replicas case Some(n) => n case None => 1)
    && (body.cpu, body.memory) == (match instance.resources
                                   case Some(own) => (own.cpu, own.memory)
                                   case None => (c.spec.resources.cpu, c.spec.resources.memory))
    && (body.database, body.initScript) == (match instance.database
                                            case Some(own) => (own.name, own.initScript)
                                            case None => (c.spec.database.name, c.spec.database.initScript))
    && StorageSays(body, match instance.storage case Some(own) => own case None => c.spec.storage)
  }

  ghost predicate StorageSays(body: Body, storage: StorageSpec)
    requires body.StatefulSetBody?
  {
    && body.size == storage.size
    && body.accessModes == (if storage.accessModes == [] then ["ReadWriteOnce"] else storage.accessModes)
    && body.storageClass == (if storage.storageClass == "" then None else Some(storage.storageClass))
  }

  ghost predicate StatefulSetSays(body: Body, c: Cluster, instance: InstanceSpec) {
    && body.StatefulSetBody? && OwnOrCluster(body, c, instance)
    && body.podLabels == map["app" := "postgres", "cluster" := c.name, "instance" := instance.name, "role" := instance.role]
    && body.serviceName == c.name + "-" + instance.name && body.postgresVersion == c.spec.postgresVersion
    && body.credentials == c.name + "-credentials" && body.config == c.name + "-config"
    && body.primaryHost == (if instance.role == "replica" && c.spec.highAvailability.enabled
                            then Some(c.name + "-primary." + c.namespace + ".svc.cluster.local") else None)
  }

  /** The Service selects the instance's pods by its labels; that of a primary is marked as one. */
  ghost predicate ServiceSays(body: Body, c: Cluster, instance: InstanceSpec) {
    var labels := map["app" := "postgres", "cluster" := c.name, "instance" := instance.name, "role" := instance.role];
    && body.ServiceBody? && (body.portName, body.port) == ("postgres", 5432)
    && body.selector == map["app" := "postgres", "cluster" := c.name, "instance" := instance.name]
    && body.labels == (if instance.role == "primary" then labels["primary" := "true"] else labels)
    && body.annotations == (if instance.role == "primary"
                            then map["service.alpha.kubernetes.io/tolerate-unready-endpoints" := "true"] else map[])
  }

  ghost predicate MetricsSays(body: Body, c: Cluster) {
    && body.ServiceBody? && (body.portName, body.port) == ("metrics", c.spec.monitoring.port)
    && body.selector == map["app" := "postgres", "cluster" := c.name]
    && body.labels == map["app" := "postgres", "cluster" := c.name, "monitor" := "prometheus"]
    && body.annotations == map[]
  }

  /** With monitoring on, the Service of an instance called "metrics" is the metrics Service. */
  ghost predicate InstanceHolds(w: World, c: Cluster, instance: InstanceSpec, name: string) {
    var statefulSet, service := ObjKey(StatefulSet, c.name + "-" + name), ObjKey(Service, c.name + "-" + name);
    && Wrote(w, statefulSet) && StatefulSetSays(w.objects[statefulSet].body, c, instance)
    && (!MetricsOn(c) || name != "metrics" ==> Wrote(w, service) && ServiceSays(w.objects[service].body, c, instance))
  }

  ghost predicate MetricsHold(w: World, c: Cluster) {
    var k := ObjKey(Service, c.name + "-metrics");
    Wrote(w, k) && MetricsSays(w.objects[k].body, c)
  }

  /** Every managed object is as the cluster asks. */
  ghost predicate Rendered(w: World, c: Cluster) {
    && ConfigMapHolds(w, c)
    && SecretHolds(w, c)
    && InstancesHold(w, c)
    && (MetricsOn(c) ==> MetricsHold(w, c))
  }

  lemma StatefulSetMeans(c: Cluster, instance: InstanceSpec)
    ensures StatefulSetSays(StatefulSetFor(c, instance), c, instance)
  {
  }

  lemma ServiceMeans(c: Cluster, instance: InstanceSpec)
    ensures ServiceSays(ServiceFor(c, instance), c, instance) && MetricsSays(MetricsFor(c), c)
  {
  }

  lemma {:induction false} UserPasswordsKeys(access: seq<DatabaseAccess>, draws: seq<string>)
    requires |draws| >= |access|
    ensures UserPasswords(access, draws).Keys == set i | 0 <= i < |access| :: UserKey(access[i].username)
  {
    if access != [] {
      var n := |access| - 1;
      UserPasswordsKeys(access[..n], draws[..n]);
      assert (set i | 0 <= i < |access| :: UserKey(access[i].username))
          == (set i | 0 <= i < n :: UserKey(access[..n][i].username)) + {UserKey(access[n].username)};
    }
  }

  lemma SecretDataKeys(access: seq<DatabaseAccess>, draws: seq<string>)
    requires |draws| >= 2 + |access|
    ensures SecretData(access, draws).Keys == SecretKeys(access)
  {
    UserPasswordsKeys(access, draws[2..]);
  }

  lemma MetricsName(cluster: string, name: string)
    ensures ServiceKey(cluster, name) == MetricsKey(cluster) <==> name == "metrics"
  {
    assert cluster + "-metrics" == Naming.ResourceName(cluster, "metrics");
    Naming.ResourceNameInjective(cluster, name, "metrics");
  }

  // ------------------------------------------------------------------ what a complete plan leaves

  ghost function Later(a: Option<Body>, b: Option<Body>): Option<Body> {
    if b.Some? then b else a
  }

  lemma PlanParts(c: Cluster, ch: Choices, k: ObjKey)
    requires Fair(ch) && ClusterPlan(c, ch).ok
    ensures SecretPlan(c, ch).ok && InstancesPlan(c, c.spec.instances, ch).ok
    ensures LastBody(ClusterPlan(c, ch).writes, k)
         == Later(Later(Later(LastBody(ConfigMapPlan(c, ch).writes, k), LastBody(SecretPlan(c, ch).writes, k)),
                        LastBody(InstancesPlan(c, c.spec.instances, ch).writes, k)),
                  LastBody(MonitoringPlan(c).writes, k))
  {
    var p1, p2, p3, p4 := ConfigMapPlan(c, ch), SecretPlan(c, ch), InstancesPlan(c, c.spec.instances, ch), MonitoringPlan(c);
    LastBodyAppend(p1.writes, p2.writes, k);
    LastBodyAppend(p1.Then(p2).writes, p3.writes, k);
    LastBodyAppend(p1.Then(p2).Then(p3).writes, p4.writes, k);
  }

  lemma LastOfOne(k: ObjKey, body: Body, k': ObjKey)
    ensures LastBody([Write(k, body)], k') == if k == k' then Some(body) else None
  {
    assert [Write(k, body)][1..] == [];
  }

  lemma {:induction false} InstanceObjectKinds(cluster: string, instances: seq<InstanceSpec>)
    ensures forall k | k in InstanceObjects(cluster, instances) :: InstanceKind(k.kind)
  {
    if instances != [] {
      InstanceObjectKinds(cluster, instances[1..]);
    }
  }

  lemma PlanLastOfConfigMap(c: Cluster, ch: Choices)
    requires Fair(ch) && ClusterPlan(c, ch).ok
    ensures LastBody(ClusterPlan(c, ch).writes, ObjKey(ConfigMap, ConfigName(c.name)))
         == Some(ConfigMapBody(PostgresConf.ConfigText(c.spec.highAvailability, c.spec.instances, Orders(ch, c.spec.instances))))
  {
    var k := ObjKey(ConfigMap, ConfigName(c.name));
    OnlyInstanceKeys(c, ch, k);
    LastOfOne(k, ConfigMapPlan(c, ch).writes[0].body, k);
  }

  lemma PlanLastOfSecret(c: Cluster, ch: Choices)
    requires Fair(ch) && ClusterPlan(c, ch).ok
    ensures |ch.draws| >= 2 + |c.spec.database.access|
    ensures LastBody(ClusterPlan(c, ch).writes, ObjKey(Secret, CredentialsName(c.name)))
         == Some(SecretBody(SecretData(c.spec.database.access, ch.draws)))
  {
    var k := ObjKey(Secret, CredentialsName(c.name));
    OnlyInstanceKeys(c, ch, k);
    LastOfOne(k, SecretPlan(c, ch).writes[0].body, k);
  }

  /** The loop over the instances and the monitoring write neither a ConfigMap nor a Secret. */
  lemma OnlyInstanceKeys(c: Cluster, ch: Choices, k: ObjKey)
    requires Fair(ch) && ClusterPlan(c, ch).ok && !InstanceKind(k.kind)
    ensures LastBody(ClusterPlan(c, ch).writes, k)
         == Later(LastBody(ConfigMapPlan(c, ch).writes, k), LastBody(SecretPlan(c, ch).writes, k))
    ensures SecretPlan(c, ch).ok
  {
    PlanParts(c, ch, k);
    InstancesPlanKeys(c, c.spec.instances, ch);
    InstanceObjectKinds(c.name, c.spec.instances);
    LastBodyKeys(InstancesPlan(c, c.spec.instances, ch).writes, k);
    LastOfOne(MetricsKey(c.name), MetricsFor(c), k);
  }

  lemma PlanLastOfInstance(c: Cluster, ch: Choices, kind: Kind, name: string)
    requires Fair(ch) && ClusterPlan(c, ch).ok && InstanceKind(kind)
    requires LastInstance(c.spec.instances, name).Some?
    requires kind == StatefulSet || !MetricsOn(c) || name != "metrics"
    ensures LastBody(ClusterPlan(c, ch).writes, ObjKey(kind, Naming.ResourceName(c.name, name)))
         == Some(BodyFor(c, LastInstance(c.spec.instances, name).value, kind))
  {
    var k := ObjKey(kind, Naming.ResourceName(c.name, name));
    PlanParts(c, ch, k);
    InstancesLast(c, c.spec.instances, ch, kind, name);
    MetricsName(c.name, name);
    LastOfOne(MetricsKey(c.name), MetricsFor(c), k);
  }

  lemma PlanLastOfMetrics(c: Cluster, ch: Choices)
    requires Fair(ch) && ClusterPlan(c, ch).ok && MetricsOn(c)
    ensures LastBody(ClusterPlan(c, ch).writes, MetricsKey(c.name)) == Some(MetricsFor(c))
  {
    PlanParts(c, ch, MetricsKey(c.name));
    LastOfOne(MetricsKey(c.name), MetricsFor(c), MetricsKey(c.name));
  }

  /** All writes of a complete plan have landed: every managed object is as the cluster asks. */
  lemma PlanRenders(w: World, c: Cluster, ch: Choices)
    requires Fair(ch) && ClusterPlan(c, ch).ok
    requires forall k | LastBody(ClusterPlan(c, ch).writes, k).Some? :: Holds(w, k, LastBody(ClusterPlan(c, ch).writes, k).value)
    ensures Rendered(w, c)
  {
    PlanLastOfConfigMap(c, ch);
    PlanLastOfSecret(c, ch);
    SecretDataKeys(c.spec.database.access, ch.draws);
    if MetricsOn(c) {
      PlanLastOfMetrics(c, ch);
      assert Holds(w, MetricsKey(c.name), MetricsFor(c));
    }
    forall name | LastInstance(c.spec.instances, name).Some?
      ensures InstanceHolds(w, c, LastInstance(c.spec.instances, name).value, name)
    {
      var instance := LastInstance(c.spec.instances, name).value;
      StatefulSetMeans(c, instance);
      ServiceMeans(c, instance);
      PlanLastOfInstance(c, ch, StatefulSet, name);
      assert Holds(w, StatefulSetKey(c.name, name), StatefulSetFor(c, instance));
      if !MetricsOn(c) || name != "metrics" {
        PlanLastOfInstance(c, ch, Service, name);
        assert Holds(w, ServiceKey(c.name, name), ServiceFor(c, instance));
      }
    }
  }

  lemma RunPlanConverges(s: Sys, c: Cluster, ch: Choices)
    requires Fair(ch) && Undisturbed(s.script)
    ensures var (s', ok) := RunPlan(s, ClusterPlan(c, ch));
            && Frame(s.world, s'.world, ManagedKeys(c)) && Undisturbed(s'.script)
            && (ok ==> Rendered(s'.world, c))
  {
    ApplyWritesConverges(s, ClusterPlan(c, ch).writes);
    PlanKeys(c, ch);
    var (s', ok) := RunPlan(s, ClusterPlan(c, ch));
    if ok {
      PlanRenders(s'.world, c, ch);
    }
  }

  // ------------------------------------------------------------------ a whole pass

  lemma {:induction false} GatherFrames(s: Sys, c: Cluster, i: nat, g: Gathered)
    requires Undisturbed(s.script) && i <= |c.spec.instances|
    ensures var s' := GatherFrom(s, c, i, g).0; Frame(s.world, s'.world, {}) && Undisturbed(s'.script)
    decreases |c.spec.instances| - i
  {
    if i < |c.spec.instances| {
      var q := GetObject(StatefulSetKey(c.name, c.spec.instances[i].name));
      ReadFrames(s, q);
      var (s', a) := Call(s, q);
      GatherFrames(s', c, i + 1, Gather(c, c.spec.instances[i], if a.ObjectIs? then Some(a.found.ready) else None, g));
    }
  }

  /** The objects are the same, and the cluster asks for the same. */
  ghost predicate Quiet(w: World, w': World) {
    && (forall k :: SameObject(w, w', k))
    && (w.cluster.Some? ==> w'.cluster.Some? && SameIntent(w.cluster.value, w'.cluster.value))
  }

  lemma ReportQuiet(s: Sys, c: Cluster)
    requires Undisturbed(s.script)
    ensures var s' := ReportStatus(s, c).0; Quiet(s.world, s'.world) && Undisturbed(s'.script)
  {
    var g0 := Gathered([], 0, c.status.currentPrimary);
    GatherFrames(s, c, 0, g0);
    var (s', g) := GatherFrom(s, c, 0, g0);
    var d := Arrive(s', UpdateStatus(c.(status := StatusFor(c, g))));
  }

  lemma RenderedQuiet(w: World, w': World, c: Cluster)
    requires Rendered(w, c) && Quiet(w, w')
    ensures Rendered(w', c)
  {
    assert forall k | k in w.objects :: SameObject(w, w', k);
    assert SameObject(w, w', ObjKey(ConfigMap, ConfigName(c.name)));
    assert SameObject(w, w', ObjKey(Secret, CredentialsName(c.name)));
    forall name | LastInstance(c.spec.instances, name).Some?
      ensures InstanceHolds(w', c, LastInstance(c.spec.instances, name).value, name)
    {
      assert InstanceHolds(w, c, LastInstance(c.spec.instances, name).value, name);
    }
  }

  /** An update of the cluster that asks for what it asked before. */
  lemma UpdateQuiet(s: Sys, c: Cluster)
    requires Undisturbed(s.script) && !c.deleting
    requires s.world.cluster.Some? ==> SameIntent(s.world.cluster.value, c)
    ensures var (s', a) := Call(s, UpdateCluster(c));
            Quiet(s.world, s'.world) && Undisturbed(s'.script) && (a.ClusterIs? ==> s'.world.cluster == Some(a.cluster))
  {
    var d := Arrive(s, UpdateCluster(c));
  }

  lemma ReconcileSpecConverges(s: Sys, c: Cluster, ch: Choices)
    requires Fair(ch) && Undisturbed(s.script) && s.world.cluster == Some(c) && !c.deleting
    ensures var (s', outcome) := ReconcileSpec(s, c, ch); Achieved(s.world, s'.world, outcome)
  {
    var d := c.(spec := Defaulted(c.spec));
    if d.spec.instances == [] {
      IntentIdempotent(c.spec);
      UpdateQuiet(s, d.(spec := WithInstances(d.spec)));
      var (s', outcome) := ReconcileSpec(s, c, ch);
      StopsQuiet(s.world, s'.world, outcome);
    } else {
      RunPlanConverges(s, d, ch);
      var (s1, ok) := RunPlan(s, ClusterPlan(d, ch));
      assert d == Intended(c) && Follows(s.world, s1.world);
      if ok {
        ReportQuiet(s1, d);
        var s2 := ReportStatus(s1, d).0;
        RenderedQuiet(s1.world, s2.world, d);
        FollowsQuiet(s.world, s1.world, s2.world);
      }
    }
  }

  lemma FollowsQuiet(w: World, w1: World, w2: World)
    requires Follows(w, w1) && Quiet(w1, w2)
    ensures Follows(w, w2)
  {
    forall k | k !in ManagedKeys(Intended(w.cluster.value)) ensures SameObject(w, w2, k) {
      assert SameObject(w, w1, k) && SameObject(w1, w2, k);
    }
  }

  lemma QuietFollows(w: World, w1: World, w2: World)
    requires Quiet(w, w1) && Follows(w1, w2) && w.cluster.Some?
    ensures Follows(w, w2)
  {
    SameManaged(w.cluster.value, w1.cluster.value);
    forall k | k !in ManagedKeys(Intended(w.cluster.value)) ensures SameObject(w, w2, k) {
      assert SameObject(w, w1, k) && SameObject(w1, w2, k);
    }
  }

  lemma SameManaged(c: Cluster, c': Cluster)
    requires SameIntent(c, c')
    ensures ManagedKeys(Intended(c)) == ManagedKeys(Intended(c'))
  {
    assert Intended(c').spec == Intended(c).spec;
  }

  /** What one pass over a cluster that is not being deleted does, wherever it stops. */
  ghost predicate Achieved(w: World, w': World, outcome: Outcome) {
    && Follows(w, w')
    && (outcome == RequeueLater ==> Rendered(w', Intended(w.cluster.value)))
  }

  lemma AchievedAfter(w: World, w1: World, w2: World, outcome: Outcome)
    requires Quiet(w, w1) && Achieved(w1, w2, outcome) && w.cluster.Some?
    ensures Achieved(w, w2, outcome)
  {
    QuietFollows(w, w1, w2);
    if outcome == RequeueLater {
      RenderedSame(w2, Intended(w1.cluster.value), Intended(w.cluster.value));
    }
  }

  /**
   One pass over a cluster that is not being deleted, failing at any point or not: it writes
   only managed objects, and one that reaches its end leaves all of them as the spec asks.
   */
  lemma PassConverges(s: Sys, ch: Choices)
    requires Fair(ch) && Undisturbed(s.script) && s.world.cluster.Some? && !s.world.cluster.value.deleting
    ensures var (s', outcome) := Reconcile(s, ch); Achieved(s.world, s'.world, outcome)
  {
    ReadFrames(s, GetCluster);
    var (s1, got) := Call(s, GetCluster);
    assert Quiet(s.world, s1.world);
    if !got.ClusterIs? {
      StopsQuiet(s.world, s1.world, Failing);
    } else if got.cluster.finalizer {
      ReconcileSpecConverges(s1, got.cluster, ch);
      var (s', outcome) := ReconcileSpec(s1, got.cluster, ch);
      assert Reconcile(s, ch) == (s', outcome);
      AchievedAfter(s.world, s1.world, s'.world, outcome);
    } else {
      FinalizerConverges(s1, got.cluster, ch);
      var (s', outcome) := AfterFinalizer(s1, got.cluster, ch);
      assert Reconcile(s, ch) == (s', outcome);
      AchievedAfter(s.world, s1.world, s'.world, outcome);
    }
  }

  lemma StopsQuiet(w: World, w': World, outcome: Outcome)
    requires Quiet(w, w') && w.cluster.Some? && !w.cluster.value.deleting && outcome != RequeueLater
    ensures Achieved(w, w', outcome)
  {
  }

  /** The rest of a pass that has found the cluster without its finalizer. */
  ghost function AfterFinalizer(s: Sys, c: Cluster, ch: Choices): (Sys, Outcome)
    requires Fair(ch)
  {
    var (s', a) := Call(s, UpdateCluster(c.(finalizer := true)));
    if !a.ClusterIs? then (s', Failing) else ReconcileFound(s', a.cluster, ch)
  }

  lemma FinalizerConverges(s: Sys, c: Cluster, ch: Choices)
    requires Fair(ch) && Undisturbed(s.script) && s.world.cluster == Some(c) && !c.deleting
    ensures var (s', outcome) := AfterFinalizer(s, c, ch); Achieved(s.world, s'.world, outcome)
  {
    UpdateQuiet(s, c.(finalizer := true));
    var (s1, a) := Call(s, UpdateCluster(c.(finalizer := true)));
    if !a.ClusterIs? {
      StopsQuiet(s.world, s1.world, Failing);
    } else {
      ReconcileSpecConverges(s1, a.cluster, ch);
      var (s', outcome) := ReconcileSpec(s1, a.cluster, ch);
      AchievedAfter(s.world, s1.world, s'.world, outcome);
    }
  }

  ghost predicate UndisturbedRounds(rounds: seq<Round>) {
    forall i | 0 <= i < |rounds| :: Undisturbed(rounds[i].script)
  }

  /** Any number of passes, each cut short anywhere or not, keep what the cluster asks for and foreign objects. */
  lemma {:induction false} PassesFollow(s: Sys, rounds: seq<Round>)
    requires FairRounds(rounds) && UndisturbedRounds(rounds)
    requires s.world.cluster.Some? && !s.world.cluster.value.deleting
    ensures Follows(s.world, Run(s, rounds).world)
    decreases |rounds|
  {
    if rounds != [] {
      var s0 := s.(script := rounds[0].script);
      PassConverges(s0, rounds[0].choices);
      var s1 := Reconcile(s0, rounds[0].choices).0;
      PassesFollow(s1, rounds[1..]);
      FollowsFollows(s.world, s1.world, Run(s, rounds).world);
    }
  }

  lemma FollowsFollows(w: World, w1: World, w2: World)
    requires Follows(w, w1) && Follows(w1, w2)
    ensures Follows(w, w2)
  {
    SameManaged(w.cluster.value, w1.cluster.value);
    forall k | k !in ManagedKeys(Intended(w.cluster.value)) ensures SameObject(w, w2, k) {
      assert SameObject(w, w1, k) && SameObject(w1, w2, k);
    }
  }

  /**
   Convergence. From any store, after any number of passes that failed, crashed or lost replies
   anywhere, one pass that reaches its end leaves every managed object as the first spec asks
   and every other object as it was in the beginning.
   */
  lemma Converges(s: Sys, rounds: seq<Round>, last: Round)
    requires FairRounds(rounds) && UndisturbedRounds(rounds) && Fair(last.choices) && Undisturbed(last.script)
    requires s.world.cluster.Some? && !s.world.cluster.value.deleting
    ensures var (s', outcome) := Reconcile(Run(s, rounds).(script := last.script), last.choices);
            Achieved(s.world, s'.world, outcome)
  {
    PassesFollow(s, rounds);
    var s1 := Run(s, rounds).(script := last.script);
    PassConverges(s1, last.choices);
    var (s', outcome) := Reconcile(s1, last.choices);
    FollowsFollows(s.world, s1.world, s'.world);
    if outcome == RequeueLater {
      RenderedSame(s'.world, Intended(s1.world.cluster.value), Intended(s.world.cluster.value));
    }
  }

  /** What is rendered does not depend on the cluster's version or status. */
  lemma RenderedSame(w: World, c: Cluster, c': Cluster)
    requires Rendered(w, c) && c'.name == c.name && c'.namespace == c.namespace && c'.spec == c.spec
    ensures Rendered(w, c')
  {
    forall name | LastInstance(c'.spec.instances, name).Some?
      ensures InstanceHolds(w, c', LastInstance(c'.spec.instances, name).value, name)
    {
      assert InstanceHolds(w, c, LastInstance(c.spec.instances, name).value, name);
    }
  }

  /** However the maps were ranged over, the settings in force are those the spec means. */
  lemma ConfigMapMeaning(w: World, c: Cluster)
    requires Rendered(w, c) && PostgresConf.PlainInstances(c.spec.instances)
    requires PostgresConf.AllDecided(c.spec.instances)
    ensures PostgresConf.Read(w.objects[ObjKey(ConfigMap, ConfigName(c.name))].body.conf, map[])
         == PostgresConf.Intended(c.spec.highAvailability, c.spec.instances)
  {
    var text := w.objects[ObjKey(ConfigMap, ConfigName(c.name))].body.conf;
    var orders :| PostgresConf.AreOrders(c.spec.instances, orders)
               && text == PostgresConf.ConfigText(c.spec.highAvailability, c.spec.instances, orders);
    PostgresConf.ConfigMeansIntended(c.spec.highAvailability, c.spec.instances, orders);
  }

  // ------------------------------------------------------------------ complete passes exist

  lemma CalmUndisturbed(script: seq<Turn<EnvStep>>)
    requires Calm(script)
    ensures Undisturbed(script)
  {
    assert forall i | 0 <= i < |script| :: script[i] == Turn([], Served);
  }

  /** The session after n more requests that no one disturbs or refuses. */
  ghost predicate CalmlyAfter(s: Sys, s': Sys, n: nat) {
    Calm(s.script) && |s.script| >= n && s'.script == s.script[n..] && Calm(s'.script)
  }

  lemma CalmlyThen(s: Sys, s1: Sys, s2: Sys, n: nat, m: nat)
    requires CalmlyAfter(s, s1, n) && |s1.script| >= m && CalmlyAfter(s1, s2, m)
    ensures CalmlyAfter(s, s2, n + m)
  {
    assert s.script[n..][m..] == s.script[n + m..];
  }

  lemma CalmWrite(s: Sys, write: Write)
    requires Calm(s.script) && |s.script| >= 2
    ensures var (s', ok) := CreateOrUpdate(s, write); ok && CalmlyAfter(s, s', 2)
  {
    CalmExchange(API, s, GetObject(write.key));
    var (s1, current) := Call(s, GetObject(write.key));
    assert s1.world == s.world;
    if current.ObjectIs? {
      CalmExchange(API, s1, UpdateObject(write.key, write.body, current.found.version));
    } else {
      CalmExchange(API, s1, CreateObject(write.key, write.body));
    }
  }

  lemma {:induction false} CalmWrites(s: Sys, writes: seq<Write>)
    requires Calm(s.script) && |s.script| >= 2 * |writes|
    ensures var (s', ok) := ApplyWrites(s, writes); ok && CalmlyAfter(s, s', 2 * |writes|)
    decreases |writes|
  {
    if writes != [] {
      CalmWrite(s, writes[0]);
      var s1 := CreateOrUpdate(s, writes[0]).0;
      CalmWrites(s1, writes[1..]);
      CalmlyThen(s, s1, ApplyWrites(s1, writes[1..]).0, 2, 2 * |writes[1..]|);
    }
  }

  lemma {:induction false} CalmGather(s: Sys, c: Cluster, i: nat, g: Gathered)
    requires i <= |c.spec.instances| && Calm(s.script) && |s.script| >= |c.spec.instances| - i
    ensures CalmlyAfter(s, GatherFrom(s, c, i, g).0, |c.spec.instances| - i)
    decreases |c.spec.instances| - i
  {
    if i < |c.spec.instances| {
      var q := GetObject(StatefulSetKey(c.name, c.spec.instances[i].name));
      CalmExchange(API, s, q);
      var (s', a) := Call(s, q);
      var g' := Gather(c, c.spec.instances[i], if a.ObjectIs? then Some(a.found.ready) else None, g);
      CalmGather(s', c, i + 1, g');
      CalmlyThen(s, s', GatherFrom(s', c, i + 1, g').0, 1, |c.spec.instances| - i - 1);
    }
  }

  lemma CalmReport(s: Sys, c: Cluster)
    requires Calm(s.script) && |s.script| > |c.spec.instances|
    requires s.world.cluster.Some? && s.world.cluster.value.version == c.version
    ensures ReportStatus(s, c).1
  {
    var g0 := Gathered([], 0, c.status.currentPrimary);
    CalmUndisturbed(s.script);
    GatherFrames(s, c, 0, g0);
    CalmGather(s, c, 0, g0);
    var (s', g) := GatherFrom(s, c, 0, g0);
    CalmExchange(API, s', UpdateStatus(c.(status := StatusFor(c, g))));
  }

  /** Passwords can be drawn and every instance's quantities make sense. */
  ghost predicate Realizable(c: Cluster, ch: Choices) {
    && |ch.draws| >= 2 + |c.spec.database.access|
    && AllParse(c, c.spec.instances, ch)
  }

  /** The amounts an instance gives for itself, or else has from the cluster, are quantities. */
  ghost predicate Parses(c: Cluster, instance: InstanceSpec, ch: Choices) {
    var resources := match instance.resources case Some(own) => own case None => c.spec.resources;
    var storage := match instance.storage case Some(own) => own case None => c.spec.storage;
    resources.cpu in ch.quantities && resources.memory in ch.quantities && storage.size in ch.quantities
  }

  ghost predicate AllParse(c: Cluster, instances: seq<InstanceSpec>, ch: Choices) {
    forall i | 0 <= i < |instances| :: Parses(c, instances[i], ch)
  }

  lemma AllParseSplits(c: Cluster, instances: seq<InstanceSpec>, ch: Choices)
    requires instances != []
    ensures AllParse(c, instances, ch) <==> Parses(c, instances[0], ch) && AllParse(c, instances[1..], ch)
  {
    assert forall i | 1 <= i < |instances| :: instances[i] == instances[1..][i - 1];
  }

  lemma InstancePlanOk(c: Cluster, instance: InstanceSpec, ch: Choices)
    ensures InstancePlan(c, instance, ch).ok <==> Parses(c, instance, ch)
    ensures |InstancePlan(c, instance, ch).writes| <= 2
  {
  }

  lemma {:induction false} InstancesPlanOk(c: Cluster, instances: seq<InstanceSpec>, ch: Choices)
    ensures InstancesPlan(c, instances, ch).ok <==> AllParse(c, instances, ch)
    ensures |InstancesPlan(c, instances, ch).writes| <= 2 * |instances|
  {
    if instances != [] {
      InstancesPlanOk(c, instances[1..], ch);
      AllParseSplits(c, instances, ch);
      InstancePlanOk(c, instances[0], ch);
    }
  }

  /** Exactly then does the pass reach the end of its writes when nobody disturbs it. */
  lemma PlanOk(c: Cluster, ch: Choices)
    requires Fair(ch)
    ensures ClusterPlan(c, ch).ok <==> Realizable(c, ch)
    ensures |ClusterPlan(c, ch).writes| <= 2 * |c.spec.instances| + 3
  {
    InstancesPlanOk(c, c.spec.instances, ch);
  }

  /** More requests than a pass makes. */
  ghost function Calls(c: Cluster): nat {
    5 * |c.spec.instances| + 9
  }

  /** From any store, an undisturbed pass over a realizable spec reaches its end. */
  lemma CalmPassCompletes(s: Sys, ch: Choices)
    requires Fair(ch) && Calm(s.script) && s.world.cluster.Some?
    requires var c := s.world.cluster.value;
             && !c.deleting && c.spec.instances != []
             && Realizable(Intended(c), ch) && |s.script| >= Calls(c)
    ensures Reconcile(s, ch).1 == RequeueLater
  {
    var c := s.world.cluster.value;
    CalmExchange(API, s, GetCluster);
    var s1 := Call(s, GetCluster).0;
    if c.finalizer {
      CalmSpecCompletes(s1, c, ch);
    } else {
      CalmExchange(API, s1, UpdateCluster(c.(finalizer := true)));
      var (s2, a) := Call(s1, UpdateCluster(c.(finalizer := true)));
      CalmSpecCompletes(s2, a.cluster, ch);
    }
  }

  lemma CalmSpecCompletes(s: Sys, c: Cluster, ch: Choices)
    requires Fair(ch) && Calm(s.script) && s.world.cluster == Some(c) && !c.deleting && c.spec.instances != []
    requires Realizable(Intended(c), ch) && |s.script| >= Calls(c) - 2
    ensures ReconcileSpec(s, c, ch).1 == RequeueLater
  {
    var d := Intended(c);
    assert d == c.(spec := Defaulted(c.spec));
    PlanOk(d, ch);
    CalmUndisturbed(s.script);
    CalmWrites(s, ClusterPlan(d, ch).writes);
    ApplyWritesConverges(s, ClusterPlan(d, ch).writes);
    CalmReport(RunPlan(s, ClusterPlan(d, ch)).0, d);
  }

  /** Whether a spec can be realized does not depend on version, status or finalizer. */
  lemma RealizableSame(c: Cluster, c': Cluster, ch: Choices)
    requires c'.spec == c.spec && Realizable(c, ch)
    ensures Realizable(c', ch)
  {
    forall i | 0 <= i < |c'.spec.instances| ensures Parses(c', c'.spec.instances[i], ch) {
      assert Parses(c, c.spec.instances[i], ch);
    }
  }

  /** What the first pass over a cluster without instances leaves. */
  ghost predicate Filled(w: World, c: Cluster) {
    && w.cluster.Some? && !w.cluster.value.deleting
    && w.cluster.value.spec == Intended(c).spec
  }

  lemma CalmFill(s: Sys, c: Cluster, ch: Choices)
    requires Fair(ch) && Calm(s.script) && |s.script| >= 1
    requires s.world.cluster == Some(c) && !c.deleting && c.finalizer && c.spec.instances == []
    ensures var (s', outcome) := ReconcileSpec(s, c, ch); outcome == RequeueNow && Filled(s'.world, c)
  {
    CalmExchange(API, s, UpdateCluster(Intended(c)));
  }

  /** An undisturbed pass over a cluster without instances gives it its default instance. */
  lemma CalmPassFills(s: Sys, ch: Choices)
    requires Fair(ch) && Calm(s.script) && |s.script| >= 3 && s.world.cluster.Some?
    requires !s.world.cluster.value.deleting && s.world.cluster.value.spec.instances == []
    ensures var (s', outcome) := Reconcile(s, ch); outcome == RequeueNow && Filled(s'.world, s.world.cluster.value)
  {
    var c := s.world.cluster.value;
    CalmExchange(API, s, GetCluster);
    var s1 := Call(s, GetCluster).0;
    if c.finalizer {
      CalmFill(s1, c, ch);
    } else {
      CalmExchange(API, s1, UpdateCluster(c.(finalizer := true)));
      var (s2, a) := Call(s1, UpdateCluster(c.(finalizer := true)));
      CalmFill(s2, a.cluster, ch);
    }
  }

  /** From any store, a cluster without instances takes two undisturbed passes. */
  lemma TwoCalmPassesComplete(s: Sys, ch: Choices, next: Round)
    requires Fair(ch) && Calm(s.script) && |s.script| >= 3 && s.world.cluster.Some?
    requires var c := s.world.cluster.value;
             && !c.deleting && c.spec.instances == []
             && Fair(next.choices) && Calm(next.script) && |next.script| >= Calls(Intended(c))
             && Realizable(Intended(c), next.choices)
    ensures Reconcile(Reconcile(s, ch).0.(script := next.script), next.choices).1 == RequeueLater
  {
    var c := s.world.cluster.value;
    CalmPassFills(s, ch);
    var s1 := Reconcile(s, ch).0.(script := next.script);
    var c1 := s1.world.cluster.value;
    IntentIdempotent(c.spec);
    RealizableSame(Intended(c), Intended(c1), next.choices);
    CalmPassCompletes(s1, next.choices);
  }
}
