/**
 controllers/postgrescluster_controller.go as functions of the API server's session. A pass
 plans the objects it writes from the spec alone, writes them one by one until an error, and
 then reports what the StatefulSets say.
 */
module ClusterModel {
  import opened Wrappers
  import opened ApiServer
  import opened ApiTypes
  import Naming
  import PostgresConf

  // ------------------------------------------------------------------ state

  datatype Kind = ConfigMap | Secret | Service | StatefulSet

  /** An object in the cluster's namespace. */
  datatype ObjKey = ObjKey(kind: Kind, name: string)

  /** What a managed object says; pod details that no choice depends on are left out. */
  datatype Body =
    | ConfigMapBody(conf: string)
    | SecretBody(data: map<string, string>)
    | ServiceBody(
        labels: map<string, string>,
        annotations: map<string, string>,
        selector: map<string, string>,
        portName: string,
        port: int)
    | StatefulSetBody(
        podLabels: map<string, string>,
        replicas: int,
        serviceName: string,
        postgresVersion: string,
        database: string,
        initScript: string,
        credentials: string,
        config: string,
        primaryHost: Option<string>,
        cpu: string,
        memory: string,
        size: string,
        accessModes: seq<string>,
        storageClass: Option<string>)

  /** `ready` is a StatefulSet's status; `owned` says that the operator wrote the object. */
  datatype Object = Object(body: Body, ready: int, version: nat, owned: bool)

  type Cluster = Resource<ClusterSpec, ClusterStatus>

  datatype World = World(cluster: Option<Cluster>, objects: map<ObjKey, Object>)

  // ------------------------------------------------------------------ the outside world

  datatype EnvStep =
    | ReadyChanged(statefulSet: string, ready: int)
    | SpecEdited(clusterSpec: ClusterSpec)
    | DeletionRequested
    | ObjectSet(key: ObjKey, body: Body)
    | ObjectRemoved(key: ObjKey)

  function Move(w: World, e: EnvStep): World {
    match e
    case ReadyChanged(n, ready) =>
      var key := ObjKey(StatefulSet, n);
      if key !in w.objects then w
      else
        var o := w.objects[key];
        w.(objects := w.objects[key := o.(ready := ready, version := o.version + 1)])
    case SpecEdited(spec) =>
      if w.cluster.None? then w else w.(cluster := Some(Touched(w.cluster.value.(spec := spec))))
    case DeletionRequested =>
      if w.cluster.None? then w
      else if !w.cluster.value.finalizer then w.(cluster := None)
      else w.(cluster := Some(Touched(w.cluster.value.(deleting := true))))
    case ObjectSet(key, body) =>
      if key in w.objects then
        var o := w.objects[key];
        w.(objects := w.objects[key := o.(body := body, version := o.version + 1)])
      else w.(objects := w.objects[key := Object(body, 0, 1, false)])
    case ObjectRemoved(key) => w.(objects := w.objects - {key})
  }

  // ------------------------------------------------------------------ the server

  datatype Request =
    | GetCluster
    | UpdateCluster(sent: Cluster)
    | UpdateStatus(sent: Cluster)
    | GetObject(key: ObjKey)
    | CreateObject(key: ObjKey, body: Body)
    | UpdateObject(key: ObjKey, body: Body, version: nat)
    | DeleteObject(key: ObjKey)

  datatype Answer =
    | ClusterIs(cluster: Cluster)
    | ObjectIs(found: Object)
    | Done
    | NotFound
    | AlreadyExists
    | Conflict
    | Unreachable

  function Serve(w: World, q: Request): (World, Answer) {
    match q
    case GetCluster =>
      (w, if w.cluster.Some? then ClusterIs(w.cluster.value) else NotFound)
    case UpdateCluster(sent) =>
      if w.cluster.None? then (w, NotFound)
      else if w.cluster.value.version != sent.version then (w, Conflict)
      else
        var c := Updated(w.cluster.value, sent);
        (w.(cluster := if c.deleting && !c.finalizer then None else Some(c)), ClusterIs(c))
    case UpdateStatus(sent) =>
      if w.cluster.None? then (w, NotFound)
      else if w.cluster.value.version != sent.version then (w, Conflict)
      else
        var c := StatusUpdated(w.cluster.value, sent);
        (w.(cluster := Some(c)), ClusterIs(c))
    case GetObject(key) =>
      (w, if key in w.objects then ObjectIs(w.objects[key]) else NotFound)
    case CreateObject(key, body) =>
      if key in w.objects then (w, AlreadyExists)
      else (w.(objects := w.objects[key := Object(body, 0, 1, true)]), Done)
    case UpdateObject(key, body, version) =>
      if key !in w.objects then (w, NotFound)
      else if w.objects[key].version != version then (w, Conflict)
      else
        var o, o' := w.objects[key], w.objects[key].(body := body, owned := true);
        (w.(objects := w.objects[key := if o' == o then o else o'.(version := o.version + 1)]), Done)
    case DeleteObject(key) =>
      if key !in w.objects then (w, NotFound) else (w.(objects := w.objects - {key}), Done)
  }

  type Sys = Session<World, EnvStep>

  const API: Protocol<World, EnvStep, Request, Answer> := Protocol(Move, Serve, Unreachable)

  function Call(s: Sys, q: Request): (Sys, Answer) {
    Exchange(API, s, q)
  }

  // ------------------------------------------------------------------ the objects of a cluster

  /**
   What Go and the operating system decide during one pass: in which order each map is ranged
   over, which passwords are drawn (none when the source of randomness fails), and which texts
   resource.ParseQuantity accepts.
   */
  datatype Choices = Choices(
    range: (nat, map<string, string>) -> seq<string>,
    draws: seq<string>,
    quantities: set<string>)

  ghost predicate Fair(ch: Choices) {
    forall i: nat, m: map<string, string> :: PostgresConf.IsOrder(m, ch.range(i, m))
  }

  function Orders(ch: Choices, instances: seq<InstanceSpec>): (orders: seq<seq<string>>)
    requires Fair(ch)
    ensures PostgresConf.AreOrders(instances, orders)
  {
    seq(|instances|, i requires 0 <= i < |instances| => ch.range(i, instances[i].config))
  }

  function Or(text: string, default: string): string {
    if text == "" then default else text
  }

  /** setDefaults. */
  function Defaulted(spec: ClusterSpec): ClusterSpec {
    spec.(
      replicas := if spec.replicas == 0 then 1 else spec.replicas,
      postgresVersion := Or(spec.postgresVersion, "15"),
      database := spec.database.(name := Or(spec.database.name, "postgres")),
      storage := spec.storage.(size := Or(spec.storage.size, "10Gi")),
      resources := ResourceRequirements(Or(spec.resources.cpu, "500m"), Or(spec.resources.memory, "1Gi")),
      highAvailability := spec.highAvailability.(
        failoverTimeout := if spec.highAvailability.failoverTimeout == 0 then 30 else spec.highAvailability.failoverTimeout),
      monitoring := spec.monitoring.(
        port := if spec.monitoring.enabled && spec.monitoring.port == 0 then 9187 else spec.monitoring.port))
  }

  /** Lines 69-79: the instance a cluster without instances gets. */
  function WithInstances(spec: ClusterSpec): ClusterSpec {
    if spec.instances != [] then spec
    else
      spec.(instances := [
        InstanceSpec("primary", Some(spec.replicas), "primary", Some(spec.storage), Some(spec.resources),
                     Some(spec.database), map[])])
  }

  const FINALIZER := "database.example.com/postgres-cluster"

  function ConfigName(cluster: string): string {
    cluster + "-config"
  }

  function CredentialsName(cluster: string): string {
    cluster + "-credentials"
  }

  function MetricsKey(cluster: string): ObjKey {
    ObjKey(Service, cluster + "-metrics")
  }

  function ServiceKey(cluster: string, instance: string): ObjKey {
    ObjKey(Service, Naming.ResourceName(cluster, instance))
  }

  function StatefulSetKey(cluster: string, instance: string): ObjKey {
    ObjKey(StatefulSet, Naming.ResourceName(cluster, instance))
  }

  function UserKey(username: string): string {
    "user-" + username + "-password"
  }

  /** One drawn password per access entry; a username listed twice keeps the last. */
  function UserPasswords(access: seq<DatabaseAccess>, draws: seq<string>): map<string, string>
    requires |draws| >= |access|
  {
    if access == [] then map[]
    else
      var n := |access| - 1;
      UserPasswords(access[..n], draws[..n])[UserKey(access[n].username) := draws[n]]
  }

  function SecretData(access: seq<DatabaseAccess>, draws: seq<string>): map<string, string>
    requires |draws| >= 2 + |access|
  {
    map["postgres-password" := draws[0], "replication-password" := draws[1]] + UserPasswords(access, draws[2..])
  }

  function InstanceSelectorLabels(c: Cluster, instance: InstanceSpec): map<string, string> {
    map["app" := "postgres", "cluster" := c.name, "instance" := instance.name]
  }

  function InstanceLabels(c: Cluster, instance: InstanceSpec): map<string, string> {
    InstanceSelectorLabels(c, instance)["role" := instance.role]
  }

  function ServiceFor(c: Cluster, instance: InstanceSpec): Body {
    var primary := instance.role == "primary";
    ServiceBody(
      if primary then InstanceLabels(c, instance)["primary" := "true"] else InstanceLabels(c, instance),
      if primary then map["service.alpha.kubernetes.io/tolerate-unready-endpoints" := "true"] else map[],
      InstanceSelectorLabels(c, instance), "postgres", 5432)
  }

  function ReplicasOf(instance: InstanceSpec): int {
    if instance.replicas.Some? then instance.replicas.value else 1
  }

  function ResourcesOf(c: Cluster, instance: InstanceSpec): ResourceRequirements {
    if instance.resources.Some? then instance.resources.value else c.spec.resources
  }

  function StatefulSetFor(c: Cluster, instance: InstanceSpec): Body {
    var storage, database, resources := c.spec.StorageOf(instance), c.spec.DatabaseOf(instance), ResourcesOf(c, instance);
    StatefulSetBody(
      InstanceLabels(c, instance), ReplicasOf(instance), Naming.ResourceName(c.name, instance.name),
      c.spec.postgresVersion, database.name, database.initScript, CredentialsName(c.name), ConfigName(c.name),
      if instance.role == "replica" && c.spec.highAvailability.enabled
      then Some(c.name + "-primary." + c.namespace + ".svc.cluster.local") else None,
      resources.cpu, resources.memory, storage.size,
      if storage.accessModes == [] then ["ReadWriteOnce"] else storage.accessModes,
      if storage.storageClass == "" then None else Some(storage.storageClass))
  }

  predicate QuantitiesParse(c: Cluster, instance: InstanceSpec, ch: Choices) {
    && ResourcesOf(c, instance).cpu in ch.quantities
    && ResourcesOf(c, instance).memory in ch.quantities
    && c.spec.StorageOf(instance).size in ch.quantities
  }

  function MetricsFor(c: Cluster): Body {
    ServiceBody(
      map["app" := "postgres", "cluster" := c.name, "monitor" := "prometheus"], map[],
      map["app" := "postgres", "cluster" := c.name], "metrics", c.spec.monitoring.port)
  }

  // ------------------------------------------------------------------ the plan of a pass

  datatype Write = Write(key: ObjKey, body: Body)

  /** The writes of a pass in order, and whether the pass gets to the end of them without an error. */
  datatype Plan = Plan(writes: seq<Write>, ok: bool)
  {
    function Then(next: Plan): Plan {
      if ok then Plan(writes + next.writes, next.ok) else this
    }
  }

  function ConfigMapPlan(c: Cluster, ch: Choices): Plan
    requires Fair(ch)
  {
    var text := PostgresConf.ConfigText(c.spec.highAvailability, c.spec.instances, Orders(ch, c.spec.instances));
    Plan([Write(ObjKey(ConfigMap, ConfigName(c.name)), ConfigMapBody(text))], true)
  }

  function SecretPlan(c: Cluster, ch: Choices): Plan {
    if |ch.draws| < 2 + |c.spec.database.access| then Plan([], false)
    else
      Plan([Write(ObjKey(Secret, CredentialsName(c.name)), SecretBody(SecretData(c.spec.database.access, ch.draws)))], true)
  }

  function InstancePlan(c: Cluster, instance: InstanceSpec, ch: Choices): Plan {
    Plan([Write(ServiceKey(c.name, instance.name), ServiceFor(c, instance))], true).Then(
      if QuantitiesParse(c, instance, ch)
      then Plan([Write(StatefulSetKey(c.name, instance.name), StatefulSetFor(c, instance))], true)
      else Plan([], false))
  }

  function InstancesPlan(c: Cluster, instances: seq<InstanceSpec>, ch: Choices): Plan {
    if instances == [] then Plan([], true)
    else InstancePlan(c, instances[0], ch).Then(InstancesPlan(c, instances[1..], ch))
  }

  function MonitoringPlan(c: Cluster): Plan {
    if c.spec.monitoring.enabled && c.spec.monitoring.prometheus
    then Plan([Write(MetricsKey(c.name), MetricsFor(c))], true)
    else Plan([], true)
  }

  function ClusterPlan(c: Cluster, ch: Choices): Plan
    requires Fair(ch)
  {
    ConfigMapPlan(c, ch).Then(SecretPlan(c, ch)).Then(InstancesPlan(c, c.spec.instances, ch)).Then(MonitoringPlan(c))
  }

  // ------------------------------------------------------------------ one pass

  /** internal/k8s CreateOrUpdate: the last read version is the one the update must meet. */
  function CreateOrUpdate(s: Sys, write: Write): (Sys, bool) {
    var (s1, current) := Call(s, GetObject(write.key));
    if current.ObjectIs? then
      var (s2, a) := Call(s1, UpdateObject(write.key, write.body, current.found.version));
      (s2, a.Done?)
    else if current.NotFound? then
      var (s2, a) := Call(s1, CreateObject(write.key, write.body));
      (s2, a.Done?)
    else (s1, false)
  }

  function ApplyWrites(s: Sys, writes: seq<Write>): (Sys, bool)
    decreases |writes|
  {
    if writes == [] then (s, true)
    else
      var (s', ok) := CreateOrUpdate(s, writes[0]);
      if ok then ApplyWrites(s', writes[1..]) else (s', false)
  }

  function RunPlan(s: Sys, plan: Plan): (Sys, bool) {
    var (s', ok) := ApplyWrites(s, plan.writes);
    (s', ok && plan.ok)
  }

  /** An int32 after Go's wrap-around. */
  function Int32(x: int): int {
    (x + 0x8000_0000) % 0x1_0000_0000 - 0x8000_0000
  }

  /** What the loop over the instances has gathered so far. */
  datatype Gathered = Gathered(statuses: seq<InstanceStatus>, ready: int, primary: string)

  /** One instance, given its StatefulSet's ready replicas, or that it could not be read. */
  function Gather(c: Cluster, instance: InstanceSpec, ready: Option<int>, g: Gathered): Gathered {
    var leader := Naming.ResourceName(c.name, instance.name) + "-0";
    var leads := ready.Some? && instance.role == "primary" && ready.value > 0;
    var n := if ready.Some? then ready.value else 0;
    Gathered(
      g.statuses + [InstanceStatus(instance.name, instance.role, n, if leads then leader else "", InstanceLabels(c, instance))],
      if ready.Some? then Int32(g.ready + n) else g.ready,
      if leads then leader else g.primary)
  }

  function GatherFrom(s: Sys, c: Cluster, i: nat, g: Gathered): (Sys, Gathered)
    requires i <= |c.spec.instances|
    decreases |c.spec.instances| - i
  {
    if i == |c.spec.instances| then (s, g)
    else
      var instance := c.spec.instances[i];
      var (s', a) := Call(s, GetObject(StatefulSetKey(c.name, instance.name)));
      GatherFrom(s', c, i + 1, Gather(c, instance, if a.ObjectIs? then Some(a.found.ready) else None, g))
  }

  function Expected(instances: seq<InstanceSpec>): int {
    if instances == [] then 0
    else Int32(Expected(instances[..|instances| - 1]) + ReplicasOf(instances[|instances| - 1]))
  }

  function PhaseOf(ready: int, expected: int): ClusterPhase {
    if ready == expected then ClusterRunning
    else if ready > 0 then Degraded
    else ClusterPending
  }

  function StatusFor(c: Cluster, g: Gathered): ClusterStatus {
    ClusterStatus(PhaseOf(g.ready, Expected(c.spec.instances)), g.ready, g.primary, c.spec.postgresVersion, g.statuses)
  }

  function ReportStatus(s: Sys, c: Cluster): (Sys, bool) {
    var (s', g) := GatherFrom(s, c, 0, Gathered([], 0, c.status.currentPrimary));
    var (s'', a) := Call(s', UpdateStatus(c.(status := StatusFor(c, g))));
    (s'', a.ClusterIs?)
  }

  function InstanceKeys(cluster: string, instances: seq<InstanceSpec>): seq<ObjKey> {
    if instances == [] then []
    else
      [StatefulSetKey(cluster, instances[0].name), ServiceKey(cluster, instances[0].name)]
      + InstanceKeys(cluster, instances[1..])
  }

  /** The objects handleDeletion deletes, in its order. */
  function DeletedKeys(c: Cluster): seq<ObjKey> {
    InstanceKeys(c.name, c.spec.instances)
    + [ObjKey(ConfigMap, ConfigName(c.name)), ObjKey(Secret, CredentialsName(c.name))]
  }

  function DeleteAll(s: Sys, keys: seq<ObjKey>): (Sys, bool)
    decreases |keys|
  {
    if keys == [] then (s, true)
    else
      var (s', a) := Call(s, DeleteObject(keys[0]));
      if a.Done? || a.NotFound? then DeleteAll(s', keys[1..]) else (s', false)
  }

  datatype Outcome = Settled | RequeueNow | RequeueLater | Failing

  function HandleDeletion(s: Sys, c: Cluster): (Sys, Outcome) {
    var (s', ok) := DeleteAll(s, DeletedKeys(c));
    if !ok then (s', Failing)
    else
      var (s'', a) := Call(s', UpdateCluster(c.(finalizer := false)));
      (s'', if a.ClusterIs? then Settled else Failing)
  }

  /** Lines 67-96, on the cluster in memory. */
  function ReconcileSpec(s: Sys, c: Cluster, ch: Choices): (Sys, Outcome)
    requires Fair(ch)
  {
    var d := c.(spec := Defaulted(c.spec));
    if d.spec.instances == [] then
      var (s', a) := Call(s, UpdateCluster(d.(spec := WithInstances(d.spec))));
      (s', if a.ClusterIs? then RequeueNow else Failing)
    else
      var (s1, ok) := RunPlan(s, ClusterPlan(d, ch));
      if !ok then (s1, Failing)
      else
        var (s2, reported) := ReportStatus(s1, d);
        (s2, if reported then RequeueLater else Failing)
  }

  function ReconcileFound(s: Sys, c: Cluster, ch: Choices): (Sys, Outcome)
    requires Fair(ch)
  {
    if c.deleting then HandleDeletion(s, c) else ReconcileSpec(s, c, ch)
  }

  function Reconcile(s: Sys, ch: Choices): (Sys, Outcome)
    requires Fair(ch)
  {
    var (s1, got) := Call(s, GetCluster);
    if !got.ClusterIs? then (s1, if got.NotFound? then Settled else Failing)
    else if got.cluster.finalizer then ReconcileFound(s1, got.cluster, ch)
    else
      var (s2, a) := Call(s1, UpdateCluster(got.cluster.(finalizer := true)));
      if !a.ClusterIs? then (s2, Failing) else ReconcileFound(s2, a.cluster, ch)
  }

  /** One pass: what the outside decides about its requests, and Go's choices during it. */
  datatype Round = Round(script: seq<Turn<EnvStep>>, choices: Choices)

  ghost predicate FairRounds(rounds: seq<Round>) {
    forall i | 0 <= i < |rounds| :: Fair(rounds[i].choices)
  }

  function Run(s: Sys, rounds: seq<Round>): Sys
    requires FairRounds(rounds)
    decreases |rounds|
  {
    if rounds == [] then s
    else Run(Reconcile(s.(script := rounds[0].script), rounds[0].choices).0, rounds[1..])
  }
}
