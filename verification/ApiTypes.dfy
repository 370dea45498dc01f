/**
 The custom resources of api/v1 as values. Go pointers that may be nil are `Option`s; a
 Go map read only through lookup and ranging is a `map`, nil and empty alike. Fields no
 modelled code reads are left out.
 */
module ApiTypes {
  import opened Wrappers

  /** A namespaced object name. */
  datatype Key = Key(namespace: string, name: string)

  /** ClusterReference and BackupReference: an empty namespace means the referrer's own. */
  datatype Ref = Ref(name: string, namespace: string)
  {
    function In(own: string): (key: Key)
      ensures key.name == name && key.namespace == if |namespace| > 0 then namespace else own
    {
      Key(if namespace == "" then own else namespace, name)
    }
  }

  datatype StorageSpec =
    StorageSpec(volumeName: string, size: string, storageClass: string, accessModes: seq<string>)

  datatype ResourceRequirements = ResourceRequirements(cpu: string, memory: string)

  datatype DatabaseAccess = DatabaseAccess(username: string)

  datatype DatabaseSpec = DatabaseSpec(name: string, initScript: string, access: seq<DatabaseAccess>)

  datatype InstanceSpec = InstanceSpec(
    name: string,
    replicas: Option<int>,
    role: string,
    storage: Option<StorageSpec>,
    resources: Option<ResourceRequirements>,
    database: Option<DatabaseSpec>,
    config: map<string, string>)

  datatype HASpec = HASpec(enabled: bool, synchronousReplication: bool, failoverTimeout: int)

  datatype MonitoringSpec = MonitoringSpec(enabled: bool, prometheus: bool, port: int)

  datatype ClusterSpec = ClusterSpec(
    postgresVersion: string,
    instances: seq<InstanceSpec>,
    highAvailability: HASpec,
    backupStorage: map<string, string>,
    replicas: int,
    storage: StorageSpec,
    resources: ResourceRequirements,
    database: DatabaseSpec,
    monitoring: MonitoringSpec)
  {
    /** The storage and database an instance has: its own overrides, whole, or the cluster's. */
    function StorageOf(instance: InstanceSpec): StorageSpec {
      if instance.storage.Some? then instance.storage.value else storage
    }

    function DatabaseOf(instance: InstanceSpec): DatabaseSpec {
      if instance.database.Some? then instance.database.value else database
    }
  }

  datatype InstanceStatus = InstanceStatus(
    name: string,
    role: string,
    readyReplicas: int,
    currentLeader: string,
    labels: map<string, string>)

  datatype ClusterPhase = Unknown | ClusterRunning | Degraded | ClusterPending

  datatype ClusterStatus = ClusterStatus(
    phase: ClusterPhase,
    readyReplicas: int,
    currentPrimary: string,
    databaseVersion: string,
    instances: seq<InstanceStatus>)

  datatype PostgresCluster =
    PostgresCluster(name: string, namespace: string, spec: ClusterSpec, status: ClusterStatus)

  datatype Operator = In | NotIn | Exists | DoesNotExist

  datatype Requirement = Requirement(key: string, op: Operator, values: seq<string>)

  datatype LabelSelector =
    LabelSelector(matchLabels: map<string, string>, matchExpressions: seq<Requirement>)

  datatype InstanceSelector =
    InstanceSelector(names: seq<string>, role: string, labelSelector: Option<LabelSelector>)

  datatype BackupStorage = BackupStorage(kind: string, config: map<string, string>)

  datatype BackupSpec = BackupSpec(
    clusterRef: Ref,
    kind: string,
    storage: BackupStorage,
    instances: Option<InstanceSelector>,
    compression: int,
    parallelJobs: int,
    includeInstanceConfig: bool)

  datatype PostgresBackup = PostgresBackup(name: string, namespace: string, spec: BackupSpec)

  datatype RestoreOptions =
    RestoreOptions(dropExisting: bool, dataOnly: bool, schemaOnly: bool, timeout: string, parallelRestores: int)

  datatype RestoreSpec = RestoreSpec(
    backupRef: Ref,
    targetCluster: Ref,
    options: RestoreOptions,
    instances: Option<InstanceSelector>)

  /**
   A custom resource as the API server stores it: spec, status and the metadata a
   reconciler acts on. `version` is metadata.resourceVersion, `deleting` says that
   metadata.deletionTimestamp is set, `finalizer` that the operator's finalizer is there.
   */
  datatype Resource<+S, +T> = Resource(
    name: string,
    namespace: string,
    spec: S,
    status: T,
    version: nat,
    finalizer: bool,
    deleting: bool)

  /** Writing an object that does not change it leaves its resource version alone. */
  function Written<S(==), T(==)>(was: Resource<S, T>, now: Resource<S, T>): Resource<S, T> {
    if now.(version := was.version) == was then was else now.(version := was.version + 1)
  }

  /** What `Update` stores: everything the caller sent except the status. */
  function Updated<S(==), T(==)>(was: Resource<S, T>, sent: Resource<S, T>): Resource<S, T> {
    Written(was, was.(spec := sent.spec, finalizer := sent.finalizer))
  }

  /** What `Status().Update` stores: the caller's status and nothing else. */
  function StatusUpdated<S(==), T(==)>(was: Resource<S, T>, sent: Resource<S, T>): Resource<S, T> {
    Written(was, was.(status := sent.status))
  }

  /** A write by someone else: the object is new, and so is its version. */
  function Touched<S, T>(now: Resource<S, T>): Resource<S, T> {
    now.(version := now.version + 1)
  }

  /** The version tells objects apart: the same version exactly if nothing has changed. */
  ghost predicate Revises<S, T>(was: Resource<S, T>, now: Resource<S, T>) {
    (now.version == was.version && now == was) || (now.version > was.version && now.(version := was.version) != was)
  }

  /** Neither update reaches what the other is for, and neither renames an object or revives a deleted one. */
  lemma UpdatesSplit<S, T>(was: Resource<S, T>, sent: Resource<S, T>)
    ensures var now := Updated(was, sent);
            && Revises(was, now) && (now.spec, now.finalizer, now.status) == (sent.spec, sent.finalizer, was.status)
            && (now.name, now.namespace, now.deleting) == (was.name, was.namespace, was.deleting)
    ensures var now := StatusUpdated(was, sent);
            && Revises(was, now) && (now.spec, now.finalizer, now.status) == (was.spec, was.finalizer, sent.status)
            && (now.name, now.namespace, now.deleting) == (was.name, was.namespace, was.deleting)
    ensures Touched(was).version > was.version && Touched(was).(version := was.version) == was
  {
  }
}
