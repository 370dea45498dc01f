/**
 controllers/postgresuser_controller.go as functions of the session with the API server and
 the databases: what each part of a reconcile pass does to them and to the PostgresUser in
 memory. UserController.dfy has the same code in its imperative form, proved equal to these.
 */
module UserModel {
  import opened Wrappers
  import opened ApiServer
  import opened ApiTypes
  import Selectors

  // ------------------------------------------------------------------ state

  datatype SecretRef = SecretRef(name: string, key: string)

  datatype RotationPolicy = RotationPolicy(enabled: bool, interval: int)

  datatype PasswordSpec =
    PasswordSpec(secretRef: Option<SecretRef>, generate: bool, rotationPolicy: Option<RotationPolicy>)

  datatype UserSpec = UserSpec(
    clusterRef: Option<Ref>,
    username: string,
    password: Option<PasswordSpec>,
    connectionLimit: int,
    instances: Option<InstanceSelector>)

  datatype UserPhase = Unset | Failed | Ready

  datatype UserEntry = UserEntry(name: string, ready: bool)

  datatype UserStatus = UserStatus(phase: UserPhase, lastPasswordChange: Option<int>, entries: seq<UserEntry>)

  type User = Resource<UserSpec, UserStatus>

  /** A secret without data is not one with empty data: Go reads the former as a nil map. */
  datatype Secret = Secret(data: Option<map<string, string>>, version: nat)

  datatype Role = Role(password: string, limit: int)

  /** The PostgreSQL server behind one instance of a cluster. */
  datatype Database = Database(cluster: Key, instance: string)

  /**
   Times are nanoseconds. `writes` lists the moments at which the operator has changed the
   generated secret, `statusWrites` counts the status updates that have landed, `secretEdits`
   the changes of secrets by anyone else.
   */
  datatype World = World(
    user: Option<User>,
    clusters: map<Key, PostgresCluster>,
    secrets: map<Key, Secret>,
    databases: map<Database, map<string, Role>>,
    now: int,
    writes: seq<int>,
    statusWrites: nat,
    secretEdits: nat)

  const SECOND := 1_000_000_000
  const HOUR := 3600 * SECOND

  /** What a time keeps in a stored object: its whole seconds. */
  function Truncated(t: int): int {
    t - t % SECOND
  }

  function Stored(status: UserStatus): UserStatus {
    if status.lastPasswordChange.None? then status
    else status.(lastPasswordChange := Some(Truncated(status.lastPasswordChange.value)))
  }

  // ------------------------------------------------------------------ the outside world

  datatype EnvStep =
    | Tick(nanoseconds: nat)
    | SpecEdited(userSpec: UserSpec)
    | DeletionRequested
    | ClusterSet(key: Key, cluster: PostgresCluster)
    | ClusterGone(key: Key)
    | SecretSet(key: Key, data: Option<map<string, string>>)
    | SecretGone(key: Key)
    | DatabaseSet(database: Database, roles: map<string, Role>)
    | DatabaseGone(database: Database)

  function Move(w: World, e: EnvStep): World {
    match e
    case Tick(d) => w.(now := w.now + d)
    case SpecEdited(spec) =>
      if w.user.None? then w else w.(user := Some(Touched(w.user.value.(spec := spec))))
    case DeletionRequested =>
      if w.user.None? then w
      else if !w.user.value.finalizer then w.(user := None)
      else w.(user := Some(Touched(w.user.value.(deleting := true))))
    case ClusterSet(key, c) => w.(clusters := w.clusters[key := c])
    case ClusterGone(key) => w.(clusters := w.clusters - {key})
    case SecretSet(key, data) =>
      w.(secrets := w.secrets[key := Secret(data, if key in w.secrets then w.secrets[key].version + 1 else 1)],
         secretEdits := w.secretEdits + 1)
    case SecretGone(key) => w.(secrets := w.secrets - {key}, secretEdits := w.secretEdits + 1)
    case DatabaseSet(db, roles) => w.(databases := w.databases[db := roles])
    case DatabaseGone(db) => w.(databases := w.databases - {db})
  }

  // ------------------------------------------------------------------ the servers

  /** SetRole, SetLimit and DropRole are SQL; Ping is the connection that precedes them. */
  datatype Request =
    | GetUser
    | UpdateUser(sent: User)
    | UpdateStatus(sent: User)
    | GetCluster(key: Key)
    | GetSecret(key: Key)
    | CreateSecret(key: Key, data: map<string, string>)
    | UpdateSecret(key: Key, data: map<string, string>, version: nat)
    | Clock
    | Ping(database: Database)
    | SetRole(database: Database, username: string, password: string)
    | SetLimit(database: Database, username: string, limit: int)
    | DropRole(database: Database, username: string)

  datatype Answer =
    | UserIs(user: User)
    | ClusterIs(cluster: PostgresCluster)
    | SecretIs(secret: Secret)
    | Done
    | NotFound
    | AlreadyExists
    | Conflict
    | Unreachable

  function ServeUser(w: World, q: Request): (World, Answer)
    requires q.GetUser? || q.UpdateUser? || q.UpdateStatus?
  {
    if w.user.None? then (w, NotFound)
    else if q.GetUser? then (w, UserIs(w.user.value))
    else if w.user.value.version != q.sent.version then (w, Conflict)
    else if q.UpdateUser? then
      var u := Updated(w.user.value, q.sent);
      (w.(user := if u.deleting && !u.finalizer then None else Some(u)), UserIs(u))
    else
      var u := StatusUpdated(w.user.value, q.sent.(status := Stored(q.sent.status)));
      (w.(user := Some(u), statusWrites := w.statusWrites + 1), UserIs(u))
  }

  function ServeSecret(w: World, q: Request): (World, Answer)
    requires q.GetSecret? || q.CreateSecret? || q.UpdateSecret?
  {
    if q.GetSecret? then
      (w, if q.key in w.secrets then SecretIs(w.secrets[q.key]) else NotFound)
    else if q.CreateSecret? then
      if q.key in w.secrets then (w, AlreadyExists)
      else (w.(secrets := w.secrets[q.key := Secret(Some(q.data), 1)], writes := w.writes + [w.now]), Done)
    else if q.key !in w.secrets then (w, NotFound)
    else if w.secrets[q.key].version != q.version then (w, Conflict)
    else
      (w.(secrets := w.secrets[q.key := Secret(Some(q.data), q.version + 1)], writes := w.writes + [w.now]), Done)
  }

  function ServeDatabase(w: World, q: Request): (World, Answer)
    requires q.Ping? || q.SetRole? || q.SetLimit? || q.DropRole?
  {
    if q.database !in w.databases then (w, NotFound)
    else
      var roles := w.databases[q.database];
      match q
      case Ping(_) => (w, Done)
      case SetRole(db, username, password) =>
        var limit := if username in roles then roles[username].limit else -1;
        (w.(databases := w.databases[db := roles[username := Role(password, limit)]]), Done)
      case SetLimit(db, username, limit) =>
        if username !in roles then (w, NotFound)
        else (w.(databases := w.databases[db := roles[username := roles[username].(limit := limit)]]), Done)
      case DropRole(db, username) => (w.(databases := w.databases[db := roles - {username}]), Done)
  }

  function Serve(w: World, q: Request): (World, Answer) {
    match q
    case GetUser | UpdateUser(_) | UpdateStatus(_) => ServeUser(w, q)
    case GetCluster(key) => (w, if key in w.clusters then ClusterIs(w.clusters[key]) else NotFound)
    case GetSecret(_) | CreateSecret(_, _) | UpdateSecret(_, _, _) => ServeSecret(w, q)
    case Clock => (w, Done)
    case _ => ServeDatabase(w, q)
  }

  type Sys = Session<World, EnvStep>

  const API: Protocol<World, EnvStep, Request, Answer> := Protocol(Move, Serve, Unreachable)

  function Call(s: Sys, q: Request): (Sys, Answer) {
    Exchange(API, s, q)
  }

  /** time.Now: time passes before it like before every request. */
  function ReadClock(s: Sys): (Sys, int) {
    var s' := Call(s, Clock).0;
    (s', s'.world.now)
  }

  // ------------------------------------------------------------------ the password

  /** An int64 after Go's wrap-around. */
  function Int64(x: int): int {
    (x + 0x8000_0000_0000_0000) % 0x1_0000_0000_0000_0000 - 0x8000_0000_0000_0000
  }

  /** time.Since: a difference that does not fit is the largest or smallest that does. */
  function Since(now: int, t: int): int {
    if now - t > 0x7FFF_FFFF_FFFF_FFFF then 0x7FFF_FFFF_FFFF_FFFF
    else if now - t < -0x8000_0000_0000_0000 then -0x8000_0000_0000_0000
    else now - t
  }

  /** time.Duration(interval) * time.Hour. */
  function Interval(p: PasswordSpec): int
    requires Rotates(p)
  {
    Int64(p.rotationPolicy.value.interval * HOUR)
  }

  predicate Rotates(p: PasswordSpec) {
    p.rotationPolicy.Some? && p.rotationPolicy.value.enabled
  }

  /** shouldRotatePassword, given the time. */
  predicate Due(p: PasswordSpec, change: Option<int>, now: int) {
    change.None? || (Rotates(p) && Since(now, change.value) >= Interval(p))
  }

  function ShouldRotate(s: Sys, p: PasswordSpec, change: Option<int>): (Sys, bool) {
    if !Rotates(p) || change.None? then (s, change.None?)
    else
      var (s', now) := ReadClock(s);
      (s', Due(p, change, now))
  }

  /** The secret the operator generates for a user. */
  function OwnSecret(u: User): Key {
    Key(u.namespace, u.name + "-password")
  }

  /** The secret and the entry in it that hold the user's password. */
  function PasswordSource(u: User, p: PasswordSpec): (Key, string) {
    if p.secretRef.None? then (OwnSecret(u), "password")
    else
      (Key(u.namespace, p.secretRef.value.name),
       if p.secretRef.value.key == "" then "password" else p.secretRef.value.key)
  }

  function EntryOf(a: Answer, entry: string): Option<string> {
    if a.SecretIs? && a.secret.data.Some? && entry in a.secret.data.value then Some(a.secret.data.value[entry]) else None
  }

  datatype Step = Fine | Failing | Panicking

  /** controllerutil.CreateOrUpdate with the controller's mutation, which a nil map makes panic. */
  function WriteSecret(s: Sys, key: Key, password: string): (Sys, Step) {
    var (s1, a) := Call(s, GetSecret(key));
    if a.SecretIs? then
      if a.secret.data.None? then (s1, Panicking)
      else
        var data := a.secret.data.value["password" := password];
        if data == a.secret.data.value then (s1, Fine)
        else
          var (s2, b) := Call(s1, UpdateSecret(key, data, a.secret.version));
          (s2, if b.Done? then Fine else Failing)
    else if a.NotFound? then
      var (s2, b) := Call(s1, CreateSecret(key, map["password" := password]));
      (s2, if b.Done? then Fine else Failing)
    else (s1, Failing)
  }

  /** The session, the user in memory, and how the step ended. */
  datatype Pass = Pass(server: Sys, user: User, step: Step)

  /** Lines 290-325: the password is generated anew. */
  function Rotate(s: Sys, u: User, draw: Option<string>): Pass {
    if draw.None? then Pass(s, u, Failing)
    else
      var (s1, step) := WriteSecret(s, OwnSecret(u), draw.value);
      if step != Fine then Pass(s1, u, step)
      else
        var (s2, now) := ReadClock(s1);
        Pass(s2, u.(status := u.status.(lastPasswordChange := Some(now))), Fine)
  }

  function ReconcilePasswordSecret(s: Sys, u: User, draw: Option<string>): Pass {
    if u.spec.password.None? then Pass(s, u, Failing)
    else
      var p := u.spec.password.value;
      if p.secretRef.Some? then
        var (key, entry) := PasswordSource(u, p);
        var (s', a) := Call(s, GetSecret(key));
        Pass(s', u, if EntryOf(a, entry).Some? then Fine else Failing)
      else if !p.generate then Pass(s, u, Failing)
      else
        var (s', due) := ShouldRotate(s, p, u.status.lastPasswordChange);
        if due then Rotate(s', u, draw) else Pass(s', u, Fine)
  }

  // ------------------------------------------------------------------ the instances

  function DatabaseOf(c: PostgresCluster, instance: string): Database {
    Database(Key(c.namespace, c.name), instance)
  }

  /** NewClientForInstance. */
  function Connect(s: Sys, c: PostgresCluster, instance: string): (Sys, bool) {
    var (s1, a) := Call(s, GetSecret(Key(c.namespace, c.name + "-credentials")));
    if EntryOf(a, "postgres-password").None? then (s1, false)
    else
      var (s2, b) := Call(s1, Ping(DatabaseOf(c, instance)));
      (s2, b.Done?)
  }

  function CreateOrUpdateUser(s: Sys, db: Database, username: string, password: string): (Sys, bool) {
    if username == "" || password == "" then (s, false)
    else
      var (s', a) := Call(s, SetRole(db, username, password));
      (s', a.Done?)
  }

  function SetConnectionLimit(s: Sys, db: Database, username: string, limit: int): (Sys, bool) {
    if username == "" || limit < -1 then (s, false)
    else
      var (s', a) := Call(s, SetLimit(db, username, limit));
      (s', a.Done?)
  }

  /** One turn of the loop over the targets. */
  function ConfigureInstance(s: Sys, u: User, c: PostgresCluster, instance: string, password: string): (Sys, bool) {
    var (s1, connected) := Connect(s, c, instance);
    if !connected then (s1, false)
    else
      var db := DatabaseOf(c, instance);
      var (s2, created) := CreateOrUpdateUser(s1, db, u.spec.username, password);
      if !created then (s2, false)
      else if u.spec.connectionLimit >= 0 then SetConnectionLimit(s2, db, u.spec.username, u.spec.connectionLimit)
      else (s2, true)
  }

  /** The session, the status entries, and whether every instance was configured. */
  datatype Fanout = Fanout(server: Sys, entries: seq<UserEntry>, ok: bool)

  function ConfigureFrom(f: Fanout, u: User, c: PostgresCluster, targets: seq<string>, password: string): Fanout
    decreases |targets|
  {
    if targets == [] then f
    else
      var (s, ready) := ConfigureInstance(f.server, u, c, targets[0], password);
      ConfigureFrom(Fanout(s, f.entries + [UserEntry(targets[0], ready)], f.ok && ready), u, c, targets[1..], password)
  }

  function GetPassword(s: Sys, u: User): (Sys, Option<string>)
    requires u.spec.password.Some?
  {
    var (key, entry) := PasswordSource(u, u.spec.password.value);
    var (s', a) := Call(s, GetSecret(key));
    (s', EntryOf(a, entry))
  }

  function ReconcileUserOnInstances(s: Sys, u: User, c: PostgresCluster, targets: seq<string>): Fanout
    requires u.spec.password.Some?
  {
    var (s', password) := GetPassword(s, u);
    if password.None? then Fanout(s', [], false)
    else ConfigureFrom(Fanout(s', [], true), u, c, targets, password.value)
  }

  // ------------------------------------------------------------------ the status and the pass

  /** What updateStatus makes of a new status: entries and change time are not emptied. */
  function Merged(before: UserStatus, status: UserStatus): UserStatus {
    UserStatus(
      status.phase,
      if status.lastPasswordChange.None? then before.lastPasswordChange else status.lastPasswordChange,
      if status.entries == [] then before.entries else status.entries)
  }

  function SaveStatus(s: Sys, u: User, status: UserStatus): (Sys, bool) {
    var (s', a) := Call(s, UpdateStatus(u.(status := Merged(u.status, status))));
    (s', a.UserIs?)
  }

  datatype Outcome = Settled | RequeueNow | RequeueLater | Erring

  function FailWith(s: Sys, u: User): (Sys, Outcome) {
    (SaveStatus(s, u, UserStatus(Failed, None, [])).0, Erring)
  }

  /** Lines 91-115. */
  function Finish(pass: Pass, c: PostgresCluster, targets: seq<string>): (Sys, Outcome)
    requires pass.user.spec.password.Some?
  {
    var f := ReconcileUserOnInstances(pass.server, pass.user, c, targets);
    var (s', saved) := SaveStatus(f.server, pass.user,
      UserStatus(if f.ok then Ready else Failed, pass.user.status.lastPasswordChange, f.entries));
    (s', if saved && f.ok then RequeueLater else Erring)
  }

  /** Lines 81-115: the secret, then the instances. */
  function ReconcileTargets(s: Sys, u: User, c: PostgresCluster, targets: seq<string>, draw: Option<string>): (Sys, Outcome) {
    var pass := ReconcilePasswordSecret(s, u, draw);
    match pass.step
    case Failing => FailWith(pass.server, pass.user)
    case Panicking => (pass.server, Erring)
    case Fine => Finish(pass, c, targets)
  }

  function ReconcileUser(s: Sys, u: User, draw: Option<string>): (Sys, Outcome) {
    if u.spec.clusterRef.None? then FailWith(s, u)
    else
      var (s', a) := Call(s, GetCluster(u.spec.clusterRef.value.In(u.namespace)));
      if !a.ClusterIs? then FailWith(s', u)
      else
        var targets := Selectors.UserTargets(a.cluster.status.instances, u.spec.instances);
        if targets.Err? then FailWith(s', u) else ReconcileTargets(s', u, a.cluster, targets.value, draw)
  }

  // ------------------------------------------------------------------ deletion

  const SYSTEM_USERS: seq<string> := [
    "postgres", "template0", "template1", "pg_monitor", "pg_read_all_settings", "pg_read_all_stats",
    "pg_stat_scan_tables", "pg_read_server_files", "pg_write_server_files", "pg_execute_server_program"]

  function DropUser(s: Sys, db: Database, username: string): Sys {
    if username == "" || username in SYSTEM_USERS then s else Call(s, DropRole(db, username)).0
  }

  /** The loop of handleDeletion: errors are logged and forgotten. */
  function DropFrom(s: Sys, c: PostgresCluster, username: string, entries: seq<UserEntry>): Sys
    decreases |entries|
  {
    if entries == [] then s
    else if !entries[0].ready then DropFrom(s, c, username, entries[1..])
    else
      var (s1, connected) := Connect(s, c, entries[0].name);
      DropFrom(if connected then DropUser(s1, DatabaseOf(c, entries[0].name), username) else s1, c, username, entries[1..])
  }

  function DropEverywhere(s: Sys, u: User): Sys {
    if u.status.phase != Ready || u.spec.clusterRef.None? then s
    else
      var (s', a) := Call(s, GetCluster(u.spec.clusterRef.value.In(u.namespace)));
      if a.ClusterIs? then DropFrom(s', a.cluster, u.spec.username, u.status.entries) else s'
  }

  function HandleDeletion(s: Sys, u: User): (Sys, Outcome) {
    var (s', a) := Call(DropEverywhere(s, u), UpdateUser(u.(finalizer := false)));
    (s', if a.UserIs? then Settled else Erring)
  }

  /** Lines 46-115, on the user read. */
  function ReconcileFound(s: Sys, u: User, draw: Option<string>): (Sys, Outcome) {
    if !u.finalizer then
      var (s', a) := Call(s, UpdateUser(u.(finalizer := true)));
      (s', if a.UserIs? then RequeueNow else Erring)
    else if u.deleting then HandleDeletion(s, u)
    else ReconcileUser(s, u, draw)
  }

  function Reconcile(s: Sys, draw: Option<string>): (Sys, Outcome) {
    var (s', got) := Call(s, GetUser);
    if got.UserIs? then ReconcileFound(s', got.user, draw)
    else (s', if got.NotFound? then Settled else Erring)
  }

  /** One pass: what the outside decides about its requests, and the password it would draw. */
  datatype Round = Round(script: seq<Turn<EnvStep>>, draw: Option<string>)

  function Run(s: Sys, rounds: seq<Round>): Sys
    decreases |rounds|
  {
    if rounds == [] then s
    else Run(Reconcile(s.(script := rounds[0].script), rounds[0].draw).0, rounds[1..])
  }
}
