/**
 What a user pass does to the databases: which of them hold the user's password afterwards,
 what the status says about them, and which still know the user after deletion.
 */
module UserInstances {
  import opened Wrappers
  import opened ApiServer
  import opened ApiTypes
  import opened UserModel
  import opened UserHistory
  import opened UserDatabases
  import UserRequests
  import Selectors

  // ------------------------------------------------------------------ all instances

  /** One entry per target, in order; `ok` says that all are ready. */
  ghost predicate Reported(entries: seq<UserEntry>, targets: seq<string>, ok: bool) {
    && |entries| == |targets|
    && (forall i | 0 <= i < |entries| :: entries[i].name == targets[i])
    && (ok <==> forall i | 0 <= i < |entries| :: entries[i].ready)
  }

  /** Every instance reported ready holds the password. */
  ghost predicate ReadyHold(w: World, c: PostgresCluster, entries: seq<UserEntry>, spec: UserSpec, password: string) {
    forall i | 0 <= i < |entries| && entries[i].ready :: Serves(w, c, entries[i].name, spec, password)
  }

  /**
   The loop over the targets, whatever fails in it: it reports every target once, in order, and
   each one it reports ready holds the password at the end.
   */
  lemma {:induction false} FanoutReports(f: Fanout, u: User, m: User, c: PostgresCluster, done: seq<string>, targets: seq<string>, password: string)
    requires Holding(f.server, u) && m.spec == u.spec
    requires Reported(f.entries, done, f.ok) && ReadyHold(f.server.world, c, f.entries, u.spec, password)
    ensures var f' := ConfigureFrom(f, m, c, targets, password);
            && Holding(f'.server, u) && Progress(f.server.world, f'.server.world, u.spec, password)
            && Reported(f'.entries, done + targets, f'.ok)
            && ReadyHold(f'.server.world, c, f'.entries, u.spec, password)
    decreases |targets|
  {
    if targets == [] {
      assert done + targets == done;
    } else {
      InstanceConfigured(f.server, u, m, c, targets[0], password);
      var (s, ready) := ConfigureInstance(f.server, m, c, targets[0], password);
      var f1 := Fanout(s, f.entries + [UserEntry(targets[0], ready)], f.ok && ready);
      ReportedMore(f.entries, done, f.ok, targets[0], ready);
      FanoutReports(f1, u, m, c, done + [targets[0]], targets[1..], password);
      ProgressTwice(f.server.world, s.world, ConfigureFrom(f1, m, c, targets[1..], password).server.world, u.spec, password);
      assert done + [targets[0]] + targets[1..] == done + targets;
    }
  }

  lemma ReportedMore(entries: seq<UserEntry>, done: seq<string>, ok: bool, target: string, ready: bool)
    requires Reported(entries, done, ok)
    ensures Reported(entries + [UserEntry(target, ready)], done + [target], ok && ready)
  {
    var more := entries + [UserEntry(target, ready)];
    assert more[|entries|].ready == ready;
    if !ok {
      var i :| 0 <= i < |entries| && !entries[i].ready;
      assert !more[i].ready;
    }
  }

  /** The password of a user: in the secret and entry it refers to, or in the one generated for it. */
  ghost function PasswordIn(w: World, u: User): Option<string> {
    match u.spec.password
    case None => None
    case Some(p) =>
      match p.secretRef
      case None => EntryIn(w, Key(u.namespace, u.name + "-password"), "password")
      case Some(ref) => EntryIn(w, Key(u.namespace, ref.name), if ref.key == "" then "password" else ref.key)
  }

  lemma InstancesReported(s: Sys, u: User, m: User, c: PostgresCluster, targets: seq<string>)
    requires Holding(s, u) && m.spec == u.spec && m.name == u.name && m.namespace == u.namespace && m.spec.password.Some?
    ensures var f := ReconcileUserOnInstances(s, m, c, targets);
            && Holding(f.server, u) && SameButRoles(s.world, f.server.world)
            && (f.ok ==> PasswordIn(s.world, u).Some?)
            && (f.entries != [] ==>
                  && PasswordIn(s.world, u).Some?
                  && Reported(f.entries, targets, f.ok)
                  && ReadyHold(f.server.world, c, f.entries, u.spec, PasswordIn(s.world, u).value))
            && (f.ok && f.entries == [] ==> targets == [])
  {
    var (key, entry) := PasswordSource(m, m.spec.password.value);
    CallLooks(s, GetSecret(key), u);
    var (s', password) := GetPassword(s, m);
    if password.Some? {
      assert password == PasswordIn(s.world, u);
      FanoutReports(Fanout(s', [], true), u, m, c, [], targets, password.value);
      assert [] + targets == targets;
    }
  }

  // ------------------------------------------------------------------ a whole pass

  /** The user in memory is the one read, but for the change time. */
  ghost predicate SameButChange(u: User, m: User) {
    m == u.(status := u.status.(lastPasswordChange := m.status.lastPasswordChange))
  }

  /** The user read is still there, or newer; clusters and status are as they were. */
  ghost predicate Onward(w: World, s': Sys, u: User) {
    Holding(s', u) && s'.world.clusters == w.clusters && s'.world.statusWrites == w.statusWrites
  }

  lemma SecretWritten(s: Sys, q: Request, u: User)
    requires Holding(s, u) && (q.CreateSecret? || q.UpdateSecret?)
    ensures Onward(s.world, Call(s, q).0, u)
  {
    var d := ArriveGently(s, q);
    SecretServed(d, q);
  }

  lemma WriteHolds(s: Sys, key: Key, password: string, u: User)
    requires Holding(s, u)
    ensures Onward(s.world, WriteSecret(s, key, password).0, u)
  {
    CallLooks(s, GetSecret(key), u);
    var (s1, a) := Call(s, GetSecret(key));
    if a.SecretIs? {
      if a.secret.data.Some? {
        SecretWritten(s1, UpdateSecret(key, a.secret.data.value["password" := password], a.secret.version), u);
      }
    } else if a.NotFound? {
      SecretWritten(s1, CreateSecret(key, map["password" := password]), u);
    }
  }

  lemma SecretStep(s: Sys, u: User, draw: Option<string>)
    requires Holding(s, u)
    ensures var pass := ReconcilePasswordSecret(s, u, draw);
            Onward(s.world, pass.server, u) && SameButChange(u, pass.user)
  {
    if u.spec.password.Some? {
      var p := u.spec.password.value;
      if p.secretRef.Some? {
        CallLooks(s, GetSecret(PasswordSource(u, p).0), u);
      } else if p.generate {
        var change := u.status.lastPasswordChange;
        if Rotates(p) && change.Some? {
          CallLooks(s, Clock, u);
        }
        var (s1, due) := ShouldRotate(s, p, change);
        if due && draw.Some? {
          WriteHolds(s1, OwnSecret(u), draw.value, u);
          CallLooks(WriteSecret(s1, OwnSecret(u), draw.value).0, Clock, u);
        }
      }
    }
  }

  /** A status update has landed. */
  ghost predicate Landed(w: World, w': World) {
    w'.statusWrites > w.statusWrites
  }

  /** The status persisted, on the user that was read; a status without entries keeps those there are. */
  ghost predicate Persisted(w: World, w': World, u: User, status: UserStatus) {
    && (w'.clusters, w'.secrets, w'.databases, w'.writes) == (w.clusters, w.secrets, w.databases, w.writes)
    && w'.user.Some? && w'.user.value.(status := u.status, version := u.version) == u
    && w'.user.value.status.phase == status.phase
    && w'.user.value.status.entries == (if status.entries == [] then u.status.entries else status.entries)
  }

  lemma SavedIsPersisted(s: Sys, u: User, m: User, status: UserStatus)
    requires Holding(s, u) && SameButChange(u, m)
    ensures var (s', saved) := SaveStatus(s, m, status);
            && (saved ==> Landed(s.world, s'.world))
            && (Landed(s.world, s'.world) ==> Persisted(s.world, s'.world, u, status))
  {
    var q := UpdateStatus(m.(status := Merged(m.status, status)));
    var d := ArriveGently(s, q);
  }

  ghost function AllReady(targets: seq<string>): seq<UserEntry> {
    seq(|targets|, i requires 0 <= i < |targets| => UserEntry(targets[i], true))
  }

  /** What success means: the status and the databases agree with the secret. */
  ghost predicate Succeeded(w: World, u: User, c: PostgresCluster, targets: seq<string>, before: seq<UserEntry>) {
    && u.status.phase == Ready
    && PasswordIn(w, u).Some?
    && u.status.entries == (if targets == [] then before else AllReady(targets))
    && (forall t | t in targets :: Serves(w, c, t, u.spec, PasswordIn(w, u).value))
  }

  /** What failure means: the entries are as before, or tell the instances that failed from those configured. */
  ghost predicate Fell(w: World, u: User, c: PostgresCluster, targets: seq<string>, before: seq<UserEntry>) {
    && u.status.phase == UserPhase.Failed
    && (u.status.entries == before
        || (PasswordIn(w, u).Some? && Reported(u.status.entries, targets, false)
            && ReadyHold(w, c, u.status.entries, u.spec, PasswordIn(w, u).value)))
  }

  lemma AllAreReady(w: World, c: PostgresCluster, entries: seq<UserEntry>, targets: seq<string>, spec: UserSpec, password: string)
    requires Reported(entries, targets, true) && ReadyHold(w, c, entries, spec, password)
    ensures entries == AllReady(targets) && forall t | t in targets :: Serves(w, c, t, spec, password)
  {
    forall t | t in targets ensures Serves(w, c, t, spec, password) {
      var i :| 0 <= i < |targets| && targets[i] == t;
      assert entries[i].ready && entries[i].name == t;
    }
  }

  /** The loop's report, once it is persisted. */
  lemma ReportTells(w: World, w': World, u: User, c: PostgresCluster, targets: seq<string>, f: Fanout, status: UserStatus)
    requires Persisted(w, w', u, status) && status.entries == f.entries && status.phase == if f.ok then Ready else UserPhase.Failed
    requires f.ok ==> PasswordIn(w, u).Some? && (f.entries == [] ==> targets == [])
    requires f.entries != [] ==> PasswordIn(w, u).Some? && Reported(f.entries, targets, f.ok)
                                 && ReadyHold(w, c, f.entries, u.spec, PasswordIn(w, u).value)
    ensures var u' := w'.user.value; if f.ok then Succeeded(w', u', c, targets, u.status.entries) else Fell(w', u', c, targets, u.status.entries)
  {
    assert PasswordIn(w', w'.user.value) == PasswordIn(w, u);
    if f.entries != [] {
      var password := PasswordIn(w, u).value;
      HoldLater(w, w', c, f.entries, u.spec, password);
      if f.ok {
        AllAreReady(w', c, f.entries, targets, u.spec, password);
      }
    }
  }

  lemma HoldLater(w: World, w': World, c: PostgresCluster, entries: seq<UserEntry>, spec: UserSpec, password: string)
    requires ReadyHold(w, c, entries, spec, password) && (w'.secrets, w'.databases) == (w.secrets, w.databases)
    ensures ReadyHold(w', c, entries, spec, password)
  {
    forall i | 0 <= i < |entries| && entries[i].ready ensures Serves(w', c, entries[i].name, spec, password) {
      assert Serves(w, c, entries[i].name, spec, password);
    }
  }

  /** What the status of this user says of the targets, if it was persisted after the old entries. */
  ghost predicate Told(w: World, u: User, c: PostgresCluster, targets: seq<string>, before: seq<UserEntry>) {
    Succeeded(w, u, c, targets, before) || Fell(w, u, c, targets, before)
  }

  /** The user persisted is the one read but for its status. */
  ghost predicate Same(w: World, u: User) {
    w.user.Some? && w.user.value.(status := u.status, version := u.version) == u
  }

  lemma FinishTells(pass: Pass, u: User, c: PostgresCluster, targets: seq<string>)
    requires Holding(pass.server, u) && SameButChange(u, pass.user) && pass.user.spec.password.Some?
    ensures var (s', outcome) := Finish(pass, c, targets);
            var w, w' := pass.server.world, s'.world;
            && (outcome == RequeueLater ==> Landed(w, w') && w'.user.Some? && w'.user.value.status.phase == Ready)
            && (Landed(w, w') ==> w'.clusters == w.clusters && Same(w', u) && Told(w', w'.user.value, c, targets, u.status.entries))
  {
    InstancesReported(pass.server, u, pass.user, c, targets);
    var f := ReconcileUserOnInstances(pass.server, pass.user, c, targets);
    var status := UserStatus(if f.ok then Ready else UserPhase.Failed, pass.user.status.lastPasswordChange, f.entries);
    SavedIsPersisted(f.server, u, pass.user, status);
    var w := SaveStatus(f.server, pass.user, status).0.world;
    if Landed(f.server.world, w) {
      assert PasswordIn(f.server.world, u) == PasswordIn(pass.server.world, u);
      ReportTells(f.server.world, w, u, c, targets, f, status);
    }
  }

  /** The cluster a user refers to, in its own namespace unless it names one. */
  ghost function ClusterOf(u: User): Key
    requires u.spec.clusterRef.Some?
  {
    var ref := u.spec.clusterRef.value;
    Key(if ref.namespace == "" then u.namespace else ref.namespace, ref.name)
  }

  /** The instances of the cluster a user refers to that its selector picks, as the store has them. */
  ghost predicate Aims(w: World, u: User, c: PostgresCluster, targets: seq<string>) {
    && u.spec.clusterRef.Some? && ClusterOf(u) in w.clusters && w.clusters[ClusterOf(u)] == c
    && Selectors.UserTargets(c.status.instances, u.spec.instances) == Ok(targets)
  }

  /** What a landed status says: of the targets, or that the pass did not get to them. */
  ghost predicate Tells(w: World, u: User, before: seq<UserEntry>) {
    || (u.status.phase == UserPhase.Failed && u.status.entries == before)
    || exists c, targets :: Aims(w, u, c, targets) && Told(w, u, c, targets, before)
  }

  lemma FailTells(s: Sys, u: User, m: User)
    requires Holding(s, u) && SameButChange(u, m)
    ensures var w := FailWith(s, m).0.world; Landed(s.world, w) ==> Same(w, u) && Tells(w, w.user.value, u.status.entries)
  {
    SavedIsPersisted(s, u, m, UserStatus(UserPhase.Failed, None, []));
  }

  lemma TargetsTell(s: Sys, u: User, c: PostgresCluster, targets: seq<string>, draw: Option<string>)
    requires Holding(s, u) && Aims(s.world, u, c, targets)
    ensures var (s', outcome) := ReconcileTargets(s, u, c, targets, draw); PassTells(s.world, s'.world, u, outcome)
  {
    SecretStep(s, u, draw);
    var pass := ReconcilePasswordSecret(s, u, draw);
    if pass.step == Failing {
      FailTells(pass.server, u, pass.user);
    } else if pass.step == Fine {
      FinishTells(pass, u, c, targets);
      var w := Finish(pass, c, targets).0.world;
      if Landed(s.world, w) {
        assert Aims(w, w.user.value, c, targets);
      }
    }
  }

  /** What a pass over this user leaves; one that succeeds has landed its status. */
  ghost predicate PassTells(w: World, w': World, u: User, outcome: Outcome) {
    && (outcome == RequeueLater ==> Landed(w, w') && w'.user.Some? && w'.user.value.status.phase == Ready)
    && (Landed(w, w') ==> Same(w', u) && Tells(w', w'.user.value, u.status.entries))
  }

  lemma UserTells(s: Sys, u: User, draw: Option<string>)
    requires Holding(s, u)
    ensures var (s', outcome) := ReconcileUser(s, u, draw); PassTells(s.world, s'.world, u, outcome)
  {
    if u.spec.clusterRef.None? {
      FailTells(s, u, u);
    } else {
      var q := GetCluster(u.spec.clusterRef.value.In(u.namespace));
      CallLooks(s, q, u);
      var (s1, a) := Call(s, q);
      if !a.ClusterIs? || Selectors.UserTargets(a.cluster.status.instances, u.spec.instances).Err? {
        FailTells(s1, u, u);
      } else {
        TargetsTell(s1, u, a.cluster, Selectors.UserTargets(a.cluster.status.instances, u.spec.instances).value, draw);
      }
    }
  }

  lemma {:induction false} NeutralLandsNothing(s: Sys, qs: seq<Request>)
    requires GentleAll(s.script) && AllOf(qs, UserRequests.Neutral)
    ensures var s' := Issued(API, s, qs); GentleAll(s'.script) && s'.world.statusWrites == s.world.statusWrites
    decreases |qs|
  {
    if qs != [] {
      var d := ArriveGently(s, qs[0]);
      assert UserRequests.Neutral(qs[0]);
      NeutralLandsNothing(Call(s, qs[0]).0, qs[1..]);
    }
  }

  lemma DeletionLandsNothing(s: Sys, u: User)
    requires GentleAll(s.script)
    ensures HandleDeletion(s, u).0.world.statusWrites == s.world.statusWrites
  {
    UserRequests.DropEverywhereNeutral(s, u);
    var s' := DropEverywhere(s, u);
    var qs :| AllOf(qs, UserRequests.Neutral) && Issued(API, s, qs) == s';
    NeutralLandsNothing(s, qs);
    var d := ArriveGently(s', UpdateUser(u.(finalizer := false)));
  }

  /**
   Whatever fails, a status that lands agrees with the databases: Ready has every target configured
   with the password of the user's secret, Failed tells the targets that are from those that are not.
   */
  lemma StatusTells(s: Sys, draw: Option<string>)
    requires GentleAll(s.script)
    ensures var (s', outcome) := Reconcile(s, draw);
            && (outcome == RequeueLater ==> Landed(s.world, s'.world) && s'.world.user.Some? && s'.world.user.value.status.phase == Ready)
            && (Landed(s.world, s'.world) ==>
                  s.world.user.Some? && s'.world.user.Some?
                  && Tells(s'.world, s'.world.user.value, s.world.user.value.status.entries))
  {
    var d := ArriveGently(s, GetUser);
    var (s1, got) := Call(s, GetUser);
    if got.UserIs? {
      var u := got.user;
      assert Holding(s1, u) && u.status == s.world.user.value.status;
      if !u.finalizer {
        var d1 := ArriveGently(s1, UpdateUser(u.(finalizer := true)));
      } else if u.deleting {
        DeletionLandsNothing(s1, u);
      } else {
        UserTells(s1, u, draw);
      }
    }
  }

  /** What a pass that reaches its end leaves, seen from the user and the clusters persisted. */
  ghost predicate PassSucceeded(w: World, w': World) {
    && w.user.Some? && w'.user.Some?
    && exists c, targets :: Aims(w', w'.user.value, c, targets)
         && Succeeded(w', w'.user.value, c, targets, w.user.value.status.entries)
  }

  /**
   A pass that succeeds records exactly one Ready entry per target, in order, and every
   target's database then holds the password that is in the secret, and the connection limit if
   one is set. With no target at all it reports Ready and keeps the entries it found, ready or not.
   */
  lemma SuccessConfigures(s: Sys, draw: Option<string>)
    requires GentleAll(s.script)
    ensures var (s', outcome) := Reconcile(s, draw); outcome == RequeueLater ==> PassSucceeded(s.world, s'.world)
  {
    StatusTells(s, draw);
  }

  // ------------------------------------------------------------------ deletion

  /** Names that PostgreSQL keeps to itself are never dropped. */
  ghost predicate Droppable(username: string) {
    username !in {
      "", "postgres", "template0", "template1", "pg_monitor", "pg_read_all_settings", "pg_read_all_stats",
      "pg_stat_scan_tables", "pg_read_server_files", "pg_write_server_files", "pg_execute_server_program"}
  }

  ghost predicate KnowsRole(w: World, db: Database, username: string) {
    db in w.databases && username in w.databases[db]
  }

  /** Some entry recorded ready stands for this database. */
  ghost predicate RecordedReady(c: PostgresCluster, entries: seq<UserEntry>, db: Database) {
    exists i :: 0 <= i < |entries| && entries[i].ready && Database(Key(c.namespace, c.name), entries[i].name) == db
  }

  /** Exactly the databases of the entries recorded ready have lost the role. */
  ghost predicate Dropped(w: World, w': World, c: PostgresCluster, username: string, entries: seq<UserEntry>) {
    && w'.(databases := w.databases) == w
    && forall db :: KnowsRole(w', db, username) <==> KnowsRole(w, db, username) && !RecordedReady(c, entries, db)
  }

  lemma DropOne(s: Sys, c: PostgresCluster, instance: string, username: string)
    requires Calm(s.script) && |s.script| >= 3 && Reachable(s.world, c) && Droppable(username)
    ensures var (s1, connected) := Connect(s, c, instance);
            var db := DatabaseOf(c, instance);
            var s2 := if connected then DropUser(s1, db, username) else s1;
            && Calm(s2.script) && |s2.script| >= |s.script| - 3
            && s2.world.(databases := s.world.databases) == s.world
            && forall db' :: KnowsRole(s2.world, db', username) <==> KnowsRole(s.world, db', username) && db' != db
  {
    var q := GetSecret(Key(c.namespace, c.name + "-credentials"));
    var db := DatabaseOf(c, instance);
    UserRequests.CalmCall(s, q);
    UserRequests.CalmCall(Call(s, q).0, Ping(db));
    var (s1, connected) := Connect(s, c, instance);
    if connected {
      UserRequests.CalmCall(s1, DropRole(db, username));
      assert DropUser(s1, db, username).world == Serve(s1.world, DropRole(db, username)).0;
    } else {
      assert db !in s.world.databases;
    }
  }

  lemma RecordedSplits(c: PostgresCluster, entries: seq<UserEntry>, db: Database)
    requires entries != []
    ensures RecordedReady(c, entries, db)
       <==> (entries[0].ready && DatabaseOf(c, entries[0].name) == db) || RecordedReady(c, entries[1..], db)
  {
    if RecordedReady(c, entries[1..], db) {
      var i :| 0 <= i < |entries[1..]| && entries[1..][i].ready && DatabaseOf(c, entries[1..][i].name) == db;
      assert entries[i + 1].ready && DatabaseOf(c, entries[i + 1].name) == db;
    }
    if RecordedReady(c, entries, db) {
      var i :| 0 <= i < |entries| && entries[i].ready && DatabaseOf(c, entries[i].name) == db;
      assert i > 0 ==> entries[1..][i - 1] == entries[i];
    }
  }

  /** Undisturbed, the loop takes the role from the databases recorded ready, and from no other. */
  lemma {:induction false} DropFromDrops(s: Sys, c: PostgresCluster, username: string, entries: seq<UserEntry>)
    requires Calm(s.script) && |s.script| >= 3 * |entries| && Reachable(s.world, c) && Droppable(username)
    ensures var s' := DropFrom(s, c, username, entries);
            && Calm(s'.script) && |s'.script| >= |s.script| - 3 * |entries|
            && Dropped(s.world, s'.world, c, username, entries)
    decreases |entries|
  {
    if entries != [] {
      var rest := entries[1..];
      forall db ensures RecordedReady(c, entries, db)
        <==> (entries[0].ready && DatabaseOf(c, entries[0].name) == db) || RecordedReady(c, rest, db)
      {
        RecordedSplits(c, entries, db);
      }
      if entries[0].ready {
        DropOne(s, c, entries[0].name, username);
        var (s1, connected) := Connect(s, c, entries[0].name);
        var s2 := if connected then DropUser(s1, DatabaseOf(c, entries[0].name), username) else s1;
        DropFromDrops(s2, c, username, rest);
      } else {
        DropFromDrops(s, c, username, rest);
      }
    }
  }

  /** Without credentials, or for a user that must not be dropped, the loop changes nothing. */
  lemma {:induction false} DropFromSpares(s: Sys, c: PostgresCluster, username: string, entries: seq<UserEntry>)
    requires Calm(s.script) && |s.script| >= 3 * |entries| && !(Reachable(s.world, c) && Droppable(username))
    ensures var s' := DropFrom(s, c, username, entries);
            Calm(s'.script) && |s'.script| >= |s.script| - 3 * |entries| && s'.world == s.world
    decreases |entries|
  {
    if entries != [] {
      if entries[0].ready {
        var q := GetSecret(Key(c.namespace, c.name + "-credentials"));
        UserRequests.CalmCall(s, q);
        UserRequests.CalmCall(Call(s, q).0, Ping(DatabaseOf(c, entries[0].name)));
        DropFromSpares(Connect(s, c, entries[0].name).0, c, username, entries[1..]);
      } else {
        DropFromSpares(s, c, username, entries[1..]);
      }
    }
  }

  /** Deletion gets to drop roles at all. */
  ghost predicate Drops(w: World, u: User) {
    && u.status.phase == Ready && u.spec.clusterRef.Some? && Droppable(u.spec.username)
    && ClusterOf(u) in w.clusters && Reachable(w, w.clusters[ClusterOf(u)])
  }

  /** The roles that survive: all but those on databases of entries recorded ready. */
  ghost predicate Survivors(w: World, w': World, u: User) {
    forall db :: KnowsRole(w', db, u.spec.username)
      <==> && KnowsRole(w, db, u.spec.username)
           && !(Drops(w, u) && RecordedReady(w.clusters[ClusterOf(u)], u.status.entries, db))
  }

  lemma DropEverywhereDrops(s: Sys, u: User)
    requires Calm(s.script) && |s.script| >= 1 + 3 * |u.status.entries|
    ensures var s' := DropEverywhere(s, u);
            && Calm(s'.script) && |s'.script| >= |s.script| - 1 - 3 * |u.status.entries|
            && s'.world.user == s.world.user && Survivors(s.world, s'.world, u)
  {
    if u.status.phase == Ready && u.spec.clusterRef.Some? {
      var q := GetCluster(u.spec.clusterRef.value.In(u.namespace));
      UserRequests.CalmCall(s, q);
      var (s1, a) := Call(s, q);
      if a.ClusterIs? {
        if Reachable(s1.world, a.cluster) && Droppable(u.spec.username) {
          DropFromDrops(s1, a.cluster, u.spec.username, u.status.entries);
        } else {
          DropFromSpares(s1, a.cluster, u.spec.username, u.status.entries);
        }
      }
    }
  }

  /**
   Undisturbed deletion, for every database: a role outlives the user exactly if it was there
   and not on an instance recorded ready of a user recorded Ready whose cluster can be reached.
   So instances that have left the targets, entries recorded not ready, and all instances of a
   user that is not Ready keep their roles. The finalizer goes either way.
   */
  lemma DeletionDropsReady(s: Sys, u: User)
    requires Calm(s.script) && |s.script| >= 2 + 3 * |u.status.entries|
    requires s.world.user == Some(u) && u.deleting
    ensures var (s', outcome) := HandleDeletion(s, u);
            outcome == Settled && s'.world.user.None? && Survivors(s.world, s'.world, u)
  {
    DropEverywhereDrops(s, u);
    UserRequests.CalmCall(DropEverywhere(s, u), UpdateUser(u.(finalizer := false)));
  }
}
