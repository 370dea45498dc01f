/**
 What single requests of a user pass do to the databases while no one else changes them.

 Time may pass, and the user may be edited or deleted meanwhile. Looking things up changes
 nothing; setting a role's password and its limit leaves whatever has been configured before as
 it is; and an instance that the operator has configured without an error holds the password,
 and the limit if one is asked for, on a database that the cluster's credentials open. A failure
 at any request leaves the roles set so far in place, and nothing else has changed.
 */
module UserDatabases {
  import opened Wrappers
  import opened ApiServer
  import opened ApiTypes
  import opened UserModel
  import opened UserHistory

  // ------------------------------------------------------------------ undisturbed passes

  /** Time may pass, and the user be edited or deleted; no one else changes what a pass works on. */
  ghost predicate Gentle(env: seq<EnvStep>) {
    forall i | 0 <= i < |env| :: env[i].Tick? || env[i].SpecEdited? || env[i].DeletionRequested?
  }

  ghost predicate GentleAll(script: seq<Turn<EnvStep>>) {
    forall i | 0 <= i < |script| :: Gentle(script[i].env)
  }

  ghost predicate SamePlace(w: World, w': World) {
    (w'.clusters, w'.secrets, w'.databases, w'.writes, w'.statusWrites)
    == (w.clusters, w.secrets, w.databases, w.writes, w.statusWrites)
  }

  ghost predicate Newer(w: World, w': World) {
    w'.user.Some? ==> w.user.Some? && SameOrNewer(w.user.value, w'.user.value)
  }

  lemma {:induction false} DriftGentle(s: Sys, env: seq<EnvStep>)
    requires Gentle(env)
    ensures var s' := Drift(API, s, env); SamePlace(s.world, s'.world) && Newer(s.world, s'.world) && s'.script == s.script
    decreases |env|
  {
    if env != [] {
      var w := Move(s.world, env[0]);
      assert SamePlace(s.world, w) && Newer(s.world, w);
      DriftGentle(s.Become(w), env[1..]);
    }
  }

  /** The world in which a request is served, if it is. */
  lemma ArriveGently(s: Sys, q: Request) returns (d: World)
    requires GentleAll(s.script)
    ensures SamePlace(s.world, d) && Newer(s.world, d) && GentleAll(Call(s, q).0.script)
    ensures var (s', a) := Call(s, q);
            var (w, b) := Serve(d, q);
            (s'.world == d && a == Unreachable) || (s'.world == w && (a == b || a == Unreachable))
  {
    d := s.world;
    if s.script != [] {
      var s0 := s.(script := s.script[1..]);
      DriftGentle(s0, s.script[0].env);
      d := Drift(API, s0, s.script[0].env).world;
      assert forall i | 0 <= i < |s.script| - 1 :: s.script[1..][i] == s.script[i + 1];
    }
  }

  /** The user persisted is the one read, or newer. */
  ghost predicate Holding(s: Sys, u: User) {
    GentleAll(s.script) && (s.world.user.Some? ==> SameOrNewer(u, s.world.user.value))
  }

  ghost predicate Looks(q: Request) {
    q.GetUser? || q.GetCluster? || q.GetSecret? || q.Clock? || q.Ping?
  }

  lemma LookServed(w: World, q: Request)
    requires Looks(q)
    ensures Serve(w, q).0 == w
  {
  }

  lemma CallLooks(s: Sys, q: Request, u: User)
    requires Holding(s, u) && Looks(q)
    ensures var (s', a) := Call(s, q);
            && Holding(s', u) && SamePlace(s.world, s'.world)
            && (a == Unreachable || a == Serve(s'.world, q).1)
  {
    var d := ArriveGently(s, q);
    LookServed(d, q);
  }

  // ------------------------------------------------------------------ one instance

  /** What a secret in the store says under an entry, if it has any. */
  ghost function EntryIn(w: World, key: Key, entry: string): Option<string> {
    if key in w.secrets && w.secrets[key].data.Some? && entry in w.secrets[key].data.value
    then Some(w.secrets[key].data.value[entry]) else None
  }

  /** The credentials with which the operator connects are there. */
  ghost predicate Reachable(w: World, c: PostgresCluster) {
    EntryIn(w, Key(c.namespace, c.name + "-credentials"), "postgres-password").Some?
  }

  /** What a configured instance holds: the password, and the limit if one is asked for. */
  ghost predicate Configured(w: World, db: Database, spec: UserSpec, password: string) {
    && db in w.databases && spec.username in w.databases[db]
    && w.databases[db][spec.username].password == password
    && (spec.connectionLimit >= 0 ==> w.databases[db][spec.username].limit == spec.connectionLimit)
  }

  ghost predicate SameButRoles(w: World, w': World) {
    (w'.clusters, w'.secrets, w'.writes, w'.statusWrites) == (w.clusters, w.secrets, w.writes, w.statusWrites)
  }

  /** Nothing configured is undone, and only databases change. */
  ghost predicate Progress(w: World, w': World, spec: UserSpec, password: string) {
    && SameButRoles(w, w')
    && (forall db | Configured(w, db, spec, password) :: Configured(w', db, spec, password))
  }

  lemma ProgressTwice(w: World, w1: World, w2: World, spec: UserSpec, password: string)
    requires Progress(w, w1, spec, password) && Progress(w1, w2, spec, password)
    ensures Progress(w, w2, spec, password)
  {
  }

  lemma RoleServed(w: World, db: Database, spec: UserSpec, password: string)
    ensures var (w', a) := Serve(w, SetRole(db, spec.username, password));
            && Progress(w, w', spec, password) && w'.user == w.user
            && (a.Done? ==> HasPassword(w', db, spec, password))
  {
  }

  lemma LimitServed(w: World, db: Database, spec: UserSpec, password: string)
    requires spec.connectionLimit >= 0 && HasPassword(w, db, spec, password)
    ensures var (w', a) := Serve(w, SetLimit(db, spec.username, spec.connectionLimit));
            && Progress(w, w', spec, password) && w'.user == w.user
            && Configured(w', db, spec, password)
  {
  }

  ghost predicate HasPassword(w: World, db: Database, spec: UserSpec, password: string) {
    db in w.databases && spec.username in w.databases[db] && w.databases[db][spec.username].password == password
  }

  lemma RoleSet(s: Sys, db: Database, u: User, password: string)
    requires Holding(s, u)
    ensures var (s', created) := CreateOrUpdateUser(s, db, u.spec.username, password);
            && Holding(s', u) && Progress(s.world, s'.world, u.spec, password)
            && (created ==> HasPassword(s'.world, db, u.spec, password))
  {
    if u.spec.username != "" && password != "" {
      var d := ArriveGently(s, SetRole(db, u.spec.username, password));
      RoleServed(d, db, u.spec, password);
    }
  }

  lemma LimitSet(s: Sys, db: Database, u: User, password: string)
    requires Holding(s, u) && u.spec.connectionLimit >= 0 && HasPassword(s.world, db, u.spec, password)
    ensures var (s', limited) := SetConnectionLimit(s, db, u.spec.username, u.spec.connectionLimit);
            && Holding(s', u) && Progress(s.world, s'.world, u.spec, password)
            && (limited ==> Configured(s'.world, db, u.spec, password))
  {
    if u.spec.username != "" {
      var d := ArriveGently(s, SetLimit(db, u.spec.username, u.spec.connectionLimit));
      LimitServed(d, db, u.spec, password);
    }
  }

  lemma ConnectLooks(s: Sys, c: PostgresCluster, instance: string, u: User)
    requires Holding(s, u)
    ensures var (s', connected) := Connect(s, c, instance);
            Holding(s', u) && SamePlace(s.world, s'.world) && (connected ==> Reachable(s'.world, c))
  {
    var q := GetSecret(Key(c.namespace, c.name + "-credentials"));
    CallLooks(s, q, u);
    CallLooks(Call(s, q).0, Ping(DatabaseOf(c, instance)), u);
  }

  /** The operator can connect to the cluster, and this instance of it is configured. */
  ghost predicate Serves(w: World, c: PostgresCluster, instance: string, spec: UserSpec, password: string) {
    Reachable(w, c) && Configured(w, Database(Key(c.namespace, c.name), instance), spec, password)
  }

  /** An instance reported ready holds the password, and the others keep theirs. */
  lemma InstanceConfigured(s: Sys, u: User, m: User, c: PostgresCluster, instance: string, password: string)
    requires Holding(s, u) && m.spec == u.spec
    ensures var (s', ready) := ConfigureInstance(s, m, c, instance, password);
            && Holding(s', u) && Progress(s.world, s'.world, u.spec, password)
            && (ready ==> Serves(s'.world, c, instance, u.spec, password))
  {
    ConnectLooks(s, c, instance, u);
    var (s1, connected) := Connect(s, c, instance);
    assert Progress(s.world, s1.world, u.spec, password);
    if connected {
      var db := DatabaseOf(c, instance);
      RoleSet(s1, db, u, password);
      var (s2, created) := CreateOrUpdateUser(s1, db, u.spec.username, password);
      ProgressTwice(s.world, s1.world, s2.world, u.spec, password);
      if created && u.spec.connectionLimit >= 0 {
        LimitSet(s2, db, u, password);
        ProgressTwice(s.world, s2.world, SetConnectionLimit(s2, db, u.spec.username, u.spec.connectionLimit).0.world, u.spec, password);
      }
    }
  }
}
