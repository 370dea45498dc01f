/**
 What a user's status says after an undisturbed pass, exactly: which instances are recorded ready,
 and when the user is.
 */
module UserOutcomes {
  import opened Wrappers
  import opened ApiServer
  import opened ApiTypes
  import opened UserModel
  import opened UserRequests
  import opened UserDatabases
  import opened UserInstances
  import Losses = UserLosses

  /** The credentials are there, the database runs, and there is a name and a password to set. */
  ghost predicate Workable(w: World, c: PostgresCluster, instance: string, username: string, password: string) {
    Reachable(w, c) && Database(Key(c.namespace, c.name), instance) in w.databases && username != "" && password != ""
  }

  /** Roles may differ; databases, credentials, and everything else are the same. */
  ghost predicate SameServers(w: World, w': World) {
    w'.(databases := w.databases) == w && w'.databases.Keys == w.databases.Keys
  }

  lemma CalmConnects(s: Sys, c: PostgresCluster, instance: string)
    requires Calm(s.script) && |s.script| >= 2
    ensures var (s', connected) := Connect(s, c, instance);
            && Calm(s'.script) && |s'.script| >= |s.script| - 2 && s'.world == s.world
            && (connected <==> Reachable(s.world, c) && Database(Key(c.namespace, c.name), instance) in s.world.databases)
  {
    var q := GetSecret(Key(c.namespace, c.name + "-credentials"));
    CalmCall(s, q);
    CalmCall(Call(s, q).0, Ping(DatabaseOf(c, instance)));
  }

  lemma CalmRole(s: Sys, db: Database, u: User, password: string)
    requires Calm(s.script) && |s.script| >= 2 && db in s.world.databases
    ensures var (s', created) := CreateOrUpdateUser(s, db, u.spec.username, password);
            && Calm(s'.script) && |s'.script| >= |s.script| - 1 && SameServers(s.world, s'.world)
            && (created <==> u.spec.username != "" && password != "")
            && (created ==> db in s'.world.databases && u.spec.username in s'.world.databases[db])
  {
    if u.spec.username != "" && password != "" {
      CalmCall(s, SetRole(db, u.spec.username, password));
    }
  }

  lemma CalmLimit(s: Sys, db: Database, u: User)
    requires Calm(s.script) && s.script != [] && u.spec.username != "" && u.spec.connectionLimit >= 0
    requires db in s.world.databases && u.spec.username in s.world.databases[db]
    ensures var (s', limited) := SetConnectionLimit(s, db, u.spec.username, u.spec.connectionLimit);
            limited && SameServers(s.world, s'.world)
  {
    CalmCall(s, SetLimit(db, u.spec.username, u.spec.connectionLimit));
  }

  lemma CalmConfigures(s: Sys, u: User, c: PostgresCluster, instance: string, password: string)
    requires Calm(s.script) && |s.script| >= 4
    ensures var (s', ready) := ConfigureInstance(s, u, c, instance, password);
            && SameServers(s.world, s'.world)
            && (ready <==> Workable(s.world, c, instance, u.spec.username, password))
  {
    CalmConnects(s, c, instance);
    var (s1, connected) := Connect(s, c, instance);
    if connected {
      var db := DatabaseOf(c, instance);
      CalmRole(s1, db, u, password);
      var (s2, created) := CreateOrUpdateUser(s1, db, u.spec.username, password);
      if created && u.spec.connectionLimit >= 0 {
        CalmLimit(s2, db, u);
      }
    }
  }

  /** Exactly the entries of workable targets say ready. */
  ghost predicate Exact(entries: seq<UserEntry>, w: World, c: PostgresCluster, targets: seq<string>, username: string, password: string) {
    && |entries| == |targets|
    && forall i | 0 <= i < |targets| :: entries[i] == UserEntry(targets[i], Workable(w, c, targets[i], username, password))
  }

  ghost predicate AllWorkable(w: World, c: PostgresCluster, targets: seq<string>, username: string, password: string) {
    forall t | t in targets :: Workable(w, c, t, username, password)
  }

  lemma ExactMore(entries: seq<UserEntry>, w: World, c: PostgresCluster, done: seq<string>, target: string, username: string, password: string)
    requires Exact(entries, w, c, done, username, password)
    ensures Exact(entries + [UserEntry(target, Workable(w, c, target, username, password))], w, c, done + [target], username, password)
    ensures AllWorkable(w, c, done + [target], username, password)
       <==> AllWorkable(w, c, done, username, password) && Workable(w, c, target, username, password)
  {
    assert forall t :: t in done + [target] <==> t in done || t == target;
  }

  lemma {:induction false} CalmFanoutExact(f: Fanout, w: World, u: User, c: PostgresCluster, done: seq<string>, targets: seq<string>, password: string)
    requires Calm(f.server.script) && |f.server.script| >= 4 * |targets| && SameServers(w, f.server.world)
    requires Exact(f.entries, w, c, done, u.spec.username, password)
    requires f.ok <==> AllWorkable(w, c, done, u.spec.username, password)
    ensures var f' := ConfigureFrom(f, u, c, targets, password);
            && SameServers(w, f'.server.world) && Exact(f'.entries, w, c, done + targets, u.spec.username, password)
            && (f'.ok <==> AllWorkable(w, c, done + targets, u.spec.username, password))
    decreases |targets|
  {
    if targets == [] {
      assert done + targets == done;
    } else {
      CalmConfigures(f.server, u, c, targets[0], password);
      Losses.CalmConfigure(f.server, u, c, targets[0], password);
      var (s, ready) := ConfigureInstance(f.server, u, c, targets[0], password);
      ExactMore(f.entries, w, c, done, targets[0], u.spec.username, password);
      CalmFanoutExact(Fanout(s, f.entries + [UserEntry(targets[0], ready)], f.ok && ready), w, u, c, done + [targets[0]], targets[1..], password);
      assert done + [targets[0]] + targets[1..] == done + targets;
    }
  }

  /** What is persisted of a user whose pass found the secret in order. */
  ghost predicate Recorded(w: World, u: User, u': User, c: PostgresCluster, targets: seq<string>) {
    var password := PasswordIn(w, u);
    && u'.(status := u.status, version := u.version) == u
    && u'.status.lastPasswordChange == Stored(u.status).lastPasswordChange
    && match password
       case None => u'.status.phase == UserPhase.Failed && u'.status.entries == u.status.entries
       case Some(text) =>
         && (u'.status.phase == if AllWorkable(w, c, targets, u.spec.username, text) then Ready else UserPhase.Failed)
         && if targets == [] then u'.status.entries == u.status.entries
            else Exact(u'.status.entries, w, c, targets, u.spec.username, text)
  }

  lemma CalmInstances(s: Sys, u: User, c: PostgresCluster, targets: seq<string>)
    requires Calm(s.script) && |s.script| >= 4 * |targets| + 1 && u.spec.password.Some?
    ensures var f := ReconcileUserOnInstances(s, u, c, targets);
            && Calm(f.server.script) && |f.server.script| >= |s.script| - 4 * |targets| - 1 && f.server.world.user == s.world.user
            && match PasswordIn(s.world, u)
               case None => f.entries == [] && !f.ok
               case Some(text) =>
                 && Exact(f.entries, s.world, c, targets, u.spec.username, text)
                 && (f.ok <==> AllWorkable(s.world, c, targets, u.spec.username, text))
  {
    CalmCall(s, GetSecret(PasswordSource(u, u.spec.password.value).0));
    var (s1, password) := GetPassword(s, u);
    assert password == PasswordIn(s.world, u);
    if password.Some? {
      var f := Fanout(s1, [], true);
      Losses.CalmFanout(f, u, c, targets, password.value);
      CalmFanoutExact(f, s.world, u, c, [], targets, password.value);
      assert [] + targets == targets;
    }
  }

  lemma CalmSave(s: Sys, u: User, status: UserStatus)
    requires Calm(s.script) && s.script != [] && s.world.user == Some(u)
    ensures var (s', saved) := SaveStatus(s, u, status);
            && saved && s'.world.user.Some?
            && s'.world.user.value.(status := u.status, version := u.version) == u
            && s'.world.user.value.status == Stored(Merged(u.status, status))
  {
    CalmCall(s, UpdateStatus(u.(status := Merged(u.status, status))));
  }

  lemma CalmFinishes(s: Sys, u: User, c: PostgresCluster, targets: seq<string>)
    requires Calm(s.script) && |s.script| >= 4 * |targets| + 2 && u.spec.password.Some? && s.world.user == Some(u)
    ensures var (s', outcome) := Finish(Pass(s, u, Fine), c, targets);
            && s'.world.user.Some? && Recorded(s.world, u, s'.world.user.value, c, targets)
            && (outcome == RequeueLater <==> s'.world.user.value.status.phase == Ready)
  {
    CalmInstances(s, u, c, targets);
    var f := ReconcileUserOnInstances(s, u, c, targets);
    CalmSave(f.server, u, UserStatus(if f.ok then Ready else UserPhase.Failed, u.status.lastPasswordChange, f.entries));
  }

  /** The user refers to a secret of its own, or has a generated password that is not due for rotation. */
  ghost predicate InOrder(w: World, u: User) {
    && u.spec.password.Some?
    && var p := u.spec.password.value;
       p.secretRef.Some? || (p.generate && !Due(p, u.status.lastPasswordChange, w.now))
  }

  lemma CalmSecret(s: Sys, u: User, draw: Option<string>)
    requires Calm(s.script) && s.script != [] && InOrder(s.world, u)
    ensures var pass := ReconcilePasswordSecret(s, u, draw);
            && Calm(pass.server.script) && |pass.server.script| >= |s.script| - 1 && pass.server.world == s.world && pass.user == u
            && pass.step == if u.spec.password.value.secretRef.Some? && PasswordIn(s.world, u).None? then Failing else Fine
  {
    var p := u.spec.password.value;
    if p.secretRef.Some? {
      CalmCall(s, GetSecret(PasswordSource(u, p).0));
    } else if Rotates(p) && u.status.lastPasswordChange.Some? {
      CalmCall(s, Clock);
    }
  }

  lemma CalmTargets(s: Sys, u: User, c: PostgresCluster, targets: seq<string>, draw: Option<string>)
    requires Calm(s.script) && |s.script| >= 4 * |targets| + 3 && s.world.user == Some(u) && InOrder(s.world, u)
    ensures var (s', outcome) := ReconcileTargets(s, u, c, targets, draw);
            && s'.world.user.Some? && Recorded(s.world, u, s'.world.user.value, c, targets)
            && (outcome == RequeueLater <==> s'.world.user.value.status.phase == Ready)
  {
    CalmSecret(s, u, draw);
    var pass := ReconcilePasswordSecret(s, u, draw);
    if pass.step == Fine {
      CalmFinishes(pass.server, u, c, targets);
    } else {
      CalmSave(pass.server, u, UserStatus(UserPhase.Failed, None, []));
    }
  }

  /**
   Exactly what an undisturbed pass records while the password stays as it is: an entry is ready
   if and only if its database can be reached and there is a name and a password to set, and the
   user is Ready if and only if there is a password and all targets are.
   */
  lemma PassRecordsExactly(s: Sys, u: User, c: PostgresCluster, targets: seq<string>, draw: Option<string>)
    requires Calm(s.script) && |s.script| >= 4 * |targets| + 5
    requires s.world.user == Some(u) && u.finalizer && !u.deleting && InOrder(s.world, u) && Aims(s.world, u, c, targets)
    ensures var (s', outcome) := Reconcile(s, draw);
            && s'.world.user.Some? && Recorded(s.world, u, s'.world.user.value, c, targets)
            && (outcome == RequeueLater <==> s'.world.user.value.status.phase == Ready)
  {
    CalmCall(s, GetUser);
    var s1 := Call(s, GetUser).0;
    var q := GetCluster(u.spec.clusterRef.value.In(u.namespace));
    CalmCall(s1, q);
    CalmTargets(Call(s1, q).0, u, c, targets, draw);
  }
}
