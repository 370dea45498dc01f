/**
 From the password drawn to the databases: a pass that replaces the generated secret and succeeds
 has put the password it drew there, and only that, and has given it to every target.
 */
module UserSecrets {
  import opened Wrappers
  import opened ApiTypes
  import opened UserModel
  import opened UserDatabases
  import opened UserInstances
  import Selectors

  /** One entry of one secret has been set; everything else in every secret is as it was. */
  ghost predicate OnlyEntry(w: World, w': World, key: Key, entry: string, text: string) {
    && key in w'.secrets
    && w'.secrets[key].data == Some((if key in w.secrets && w.secrets[key].data.Some? then w.secrets[key].data.value else map[])[entry := text])
    && w'.secrets - {key} == w.secrets - {key}
  }

  lemma SecretLands(w: World, q: Request)
    requires q.CreateSecret? || q.UpdateSecret?
    ensures var (w', a) := Serve(w, q);
            && w'.databases == w.databases
            && (a.Done? ==> w'.secrets == w.secrets[q.key := w'.secrets[q.key]] && w'.secrets[q.key].data == Some(q.data))
  {
  }

  ghost predicate LeavesOrSets(w: World, w': World, key: Key, password: string) {
    (w'.writes, w'.secrets) == (w.writes, w.secrets) || OnlyEntry(w, w', key, "password", password)
  }

  lemma WriteLeaves(s: Sys, key: Key, password: string, u: User)
    requires Holding(s, u)
    ensures var (s', step) := WriteSecret(s, key, password);
            && Holding(s', u)
            && (step == Fine ==> LeavesOrSets(s.world, s'.world, key, password))
  {
    CallLooks(s, GetSecret(key), u);
    var (s1, a) := Call(s, GetSecret(key));
    if a.SecretIs? {
      if a.secret.data.Some? {
        var q := UpdateSecret(key, a.secret.data.value["password" := password], a.secret.version);
        SecretWritten(s1, q, u);
        var d := ArriveGently(s1, q);
        SecretLands(d, q);
      }
    } else if a.NotFound? {
      var q := CreateSecret(key, map["password" := password]);
      SecretWritten(s1, q, u);
      var d := ArriveGently(s1, q);
      SecretLands(d, q);
    }
  }

  /** The pass generates this user's password, and has just drawn it anew. */
  ghost predicate Regenerated(w: World, w': World, u: User, draw: Option<string>) {
    && u.spec.password.Some? && u.spec.password.value.secretRef.None? && u.spec.password.value.generate
    && draw.Some? && OnlyEntry(w, w', Key(u.namespace, u.name + "-password"), "password", draw.value)
  }

  lemma RotateLeaves(s: Sys, u: User, draw: string)
    requires Holding(s, u)
    ensures var pass := Rotate(s, u, Some(draw));
            pass.step == Fine ==>
              Holding(pass.server, u) && LeavesOrSets(s.world, pass.server.world, Key(u.namespace, u.name + "-password"), draw)
  {
    WriteLeaves(s, OwnSecret(u), draw, u);
    CallLooks(WriteSecret(s, OwnSecret(u), draw).0, Clock, u);
  }

  lemma StepLeaves(s: Sys, u: User, draw: Option<string>)
    requires Holding(s, u)
    ensures var pass := ReconcilePasswordSecret(s, u, draw);
            pass.step == Fine ==>
              u.spec.password.Some? && (pass.server.world.writes != s.world.writes ==> Regenerated(s.world, pass.server.world, u, draw))
  {
    if u.spec.password.Some? {
      var p := u.spec.password.value;
      if p.secretRef.Some? {
        CallLooks(s, GetSecret(PasswordSource(u, p).0), u);
      } else if p.generate {
        var change := u.status.lastPasswordChange;
        if Rotates(p) && change.Some? {
          CallLooks(s, Clock, u);
        }
        var (s1, due) := ShouldRotate(s, p, change);
        if due && draw.Some? {
          RotateLeaves(s1, u, draw.value);
        }
      }
    }
  }

  lemma FinishKeepsSecrets(pass: Pass, u: User, c: PostgresCluster, targets: seq<string>)
    requires Holding(pass.server, u) && SameButChange(u, pass.user) && pass.user.spec.password.Some?
    ensures var (s', outcome) := Finish(pass, c, targets);
            outcome == RequeueLater ==>
              (s'.world.secrets, s'.world.writes) == (pass.server.world.secrets, pass.server.world.writes) && Same(s'.world, u)
  {
    InstancesReported(pass.server, u, pass.user, c, targets);
    var f := ReconcileUserOnInstances(pass.server, pass.user, c, targets);
    var status := UserStatus(if f.ok then Ready else UserPhase.Failed, pass.user.status.lastPasswordChange, f.entries);
    SavedIsPersisted(f.server, u, pass.user, status);
  }

  lemma UserRegenerates(s: Sys, u: User, draw: Option<string>)
    requires Holding(s, u)
    ensures var (s', outcome) := ReconcileUser(s, u, draw);
            outcome == RequeueLater && s'.world.writes != s.world.writes ==>
              Same(s'.world, u) && Regenerated(s.world, s'.world, u, draw)
  {
    if ReconcileUser(s, u, draw).1 == RequeueLater {
      var q := GetCluster(u.spec.clusterRef.value.In(u.namespace));
      CallLooks(s, q, u);
      var (s1, a) := Call(s, q);
      SecretStep(s1, u, draw);
      StepLeaves(s1, u, draw);
      FinishKeepsSecrets(ReconcilePasswordSecret(s1, u, draw), u, a.cluster,
                         Selectors.UserTargets(a.cluster.status.instances, u.spec.instances).value);
    }
  }

  /** Every database the user is meant for has the password drawn. */
  ghost predicate Distributed(w: World, u: User, password: string) {
    exists c, targets :: Aims(w, u, c, targets) && forall t | t in targets :: Serves(w, c, t, u.spec, password)
  }

  /**
   A pass that has replaced the generated secret and succeeds leaves the drawn password in it, next
   to whatever else it held, and every target's role with that password.
   */
  lemma RotationReachesDatabases(s: Sys, draw: Option<string>)
    requires GentleAll(s.script)
    requires var (s', outcome) := Reconcile(s, draw); outcome == RequeueLater && s'.world.writes != s.world.writes
    ensures var w' := Reconcile(s, draw).0.world;
            && w'.user.Some? && Regenerated(s.world, w', w'.user.value, draw)
            && Distributed(w', w'.user.value, draw.value)
  {
    var d := ArriveGently(s, GetUser);
    var (s1, got) := Call(s, GetUser);
    assert Holding(s1, got.user) && SamePlace(s.world, s1.world);
    UserRegenerates(s1, got.user, draw);
    SuccessConfigures(s, draw);
    var w' := Reconcile(s, draw).0.world;
    var u := w'.user.value;
    assert PasswordIn(w', u) == draw;
    var c, targets :| Aims(w', u, c, targets) && Succeeded(w', u, c, targets, s.world.user.value.status.entries);
  }
}
