/**
 controllers/postgresuser_controller.go in its own form: methods that update the PostgresUser
 in memory, the API server and the databases. Each is proved to do to them exactly what the
 function of the same name in UserModel says.
 */
module UserController {
  import opened Wrappers
  import opened ApiServer
  import opened ApiTypes
  import opened UserModel
  import Model = UserModel
  import Selectors

  /** The PostgresUser the reconciler holds in memory. */
  class UserObject {
    var name: string
    var namespace: string
    var spec: UserSpec
    var status: UserStatus
    var version: nat
    var finalizer: bool
    var deleting: bool

    ghost function Value(): User
      reads this
    {
      Resource(name, namespace, spec, status, version, finalizer, deleting)
    }

    constructor (u: User)
      ensures Value() == u
    {
      name, namespace, spec, status := u.name, u.namespace, u.spec, u.status;
      version, finalizer, deleting := u.version, u.finalizer, u.deleting;
    }

    /** What a successful write does: the server's version replaces the one in memory. */
    method Overwrite(u: User)
      modifies this
      ensures Value() == u
    {
      name, namespace, spec, status := u.name, u.namespace, u.spec, u.status;
      version, finalizer, deleting := u.version, u.finalizer, u.deleting;
    }

    method Snapshot() returns (u: User)
      ensures u == Value()
    {
      u := Resource(name, namespace, spec, status, version, finalizer, deleting);
    }
  }

  class UserReconciler {
    const api: Server<World, EnvStep, Request, Answer>

    constructor (api: Server<World, EnvStep, Request, Answer>)
      ensures this.api == api
    {
      this.api := api;
    }

    method UpdateStatus(user: UserObject, status: UserStatus) returns (ok: bool)
      requires api.p == API
      modifies api, user
      ensures (api.State(), ok) == SaveStatus(old(api.State()), old(user.Value()), status)
    {
      var merged := status;
      if |merged.entries| == 0 && |user.status.entries| > 0 {
        merged := merged.(entries := user.status.entries);
      }
      if merged.lastPasswordChange.None? && user.status.lastPasswordChange.Some? {
        merged := merged.(lastPasswordChange := user.status.lastPasswordChange);
      }
      assert merged == Merged(user.status, status);
      user.status := merged;
      var sent := user.Snapshot();
      var a := api.Call(Request.UpdateStatus(sent));
      if a.UserIs? { user.Overwrite(a.user); }
      ok := a.UserIs?;
    }

    method Fail(user: UserObject) returns (outcome: Outcome)
      requires api.p == API
      modifies api, user
      ensures (api.State(), outcome) == FailWith(old(api.State()), old(user.Value()))
    {
      var _ := UpdateStatus(user, UserStatus(Failed, None, []));
      return Erring;
    }

    method Now() returns (now: int)
      requires api.p == API
      modifies api
      ensures (api.State(), now) == ReadClock(old(api.State()))
    {
      var _ := api.Call(Clock);
      now := api.world.now;
    }

    method ShouldRotatePassword(user: UserObject, p: PasswordSpec) returns (due: bool)
      requires api.p == API
      modifies api
      ensures (api.State(), due) == ShouldRotate(old(api.State()), p, user.status.lastPasswordChange)
    {
      if p.rotationPolicy.None? || !p.rotationPolicy.value.enabled {
        return user.status.lastPasswordChange.None?;
      }
      if user.status.lastPasswordChange.None? { return true; }
      var now := Now();
      due := Since(now, user.status.lastPasswordChange.value) >= Interval(p);
    }

    /** controllerutil.CreateOrUpdate on the user's secret. */
    method CreateOrUpdateSecret(key: Key, password: string) returns (step: Step)
      requires api.p == API
      modifies api
      ensures (api.State(), step) == WriteSecret(old(api.State()), key, password)
    {
      var a := api.Call(GetSecret(key));
      if !a.SecretIs? {
        if !a.NotFound? { return Failing; }
        var created := api.Call(CreateSecret(key, map["password" := password]));
        return if created.Done? then Fine else Failing;
      }
      if a.secret.data.None? { return Panicking; }
      var data := a.secret.data.value["password" := password];
      if data == a.secret.data.value { return Fine; }
      var updated := api.Call(UpdateSecret(key, data, a.secret.version));
      return if updated.Done? then Fine else Failing;
    }

    method ReconcilePasswordSecret(user: UserObject, draw: Option<string>) returns (step: Step)
      requires api.p == API
      modifies api, user`status
      ensures Model.ReconcilePasswordSecret(old(api.State()), old(user.Value()), draw) == Pass(api.State(), user.Value(), step)
    {
      if user.spec.password.None? { return Failing; }
      var p := user.spec.password.value;
      if p.secretRef.Some? {
        var a := api.Call(GetSecret(Key(user.namespace, p.secretRef.value.name)));
        var entry := "password";
        if p.secretRef.value.key != "" { entry := p.secretRef.value.key; }
        return if EntryOf(a, entry).Some? then Fine else Failing;
      }
      if !p.generate { return Failing; }
      var due := ShouldRotatePassword(user, p);
      if !due { return Fine; }
      if draw.None? { return Failing; }
      step := CreateOrUpdateSecret(Key(user.namespace, user.name + "-password"), draw.value);
      if step != Fine { return; }
      var now := Now();
      user.status := user.status.(lastPasswordChange := Some(now));
    }

    method Connect(c: PostgresCluster, instance: string) returns (ok: bool)
      requires api.p == API
      modifies api
      ensures (api.State(), ok) == Model.Connect(old(api.State()), c, instance)
    {
      var a := api.Call(GetSecret(Key(c.namespace, c.name + "-credentials")));
      if EntryOf(a, "postgres-password").None? { return false; }
      var b := api.Call(Ping(DatabaseOf(c, instance)));
      ok := b.Done?;
    }

    /** One turn of the loop of reconcileUserOnInstances. */
    method ConfigureInstance(user: UserObject, c: PostgresCluster, instance: string, password: string) returns (ready: bool)
      requires api.p == API
      modifies api
      ensures (api.State(), ready) == Model.ConfigureInstance(old(api.State()), user.Value(), c, instance, password)
    {
      var connected := Connect(c, instance);
      if !connected { return false; }
      var db := DatabaseOf(c, instance);
      if user.spec.username == "" || password == "" { return false; }
      var created := api.Call(SetRole(db, user.spec.username, password));
      if !created.Done? { return false; }
      if user.spec.connectionLimit >= 0 {
        var limited := api.Call(SetLimit(db, user.spec.username, user.spec.connectionLimit));
        return limited.Done?;
      }
      return true;
    }

    method GetPasswordFromSecret(user: UserObject) returns (password: Option<string>)
      requires api.p == API && user.spec.password.Some?
      modifies api
      ensures (api.State(), password) == GetPassword(old(api.State()), user.Value())
    {
      var secretName, secretKey := user.name + "-password", "password";
      var p := user.spec.password.value;
      if p.secretRef.Some? {
        secretName := p.secretRef.value.name;
        if p.secretRef.value.key != "" { secretKey := p.secretRef.value.key; }
      }
      var a := api.Call(GetSecret(Key(user.namespace, secretName)));
      password := EntryOf(a, secretKey);
    }

    method ReconcileUserOnInstances(user: UserObject, c: PostgresCluster, targets: seq<string>)
      returns (entries: seq<UserEntry>, ok: bool)
      requires api.p == API && user.spec.password.Some?
      modifies api
      ensures Model.ReconcileUserOnInstances(old(api.State()), user.Value(), c, targets) == Fanout(api.State(), entries, ok)
    {
      var password := GetPasswordFromSecret(user);
      if password.None? { return [], false; }
      ghost var u, start := user.Value(), Fanout(api.State(), [], true);
      entries, ok := [], true;
      var i := 0;
      assert targets[0..] == targets;
      while i < |targets|
        invariant 0 <= i <= |targets|
        invariant ConfigureFrom(Fanout(api.State(), entries, ok), u, c, targets[i..], password.value)
               == ConfigureFrom(start, u, c, targets, password.value)
      {
        assert targets[i..][1..] == targets[i + 1..];
        var ready := ConfigureInstance(user, c, targets[i], password.value);
        entries := entries + [UserEntry(targets[i], ready)];
        if !ready { ok := false; }
        i := i + 1;
      }
    }

    method HandleDeletion(user: UserObject) returns (outcome: Outcome)
      requires api.p == API
      modifies api, user
      ensures (api.State(), outcome) == Model.HandleDeletion(old(api.State()), old(user.Value()))
    {
      if user.status.phase == Ready && user.spec.clusterRef.Some? {
        var a := api.Call(GetCluster(user.spec.clusterRef.value.In(user.namespace)));
        if a.ClusterIs? {
          DropFromInstances(a.cluster, user.spec.username, user.status.entries);
        }
      }
      user.finalizer := false;
      var sent := user.Snapshot();
      var a := api.Call(UpdateUser(sent));
      return if a.UserIs? then Settled else Erring;
    }

    method DropFromInstances(c: PostgresCluster, username: string, entries: seq<UserEntry>)
      requires api.p == API
      modifies api
      ensures api.State() == DropFrom(old(api.State()), c, username, entries)
    {
      ghost var start := api.State();
      var i := 0;
      assert entries[0..] == entries;
      while i < |entries|
        invariant 0 <= i <= |entries|
        invariant DropFrom(api.State(), c, username, entries[i..]) == DropFrom(start, c, username, entries)
      {
        assert entries[i..][1..] == entries[i + 1..];
        if entries[i].ready {
          var connected := Connect(c, entries[i].name);
          if connected && username != "" && username !in SYSTEM_USERS {
            var _ := api.Call(DropRole(DatabaseOf(c, entries[i].name), username));
          }
        }
        i := i + 1;
      }
    }

    /** Lines 81-115. */
    method ReconcileTargets(user: UserObject, c: PostgresCluster, targets: seq<string>, draw: Option<string>)
      returns (outcome: Outcome)
      requires api.p == API
      modifies api, user
      ensures (api.State(), outcome) == Model.ReconcileTargets(old(api.State()), old(user.Value()), c, targets, draw)
    {
      var step := ReconcilePasswordSecret(user, draw);
      if step == Failing {
        outcome := Fail(user);
        return;
      }
      if step == Panicking { return Erring; }
      var entries, ok := ReconcileUserOnInstances(user, c, targets);
      var status := UserStatus(if ok then Ready else Failed, user.status.lastPasswordChange, entries);
      var saved := UpdateStatus(user, status);
      return if saved && ok then RequeueLater else Erring;
    }

    method ReconcileUser(user: UserObject, draw: Option<string>) returns (outcome: Outcome)
      requires api.p == API
      modifies api, user
      ensures (api.State(), outcome) == Model.ReconcileUser(old(api.State()), old(user.Value()), draw)
    {
      if user.spec.clusterRef.None? {
        outcome := Fail(user);
        return;
      }
      var a := api.Call(GetCluster(user.spec.clusterRef.value.In(user.namespace)));
      if !a.ClusterIs? {
        outcome := Fail(user);
        return;
      }
      var targets := Selectors.GetTargetNames(a.cluster.status.instances, user.spec.instances);
      if targets.Err? {
        outcome := Fail(user);
        return;
      }
      outcome := ReconcileTargets(user, a.cluster, targets.value, draw);
    }

    method Reconcile(draw: Option<string>) returns (outcome: Outcome)
      requires api.p == API
      modifies api
      ensures (api.State(), outcome) == Model.Reconcile(old(api.State()), draw)
    {
      var got := api.Call(GetUser);
      if !got.UserIs? {
        return if got.NotFound? then Settled else Erring;
      }
      var user := new UserObject(got.user);
      if !user.finalizer {
        user.finalizer := true;
        var sent := user.Snapshot();
        var a := api.Call(UpdateUser(sent));
        return if a.UserIs? then RequeueNow else Erring;
      }
      if user.deleting {
        outcome := HandleDeletion(user);
        return;
      }
      outcome := ReconcileUser(user, draw);
    }
  }
}
