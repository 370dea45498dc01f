/**
 What a complete pass leaves in the cluster's objects, value by value: the defaults of the spec it
 works from and the passwords in the credentials.
 */
module ClusterContents {
  import opened Wrappers
  import opened ApiTypes
  import opened ClusterModel
  import opened ClusterConvergence

  // ------------------------------------------------------------------ the spec a pass works from

  /** What is left out gets its default; what is given stays. */
  ghost predicate Completes(full: ClusterSpec, spec: ClusterSpec) {
    && full.replicas == (if spec.replicas == 0 then 1 else spec.replicas)
    && full.postgresVersion == (if spec.postgresVersion == "" then "15" else spec.postgresVersion)
    && full.database == DatabaseSpec(if spec.database.name == "" then "postgres" else spec.database.name,
                                     spec.database.initScript, spec.database.access)
    && full.storage == spec.storage.(size := if spec.storage.size == "" then "10Gi" else spec.storage.size)
    && full.resources.cpu == (if spec.resources.cpu == "" then "500m" else spec.resources.cpu)
    && full.resources.memory == (if spec.resources.memory == "" then "1Gi" else spec.resources.memory)
    && full.backupStorage == spec.backupStorage
    && FeaturesComplete(full, spec)
  }

  ghost predicate FeaturesComplete(full: ClusterSpec, spec: ClusterSpec) {
    var (ha, ha'), (monitoring, monitoring') := (spec.highAvailability, full.highAvailability), (spec.monitoring, full.monitoring);
    && (ha'.enabled, ha'.synchronousReplication) == (ha.enabled, ha.synchronousReplication)
    && ha'.failoverTimeout == (if ha.failoverTimeout == 0 then 30 else ha.failoverTimeout)
    && (monitoring'.enabled, monitoring'.prometheus) == (monitoring.enabled, monitoring.prometheus)
    && monitoring'.port == (if monitoring.enabled && monitoring.port == 0 then 9187 else monitoring.port)
  }

  /** A cluster without instances gets one primary that has everything from the cluster. */
  ghost predicate Populates(full: ClusterSpec, spec: ClusterSpec) {
    if spec.instances != [] then full.instances == spec.instances
    else
      && |full.instances| == 1
      && var only := full.instances[0];
      && only.name == only.role == "primary" && only.config == map[] && only.replicas == Some(full.replicas)
      && only.storage == Some(full.storage) && only.resources == Some(full.resources)
      && only.database == Some(full.database)
  }

  lemma IntentMeans(c: Cluster)
    ensures var d := Intended(c);
            && (d.name, d.namespace) == (c.name, c.namespace)
            && Completes(d.spec, c.spec) && Populates(d.spec, c.spec)
  {
  }

  // ------------------------------------------------------------------ the credentials

  /** The i-th access entry is the last for its username. */
  ghost predicate LastFor(access: seq<DatabaseAccess>, i: nat)
    requires i < |access|
  {
    forall j | i < j < |access| :: access[j].username != access[i].username
  }

  /** The first draw for the superuser, the second for replication, one more per access entry. */
  ghost predicate Drawn(data: map<string, string>, access: seq<DatabaseAccess>, draws: seq<string>) {
    && |draws| >= 2 + |access|
    && "postgres-password" in data && data["postgres-password"] == draws[0]
    && "replication-password" in data && data["replication-password"] == draws[1]
    && forall i | 0 <= i < |access| && LastFor(access, i) ::
         var key := "user-" + access[i].username + "-password"; key in data && data[key] == draws[2 + i]
  }

  lemma UserKeyInjective(a: string, b: string)
    ensures UserKey(a) == UserKey(b) ==> a == b
  {
    if UserKey(a) == UserKey(b) {
      assert |UserKey(a)| == |a| + 14 && |UserKey(b)| == |b| + 14;
      assert UserKey(a)[5..][..|a|] == a && UserKey(b)[5..][..|b|] == b;
    }
  }

  lemma {:induction false} UserPasswordsLast(access: seq<DatabaseAccess>, draws: seq<string>, i: nat)
    requires |draws| >= |access| && i < |access| && LastFor(access, i)
    ensures var m := UserPasswords(access, draws); UserKey(access[i].username) in m && m[UserKey(access[i].username)] == draws[i]
  {
    var n := |access| - 1;
    if i < n {
      assert forall j | i < j < n :: access[..n][j] == access[j];
      UserPasswordsLast(access[..n], draws[..n], i);
      UserKeyInjective(access[n].username, access[i].username);
    }
  }

  lemma UserKeyApart(username: string)
    ensures UserKey(username) != "postgres-password" && UserKey(username) != "replication-password"
  {
    assert UserKey(username)[0] == 'u';
  }

  lemma SecretDataDrawn(access: seq<DatabaseAccess>, draws: seq<string>)
    requires |draws| >= 2 + |access|
    ensures Drawn(SecretData(access, draws), access, draws)
  {
    UserPasswordsKeys(access, draws[2..]);
    forall i | 0 <= i < |access| ensures UserKey(access[i].username) !in {"postgres-password", "replication-password"} {
      UserKeyApart(access[i].username);
    }
    forall i | 0 <= i < |access| && LastFor(access, i)
      ensures var key := "user-" + access[i].username + "-password";
              key in SecretData(access, draws) && SecretData(access, draws)[key] == draws[2 + i]
    {
      UserPasswordsLast(access, draws[2..], i);
    }
  }

  /** The passwords in the store are those drawn for the cluster's users. */
  ghost predicate Credentialed(w: World, c: Cluster, draws: seq<string>) {
    var k := ObjKey(Secret, c.name + "-credentials");
    Wrote(w, k) && w.objects[k].body.SecretBody? && Drawn(w.objects[k].body.data, c.spec.database.access, draws)
  }

  lemma CredentialedQuiet(w: World, w': World, c: Cluster, draws: seq<string>)
    requires Credentialed(w, c, draws) && Quiet(w, w')
    ensures Credentialed(w', c, draws)
  {
    assert SameObject(w, w', ObjKey(Secret, c.name + "-credentials"));
  }

  lemma SpecCredentials(s: Sys, c: Cluster, ch: Choices)
    requires Fair(ch) && Undisturbed(s.script) && ReconcileSpec(s, c, ch).1 == RequeueLater
    ensures Credentialed(ReconcileSpec(s, c, ch).0.world, c, ch.draws)
  {
    var d := c.(spec := Defaulted(c.spec));
    var plan := ClusterPlan(d, ch);
    var s1 := RunPlan(s, plan).0;
    ApplyWritesConverges(s, plan.writes);
    PlanLastOfSecret(d, ch);
    SecretDataDrawn(d.spec.database.access, ch.draws);
    assert Holds(s1.world, ObjKey(Secret, c.name + "-credentials"), SecretBody(SecretData(c.spec.database.access, ch.draws)));
    ReportQuiet(s1, d);
    CredentialedQuiet(s1.world, ReportStatus(s1, d).0.world, c, ch.draws);
  }

  /** A pass that reaches its end leaves the passwords it has drawn, whatever was there before. */
  lemma PassCredentials(s: Sys, ch: Choices)
    requires Fair(ch) && Undisturbed(s.script) && s.world.cluster.Some? && !s.world.cluster.value.deleting
    requires Reconcile(s, ch).1 == RequeueLater
    ensures Credentialed(Reconcile(s, ch).0.world, s.world.cluster.value, ch.draws)
  {
    ReadFrames(s, GetCluster);
    var (s1, got) := Call(s, GetCluster);
    if got.cluster.finalizer {
      SpecCredentials(s1, got.cluster, ch);
    } else {
      var sent := got.cluster.(finalizer := true);
      UpdateQuiet(s1, sent);
      var d := Arrive(s1, UpdateCluster(sent));
      var (s2, a) := Call(s1, UpdateCluster(sent));
      SpecCredentials(s2, a.cluster, ch);
    }
  }
}
