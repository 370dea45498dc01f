/**
 The parts of a user pass that only look things up or talk to databases: each is a sequence of
 requests that leave the user, the secrets and the clock alone.

 Connecting, configuring one instance or all of them, and dropping a role everywhere are taken
 apart into their requests, whatever the answers turn out to be.
 */
module UserRequests {
  import opened ApiServer
  import opened ApiTypes
  import opened UserModel

  ghost predicate Neutral(q: Request) {
    q.GetUser? || q.GetCluster? || q.GetSecret? || q.Clock? || q.Ping? || q.SetRole? || q.SetLimit? || q.DropRole?
  }

  ghost predicate Neutrally(s: Sys, s': Sys) {
    Issues(API, s, s', Neutral)
  }

  lemma Nothing(s: Sys)
    ensures Neutrally(s, s)
  {
    NothingIssued(API, s, Neutral);
  }

  lemma One(s: Sys, q: Request)
    requires Neutral(q)
    ensures Neutrally(s, Call(s, q).0)
  {
    OneIssued(API, s, q, Neutral);
  }

  lemma Then(s: Sys, s1: Sys, s2: Sys)
    requires Neutrally(s, s1) && Neutrally(s1, s2)
    ensures Neutrally(s, s2)
  {
    IssuedThen(API, s, s1, s2, Neutral);
  }

  lemma OneMore(s: Sys, s1: Sys, q: Request)
    requires Neutrally(s, s1) && Neutral(q)
    ensures Neutrally(s, Call(s1, q).0)
  {
    One(s1, q);
    Then(s, s1, Call(s1, q).0);
  }

  /** A request that no one disturbs or refuses. */
  lemma CalmCall(s: Sys, q: Request)
    requires Calm(s.script) && s.script != []
    ensures var (s', a) := Call(s, q);
            && (s'.world, a) == Serve(s.world, q) && s'.script == s.script[1..] && Calm(s'.script)
  {
    CalmExchange(API, s, q);
  }

  // ------------------------------------------------------------------ the parts

  lemma ConnectNeutral(s: Sys, c: PostgresCluster, instance: string)
    ensures Neutrally(s, Connect(s, c, instance).0)
  {
    var q := GetSecret(Key(c.namespace, c.name + "-credentials"));
    One(s, q);
    OneMore(s, Call(s, q).0, Ping(DatabaseOf(c, instance)));
  }

  lemma ConfigureNeutral(s: Sys, u: User, c: PostgresCluster, instance: string, password: string)
    ensures Neutrally(s, ConfigureInstance(s, u, c, instance, password).0)
  {
    ConnectNeutral(s, c, instance);
    var (s1, connected) := Connect(s, c, instance);
    if connected {
      var db := DatabaseOf(c, instance);
      OneMore(s, s1, SetRole(db, u.spec.username, password));
      var s2 := CreateOrUpdateUser(s1, db, u.spec.username, password).0;
      OneMore(s, s2, SetLimit(db, u.spec.username, u.spec.connectionLimit));
    }
  }

  lemma {:induction false} FanoutNeutral(f: Fanout, u: User, c: PostgresCluster, targets: seq<string>, password: string)
    ensures Neutrally(f.server, ConfigureFrom(f, u, c, targets, password).server)
    decreases |targets|
  {
    if targets == [] {
      NothingIssued(API, f.server, Neutral);
    } else {
      ConfigureNeutral(f.server, u, c, targets[0], password);
      var (s, ready) := ConfigureInstance(f.server, u, c, targets[0], password);
      var f' := Fanout(s, f.entries + [UserEntry(targets[0], ready)], f.ok && ready);
      FanoutNeutral(f', u, c, targets[1..], password);
      Then(f.server, s, ConfigureFrom(f', u, c, targets[1..], password).server);
    }
  }

  lemma InstancesNeutral(s: Sys, u: User, c: PostgresCluster, targets: seq<string>)
    requires u.spec.password.Some?
    ensures Neutrally(s, ReconcileUserOnInstances(s, u, c, targets).server)
  {
    One(s, GetSecret(PasswordSource(u, u.spec.password.value).0));
    var (s', password) := GetPassword(s, u);
    if password.Some? {
      var f := Fanout(s', [], true);
      FanoutNeutral(f, u, c, targets, password.value);
      Then(s, s', ConfigureFrom(f, u, c, targets, password.value).server);
    }
  }

  lemma DropOneNeutral(s: Sys, c: PostgresCluster, instance: string, username: string)
    ensures var (s1, connected) := Connect(s, c, instance);
            Neutrally(s, if connected then DropUser(s1, DatabaseOf(c, instance), username) else s1)
  {
    ConnectNeutral(s, c, instance);
    OneMore(s, Connect(s, c, instance).0, DropRole(DatabaseOf(c, instance), username));
  }

  lemma {:induction false} DropNeutral(s: Sys, c: PostgresCluster, username: string, entries: seq<UserEntry>)
    ensures Neutrally(s, DropFrom(s, c, username, entries))
    decreases |entries|
  {
    if entries == [] {
      NothingIssued(API, s, Neutral);
    } else if !entries[0].ready {
      DropNeutral(s, c, username, entries[1..]);
    } else {
      DropOneNeutral(s, c, entries[0].name, username);
      var (s1, connected) := Connect(s, c, entries[0].name);
      var s2 := if connected then DropUser(s1, DatabaseOf(c, entries[0].name), username) else s1;
      DropNeutral(s2, c, username, entries[1..]);
      Then(s, s2, DropFrom(s2, c, username, entries[1..]));
    }
  }

  lemma DropEverywhereNeutral(s: Sys, u: User)
    ensures Neutrally(s, DropEverywhere(s, u))
  {
    if u.status.phase != Ready || u.spec.clusterRef.None? {
      NothingIssued(API, s, Neutral);
    } else {
      var q := GetCluster(u.spec.clusterRef.value.In(u.namespace));
      One(s, q);
      var (s', a) := Call(s, q);
      if a.ClusterIs? {
        DropNeutral(s', a.cluster, u.spec.username, u.status.entries);
        Then(s, s', DropFrom(s', a.cluster, u.spec.username, u.status.entries));
      }
    }
  }
}
