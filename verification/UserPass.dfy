/**
 One pass of the user controller, part by part.

 A pass writes the generated secret at most once, and only when the persisted change time and
 the rotation policy allow it. What it then holds in memory is no older than the write, and
 what a landed status write persists is that moment in whole seconds. Everything else it does
 leaves secret and change time alone, wherever it stops. The parts that only look things up or
 talk to databases are taken together, as sequences of requests.
 */
module UserPass {
  import opened Wrappers
  import opened ApiServer
  import opened ApiTypes
  import opened UserModel
  import opened UserRequests
  import opened UserHistory
  import Selectors

  // ------------------------------------------------------------------ the secret

  lemma WriteSecretOnce(s: Sys, key: Key, password: string, u: User, policy: Policy)
    requires At(s, u, policy)
    ensures var (s', step) := WriteSecret(s, key, password);
            && At(s', u, policy) && AtMostOne(s.world, s'.world)
            && (s'.world.writes != s.world.writes ==> step == if Heard(WriteAt(s, key, password)) then Fine else Failing)
  {
    CallNeutral(s, GetSecret(key), u, policy);
    var (s1, a) := Call(s, GetSecret(key));
    if a.SecretIs? {
      if a.secret.data.Some? {
        CallSecret(s1, UpdateSecret(key, a.secret.data.value["password" := password], a.secret.version), u, policy);
      }
    } else if a.NotFound? {
      CallSecret(s1, CreateSecret(key, map["password" := password]), u, policy);
    }
  }

  lemma DueAllowed(p: PasswordSpec, change: Option<int>, now: int, policy: Policy, spec: UserSpec)
    requires spec.password == Some(p) && Obeys(spec, policy) && Due(p, change, now)
    ensures forall t | t >= now :: Allowed(policy, change, t)
  {
    if policy.AtLeast? && change.Some? {
      IntervalExact(p);
      assert p.rotationPolicy.value.interval * HOUR >= policy.hours * HOUR;
    }
  }

  lemma RotateKept(s: Sys, u: User, policy: Policy, draw: Option<string>)
    requires At(s, u, policy) && forall t | t >= s.world.now :: Allowed(policy, u.status.lastPasswordChange, t)
    ensures PassKept(s, u, policy, Rotate(s, u, draw), if draw.Some? then WriteAt(s, OwnSecret(u), draw.value) else None)
  {
    if draw.Some? {
      WriteSecretOnce(s, OwnSecret(u), draw.value, u, policy);
      var (s1, step) := WriteSecret(s, OwnSecret(u), draw.value);
      if step == Fine {
        CallNeutral(s1, Clock, u, policy);
      }
    }
  }

  lemma ShouldRotateStill(s: Sys, u: User, p: PasswordSpec, policy: Policy)
    requires At(s, u, policy) && u.spec.password == Some(p)
    ensures var (s', due) := ShouldRotate(s, p, u.status.lastPasswordChange);
            && At(s', u, policy) && Still(s.world, s'.world)
            && (due ==> forall t | t >= s'.world.now :: Allowed(policy, u.status.lastPasswordChange, t))
  {
    var change := u.status.lastPasswordChange;
    if Rotates(p) && change.Some? {
      CallNeutral(s, Clock, u, policy);
    }
    var (s', due) := ShouldRotate(s, p, change);
    if due {
      DueAllowed(p, change, s'.world.now, policy, u.spec);
    }
  }

  lemma PasswordSecretKept(s: Sys, u: User, policy: Policy, draw: Option<string>)
    requires At(s, u, policy)
    ensures PassKept(s, u, policy, ReconcilePasswordSecret(s, u, draw), SecretStepAt(s, u, draw))
  {
    if u.spec.password.Some? {
      var p := u.spec.password.value;
      if p.secretRef.Some? {
        CallNeutral(s, GetSecret(PasswordSource(u, p).0), u, policy);
      } else if p.generate {
        ShouldRotateStill(s, u, p, policy);
        var (s', due) := ShouldRotate(s, p, u.status.lastPasswordChange);
        if due {
          RotateKept(s', u, policy, draw);
          KeptLater(s, s', u, policy, Rotate(s', u, draw), SecretStepAt(s, u, draw));
        }
      }
    }
  }

  lemma KeptLater(s: Sys, s': Sys, u: User, policy: Policy, pass: Pass, at: Option<Sys>)
    requires Still(s.world, s'.world) && PassKept(s', u, policy, pass, at)
    ensures PassKept(s, u, policy, pass, at)
  {
  }

  // ------------------------------------------------------------------ the rest of a pass

  lemma {:induction false} IssuedStill(s: Sys, qs: seq<Request>, u: User, policy: Policy)
    requires At(s, u, policy) && AllOf(qs, Neutral)
    ensures var s' := Issued(API, s, qs); At(s', u, policy) && Still(s.world, s'.world)
    decreases |qs|
  {
    if qs != [] {
      CallNeutral(s, qs[0], u, policy);
      IssuedStill(Call(s, qs[0]).0, qs[1..], u, policy);
      StillTwice(s.world, Call(s, qs[0]).0.world, Issued(API, s, qs).world);
    }
  }

  lemma NeutrallyStill(s: Sys, s': Sys, u: User, policy: Policy)
    requires At(s, u, policy) && Neutrally(s, s')
    ensures At(s', u, policy) && Still(s.world, s'.world)
  {
    var qs :| AllOf(qs, Neutral) && Issued(API, s, qs) == s';
    IssuedStill(s, qs, u, policy);
  }

  lemma TruncatedOrder(a: int, b: int)
    requires a == Truncated(a) && a <= b
    ensures a <= Truncated(b) <= b && Truncated(Truncated(b)) == Truncated(b)
  {
  }

  lemma TruncatedWhole(b: int)
    ensures Truncated(b) <= b < Truncated(b) + SECOND && Truncated(Truncated(b)) == Truncated(b)
  {
  }

  /** The change time a status write stores: that in memory, in whole seconds, no earlier than before. */
  lemma StoredChange(w: World, u: User, m: User)
    requires Whole(u.status.lastPasswordChange, w.now) && Mem(w, u, m)
    ensures var stored := Stored(m.status).lastPasswordChange;
            && Whole(stored, w.now) && NoEarlier(u.status.lastPasswordChange, stored)
            && (m.status.lastPasswordChange.Some? ==> stored == Some(Truncated(m.status.lastPasswordChange.value)))
  {
    var before, after := u.status.lastPasswordChange, m.status.lastPasswordChange;
    if after.Some? {
      TruncatedWhole(after.value);
      if before.Some? {
        TruncatedOrder(before.value, after.value);
      }
    }
  }

  lemma StatusServed(w: World, u: User, m: User, status: UserStatus)
    requires Inv(w) && Knows(w, u) && Mem(w, u, m)
    requires status.lastPasswordChange.None? || status.lastPasswordChange == m.status.lastPasswordChange
    ensures var w' := Serve(w, UpdateStatus(m.(status := Merged(m.status, status)))).0;
            && Inv(w') && Next(w, w') && w'.writes == w.writes && Recorded(w, w', m)
            && (w'.statusWrites <= w.statusWrites || m.status.lastPasswordChange == u.status.lastPasswordChange ==>
                  Unmoved(w', u.status.lastPasswordChange))
            && (w'.user.Some? ==> w.user.Some? && w'.user.value.spec == w.user.value.spec)
  {
    StoredChange(w, u, m);
    var sent := m.(status := Merged(m.status, status));
    assert Stored(sent.status).lastPasswordChange == Stored(m.status).lastPasswordChange;
    StatusLands(w, sent);
  }

  lemma StatusLands(w: World, sent: User)
    ensures var (w', a) := Serve(w, UpdateStatus(sent));
            if a.UserIs?
            then w.user.Some? && w'.user.Some? && w.user.value.version == sent.version
                 && w'.user.value.spec == w.user.value.spec && ChangeIn(w') == Stored(sent.status).lastPasswordChange
                 && w' == w.(user := w'.user, statusWrites := w.statusWrites + 1)
            else w' == w
  {
  }

  lemma SaveKept(s: Sys, u: User, m: User, status: UserStatus, policy: Policy)
    requires At(s, u, policy) && Mem(s.world, u, m)
    requires status.lastPasswordChange.None? || status.lastPasswordChange == m.status.lastPasswordChange
    ensures var s' := SaveStatus(s, m, status).0;
            && Ended(s', policy, u.status.lastPasswordChange) && s'.world.writes == s.world.writes
            && Recorded(s.world, s'.world, m) && Custody(s.world, s'.world)
            && (s'.world.statusWrites <= s.world.statusWrites || m.status.lastPasswordChange == u.status.lastPasswordChange ==>
                  Unmoved(s'.world, u.status.lastPasswordChange))
  {
    var q := UpdateStatus(m.(status := Merged(m.status, status)));
    var d := Arrive(s, q, policy);
    StatusServed(d.world, u, m, status);
    Extend(d, Serve(d.world, q).0);
  }

  lemma TruncatedMonotone(a: int, b: int)
    requires a <= b
    ensures Truncated(a) <= Truncated(b)
  {
  }

  lemma DatedRemembers(w: World, w': World, m: User)
    requires Dated(w, m) && w'.writes == w.writes && Recorded(w, w', m) && w'.statusWrites > w.statusWrites
    ensures Remembers(w')
  {
    TruncatedMonotone(w.writes[|w.writes| - 1], m.status.lastPasswordChange.value);
  }

  lemma FinishDone(pass: Pass, u: User, c: PostgresCluster, targets: seq<string>, policy: Policy)
    requires At(pass.server, u, policy) && Mem(pass.server.world, u, pass.user) && pass.user.spec.password.Some?
    ensures var s' := Finish(pass, c, targets).0;
            && Ended(s', policy, u.status.lastPasswordChange) && s'.world.writes == pass.server.world.writes
            && Custody(pass.server.world, s'.world) && Recorded(pass.server.world, s'.world, pass.user)
            && (s'.world.statusWrites <= pass.server.world.statusWrites ==> Unmoved(s'.world, u.status.lastPasswordChange))
  {
    InstancesNeutral(pass.server, pass.user, c, targets);
    var f := ReconcileUserOnInstances(pass.server, pass.user, c, targets);
    NeutrallyStill(pass.server, f.server, u, policy);
    var status := UserStatus(if f.ok then Ready else UserPhase.Failed, pass.user.status.lastPasswordChange, f.entries);
    SaveKept(f.server, u, pass.user, status, policy);
  }

  /** The secret has been dealt with, and the instances have had their turn. */
  lemma FineDone(s: Sys, u: User, pass: Pass, c: PostgresCluster, targets: seq<string>, policy: Policy, at: Option<Sys>)
    requires PassKept(s, u, policy, pass, at) && pass.step == Fine && pass.user.spec.password.Some?
    ensures PassDone(s, Finish(pass, c, targets).0, policy, u.status.lastPasswordChange, at)
  {
    FinishDone(pass, u, c, targets, policy);
    var s' := Finish(pass, c, targets).0;
    if s'.world.writes != s.world.writes && s'.world.statusWrites > s.world.statusWrites {
      DatedRemembers(pass.server.world, s'.world, pass.user);
    }
  }

  lemma FailingDone(s: Sys, u: User, pass: Pass, policy: Policy, at: Option<Sys>)
    requires PassKept(s, u, policy, pass, at) && pass.step == Failing
    ensures PassDone(s, FailWith(pass.server, pass.user).0, policy, u.status.lastPasswordChange, at)
  {
    SaveKept(pass.server, u, pass.user, UserStatus(Failed, None, []), policy);
  }

  lemma TargetsDone(s: Sys, u: User, c: PostgresCluster, targets: seq<string>, draw: Option<string>, policy: Policy)
    requires At(s, u, policy)
    ensures PassDone(s, ReconcileTargets(s, u, c, targets, draw).0, policy, u.status.lastPasswordChange, SecretStepAt(s, u, draw))
  {
    PasswordSecretKept(s, u, policy, draw);
    var pass := ReconcilePasswordSecret(s, u, draw);
    match pass.step
    case Failing => FailingDone(s, u, pass, policy, SecretStepAt(s, u, draw));
    case Panicking =>
    case Fine => FineDone(s, u, pass, c, targets, policy, SecretStepAt(s, u, draw));
  }

  lemma UserDone(s: Sys, u: User, draw: Option<string>, policy: Policy)
    requires At(s, u, policy)
    ensures PassDone(s, ReconcileUser(s, u, draw).0, policy, u.status.lastPasswordChange, UserAt(s, u, draw))
  {
    if u.spec.clusterRef.None? {
      SaveKept(s, u, u, UserStatus(Failed, None, []), policy);
    } else {
      var q := GetCluster(u.spec.clusterRef.value.In(u.namespace));
      CallNeutral(s, q, u, policy);
      var (s', a) := Call(s, q);
      if !a.ClusterIs? || Selectors.UserTargets(a.cluster.status.instances, u.spec.instances).Err? {
        SaveKept(s', u, u, UserStatus(Failed, None, []), policy);
      } else {
        var targets := Selectors.UserTargets(a.cluster.status.instances, u.spec.instances).value;
        TargetsDone(s', u, a.cluster, targets, draw, policy);
        DoneLater(s, s', ReconcileUser(s, u, draw).0, policy, u.status.lastPasswordChange, UserAt(s, u, draw));
      }
    }
  }

  // ------------------------------------------------------------------ deletion and whole passes

  lemma FinalizerServed(w: World, u: User, finalizer: bool)
    requires Inv(w) && Knows(w, u)
    ensures var w' := Serve(w, UpdateUser(u.(finalizer := finalizer))).0;
            && Inv(w') && Next(w, w') && w'.(user := w.user) == w
            && (w'.user.Some? ==> w.user.Some? && w'.user.value.spec == w.user.value.spec && ChangeIn(w') == ChangeIn(w))
  {
  }

  lemma FinalizerKept(s: Sys, u: User, finalizer: bool, policy: Policy)
    requires At(s, u, policy)
    ensures var s' := Call(s, UpdateUser(u.(finalizer := finalizer))).0;
            Ended(s', policy, u.status.lastPasswordChange) && s'.world.writes == s.world.writes && Custody(s.world, s'.world)
  {
    var q := UpdateUser(u.(finalizer := finalizer));
    var d := Arrive(s, q, policy);
    FinalizerServed(d.world, u, finalizer);
    Extend(d, Serve(d.world, q).0);
  }

  lemma FoundDone(s: Sys, u: User, draw: Option<string>, policy: Policy)
    requires At(s, u, policy)
    ensures PassDone(s, ReconcileFound(s, u, draw).0, policy, u.status.lastPasswordChange, FoundAt(s, u, draw))
  {
    if !u.finalizer {
      FinalizerKept(s, u, true, policy);
    } else if u.deleting {
      DropEverywhereNeutral(s, u);
      NeutrallyStill(s, DropEverywhere(s, u), u, policy);
      FinalizerKept(DropEverywhere(s, u), u, false, policy);
    } else {
      UserDone(s, u, draw, policy);
    }
  }

  lemma PassWrites(s: Sys, draw: Option<string>, policy: Policy)
    requires Good(s) && ObeysIn(s.world, policy) && Scripted(s.script, policy)
    ensures PassDone(s, Reconcile(s, draw).0, policy, ChangeIn(s.world), SecretWriteAt(s, draw))
    ensures s.world.user.None? ==>
      Reconcile(s, draw).0.world.writes == s.world.writes && Reconcile(s, draw).0.world.user.None?
  {
    var d := Arrive(s, GetUser, policy);
    Extend(d, d.world);
    var (s1, got) := Call(s, GetUser);
    assert Still(s.world, s1.world);
    if got.UserIs? {
      FoundDone(s1, got.user, draw, policy);
      DoneLater(s, s1, Reconcile(s, draw).0, policy, got.user.status.lastPasswordChange, SecretWriteAt(s, draw));
    }
  }

  lemma DoneLater(s: Sys, s1: Sys, s': Sys, policy: Policy, change: Option<int>, at: Option<Sys>)
    requires Still(s.world, s1.world) && PassDone(s1, s', policy, change, at)
    ensures PassDone(s, s', policy, change, at)
  {
  }
}
