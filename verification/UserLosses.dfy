/**
 When the spacing of password writes breaks: a write that the persisted change time does not record
 is repeated by the next undisturbed pass, and exactly the acknowledged ones are recorded.
 */
module UserLosses {
  import opened Wrappers
  import opened ApiServer
  import opened ApiTypes
  import opened UserModel
  import opened UserRequests
  import opened UserHistory
  import opened UserRotation
  import UserPass
  import Selectors

  // ------------------------------------------------------------------ which writes are recorded

  ghost predicate Limits(policy: Policy) {
    policy.Disabled? || (policy.AtLeast? && policy.hours > 0)
  }

  lemma BeforeTheWrite(w: World, w': World, policy: Policy, t: int)
    requires Inv(w) && w'.user.Some? && Unmoved(w', ChangeIn(w)) && Limits(policy)
    requires w'.writes == w.writes + [t] && Allowed(policy, ChangeIn(w), t)
    ensures !Remembers(w')
  {
    assert w'.writes[|w'.writes| - 1] == t;
    UserPass.TruncatedWhole(t);
  }

  /**
   A write is recorded exactly if the pass hears the reply to it and lands its status: then, and
   only then, the persisted change time is not before the second of the write.
   */
  lemma RecordedIffAcknowledged(s: Sys, draw: Option<string>, policy: Policy)
    requires Good(s) && ObeysIn(s.world, policy) && Scripted(s.script, policy) && Limits(policy)
    ensures var s' := Reconcile(s, draw).0;
            s'.world.writes != s.world.writes && s'.world.user.Some? ==>
              (Remembers(s'.world) <==> Acknowledges(s, s', SecretWriteAt(s, draw)))
  {
    UserPass.PassWrites(s, draw, policy);
    var s' := Reconcile(s, draw).0;
    if s'.world.writes != s.world.writes && s'.world.user.Some? && !Acknowledges(s, s', SecretWriteAt(s, draw)) {
      var t :| s.world.now <= t <= s'.world.now && s'.world.writes == s.world.writes + [t] && Allowed(policy, ChangeIn(s.world), t);
      assert s.Trace()[|s.past|] == s.world;
      BeforeTheWrite(s.world, s'.world, policy, t);
    }
  }

  /** So a run records all its writes exactly if it hears of them all and lands its statuses. */
  lemma {:induction false} RecordingIffAcknowledged(s: Sys, rounds: seq<Round>, policy: Policy)
    requires Good(s) && ObeysIn(s.world, policy) && ScriptedRounds(rounds, policy) && Limits(policy)
    ensures Recording(s, rounds) <==> Acknowledged(s, rounds)
    decreases |rounds|
  {
    if rounds != [] {
      var s0 := s.(script := rounds[0].script);
      assert s0.Trace() == s.Trace();
      assert Scripted(rounds[0].script, policy);
      UserPass.PassWrites(s0, rounds[0].draw, policy);
      RecordedIffAcknowledged(s0, rounds[0].draw, policy);
      forall i | 0 <= i < |rounds| - 1 ensures Scripted(rounds[1..][i].script, policy) {
        assert rounds[1..][i] == rounds[i + 1];
      }
      RecordingIffAcknowledged(Reconcile(s0, rounds[0].draw).0, rounds[1..], policy);
    }
  }

  // ------------------------------------------------------------------ a user whose password is due

  /** A user whose password the operator generates, and whose pass gets to it. */
  ghost predicate Generates(w: World, u: User) {
    && w.user == Some(u) && u.finalizer && !u.deleting
    && u.spec.clusterRef.Some? && u.spec.password.Some?
    && u.spec.password.value.secretRef.None? && u.spec.password.value.generate
    && var key := u.spec.clusterRef.value.In(u.namespace);
       key in w.clusters && Selectors.UserTargets(w.clusters[key].status.instances, u.spec.instances).Ok?
  }

  ghost predicate Wants(w: World, u: User) {
    Generates(w, u) && Due(u.spec.password.value, u.status.lastPasswordChange, w.now)
  }

  ghost function TargetsOf(w: World, u: User): seq<string>
    requires Generates(w, u)
  {
    Selectors.UserTargets(w.clusters[u.spec.clusterRef.value.In(u.namespace)].status.instances, u.spec.instances).value
  }

  /** The secret is missing, or has another password. */
  ghost predicate Takes(w: World, key: Key, draw: string) {
    key in w.secrets ==> w.secrets[key].data.Some? && w.secrets[key].data.value["password" := draw] != w.secrets[key].data.value
  }

  const CALM: Turn<EnvStep> := Turn([], Served)
  const LOSING: Turn<EnvStep> := Turn([], Lost)

  /** A request before which nothing moves, and that is served. */
  lemma Turned(s: Sys, q: Request)
    requires s.script != [] && s.script[0] in {CALM, LOSING}
    ensures var (s', a) := Call(s, q);
            && s'.world == Serve(s.world, q).0 && s'.script == s.script[1..]
            && a == if s.script[0] == CALM then Serve(s.world, q).1 else Unreachable
  {
  }

  lemma Dead(s: Sys, q: Request)
    requires s.script == []
    ensures Call(s, q) == (s, Unreachable)
  {
  }

  /** The clock is read if there is an interval to compare with. */
  function ClockTurns(u: User): seq<Turn<EnvStep>> {
    if u.spec.password.Some? && Rotates(u.spec.password.value) && u.status.lastPasswordChange.Some? then [CALM] else []
  }

  /** The turns before the secret is looked up. */
  function Lead(u: User): seq<Turn<EnvStep>> {
    [CALM, CALM] + ClockTurns(u)
  }

  /** An undisturbed pass gets to the secret, having changed nothing. */
  lemma ReachesSecret(s: Sys, u: User, draw: string, rest: seq<Turn<EnvStep>>) returns (s2: Sys, s3: Sys, c: PostgresCluster)
    requires Wants(s.world, u) && s.script == Lead(u) + rest
    ensures s3.world == s.world && s3.script == rest
    ensures Reconcile(s, Some(draw)) == ReconcileTargets(s2, u, c, TargetsOf(s.world, u), Some(draw))
    ensures ReconcilePasswordSecret(s2, u, Some(draw)) == Rotate(s3, u, Some(draw))
    ensures SecretWriteAt(s, Some(draw)) == WriteAt(s3, OwnSecret(u), draw)
  {
    var key := u.spec.clusterRef.value.In(u.namespace);
    c := s.world.clusters[key];
    Turned(s, GetUser);
    var s1 := Call(s, GetUser).0;
    assert s1.script == [CALM] + (ClockTurns(u) + rest);
    Turned(s1, GetCluster(key));
    s2 := Call(s1, GetCluster(key)).0;
    assert s2.script == ClockTurns(u) + rest;
    if ClockTurns(u) == [] {
      s3 := s2;
    } else {
      Turned(s2, Clock);
      s3 := Call(s2, Clock).0;
    }
  }

  // ------------------------------------------------------------------ the write of the secret

  /** The secret has been written, whether it was there before or not. */
  ghost predicate Wrote(w: World, w': World, key: Key, draw: string) {
    && w' == w.(secrets := w'.secrets, writes := w.writes + [w.now])
    && key in w'.secrets && w'.secrets[key].data.Some?
    && "password" in w'.secrets[key].data.value && w'.secrets[key].data.value["password"] == draw
  }

  /** The write is served; its reply may get lost. */
  lemma Writes(s: Sys, key: Key, draw: string, turn: Turn<EnvStep>, rest: seq<Turn<EnvStep>>)
    requires Takes(s.world, key, draw) && turn in {CALM, LOSING} && s.script == [CALM, turn] + rest
    ensures var (s', step) := WriteSecret(s, key, draw);
            && step == (if turn == CALM then Fine else Failing) && s'.script == rest
            && (Heard(WriteAt(s, key, draw)) <==> turn == CALM)
            && Wrote(s.world, s'.world, key, draw)
  {
    Turned(s, GetSecret(key));
    var s1 := Call(s, GetSecret(key)).0;
    assert s1.script == [turn] + rest && s1.world == s.world;
    if key in s.world.secrets {
      Turned(s1, UpdateSecret(key, s.world.secrets[key].data.value["password" := draw], s.world.secrets[key].version));
    } else {
      Turned(s1, CreateSecret(key, map["password" := draw]));
    }
    assert s1.script[1..] == rest;
  }

  /** A status write over the user it was read from. */
  lemma StatusSaved(s: Sys, u: User, m: User, status: UserStatus)
    requires s.script != [] && s.script[0] == CALM && s.world.user == Some(u) && m.version == u.version
    ensures var s' := SaveStatus(s, m, status).0;
            && s'.world == s.world.(user := s'.world.user, statusWrites := s.world.statusWrites + 1)
            && s'.world.user.Some?
            && s'.world.user.value.(status := u.status, version := u.version) == u
            && s'.world.user.value.status == Stored(Merged(m.status, status))
  {
    Turned(s, UpdateStatus(m.(status := Merged(m.status, status))));
  }

  // ------------------------------------------------------------------ a write that is not recorded

  /** How a first pass comes not to record its write: the reply is lost, or the process dies before the status is written. */
  datatype Mishap = ReplyLost | ProcessDies

  /** A pass up to its write of the secret, and the mishap. */
  function LosingScript(u: User, mishap: Mishap): seq<Turn<EnvStep>> {
    Lead(u) + ([CALM, if mishap == ReplyLost then LOSING else CALM] + if mishap == ReplyLost then [CALM] else [])
  }

  /** The secret has been written, and the user wants a password as before. */
  ghost predicate Unrecorded(w: World, w': World, u: User, draw: string) {
    && w'.now == w.now && w'.writes == w.writes + [w.now]
    && w'.user.Some? && Wants(w', w'.user.value) && OwnSecret(w'.user.value) == OwnSecret(u)
    && w'.user.value.spec == u.spec && w'.clusters == w.clusters
    && OwnSecret(u) in w'.secrets && w'.secrets[OwnSecret(u)].data.Some?
    && "password" in w'.secrets[OwnSecret(u)].data.value && w'.secrets[OwnSecret(u)].data.value["password"] == draw
  }

  /** The reply is lost, and the pass lands a Failed status. */
  lemma LosesReply(s: Sys, u: User, draw: string)
    requires Inv(s.world) && Wants(s.world, u) && Takes(s.world, OwnSecret(u), draw)
    requires s.script == LosingScript(u, ReplyLost)
    ensures var w := Reconcile(s, Some(draw)).0.world;
            Unrecorded(s.world, w, u, draw) && w.statusWrites == s.world.statusWrites + 1
    ensures !Heard(SecretWriteAt(s, Some(draw)))
  {
    var s2, s3, c := ReachesSecret(s, u, draw, [CALM, LOSING] + [CALM]);
    Writes(s3, OwnSecret(u), draw, LOSING, [CALM]);
    var s4 := WriteSecret(s3, OwnSecret(u), draw).0;
    StatusSaved(s4, u, u, UserStatus(Failed, None, []));
    assert Reconcile(s, Some(draw)).0 == SaveStatus(s4, u, UserStatus(Failed, None, [])).0;
  }

  /** The process dies right after the write. */
  lemma DiesAfterWrite(s: Sys, u: User, draw: string)
    requires Wants(s.world, u) && Takes(s.world, OwnSecret(u), draw) && s.script == LosingScript(u, ProcessDies)
    ensures var w := Reconcile(s, Some(draw)).0.world;
            Unrecorded(s.world, w, u, draw) && w.statusWrites == s.world.statusWrites
    ensures Heard(SecretWriteAt(s, Some(draw)))
  {
    var s2, s3, c := ReachesSecret(s, u, draw, [CALM, CALM] + []);
    Writes(s3, OwnSecret(u), draw, CALM, []);
    var s4 := WriteSecret(s3, OwnSecret(u), draw).0;
    Dead(s4, Clock);
    var pass := Rotate(s3, u, Some(draw));
    DiesFinishing(pass, c, TargetsOf(s.world, u));
    assert Reconcile(s, Some(draw)) == Finish(pass, c, TargetsOf(s.world, u));
  }

  lemma DiesFinishing(pass: Pass, c: PostgresCluster, targets: seq<string>)
    requires pass.user.spec.password.Some? && pass.server.script == []
    ensures Finish(pass, c, targets).0 == pass.server
  {
    var s, m := pass.server, pass.user;
    Dead(s, GetSecret(PasswordSource(m, m.spec.password.value).0));
    var f := ReconcileUserOnInstances(s, m, c, targets);
    Dead(s, UpdateStatus(m.(status := Merged(m.status, UserStatus(UserPhase.Failed, m.status.lastPasswordChange, f.entries)))));
  }

  // ------------------------------------------------------------------ an undisturbed pass

  /** No more than n calm requests later; only databases have changed. */
  ghost predicate CalmlyAfter(s: Sys, s': Sys, n: nat) {
    Calm(s'.script) && |s'.script| + n >= |s.script| && s'.world.(databases := s.world.databases) == s.world
  }

  lemma CalmConnect(s: Sys, c: PostgresCluster, instance: string)
    requires Calm(s.script) && |s.script| >= 2
    ensures var s' := Connect(s, c, instance).0; CalmlyAfter(s, s', 2) && s'.world == s.world
  {
    var q := GetSecret(Key(c.namespace, c.name + "-credentials"));
    CalmCall(s, q);
    CalmCall(Call(s, q).0, Ping(DatabaseOf(c, instance)));
  }

  lemma CalmRequest(s: Sys, q: Request)
    requires Calm(s.script) && s.script != [] && (q.SetRole? || q.SetLimit?)
    ensures CalmlyAfter(s, Call(s, q).0, 1)
  {
    CalmCall(s, q);
  }

  lemma CalmConfigure(s: Sys, u: User, c: PostgresCluster, instance: string, password: string)
    requires Calm(s.script) && |s.script| >= 4
    ensures CalmlyAfter(s, ConfigureInstance(s, u, c, instance, password).0, 4)
  {
    var db := DatabaseOf(c, instance);
    CalmConnect(s, c, instance);
    var (s1, connected) := Connect(s, c, instance);
    if connected {
      CalmRequest(s1, SetRole(db, u.spec.username, password));
      var s2 := CreateOrUpdateUser(s1, db, u.spec.username, password).0;
      CalmRequest(s2, SetLimit(db, u.spec.username, u.spec.connectionLimit));
    }
  }

  lemma {:induction false} CalmFanout(f: Fanout, u: User, c: PostgresCluster, targets: seq<string>, password: string)
    requires Calm(f.server.script) && |f.server.script| >= 4 * |targets|
    ensures CalmlyAfter(f.server, ConfigureFrom(f, u, c, targets, password).server, 4 * |targets|)
    decreases |targets|
  {
    if targets != [] {
      CalmConfigure(f.server, u, c, targets[0], password);
      var (s, ready) := ConfigureInstance(f.server, u, c, targets[0], password);
      CalmFanout(Fanout(s, f.entries + [UserEntry(targets[0], ready)], f.ok && ready), u, c, targets[1..], password);
    }
  }

  /** The rest of an undisturbed pass once its secret has been written: it lands its status. */
  lemma CalmFinish(pass: Pass, u: User, c: PostgresCluster, targets: seq<string>)
    requires Calm(pass.server.script) && |pass.server.script| >= 4 * |targets| + 2
    requires pass.server.world.user == Some(u) && pass.user.version == u.version && pass.user.spec.password.Some?
    ensures var w, w' := pass.server.world, Finish(pass, c, targets).0.world;
            w'.writes == w.writes && w'.statusWrites == w.statusWrites + 1
  {
    CalmCall(pass.server, GetSecret(PasswordSource(pass.user, pass.user.spec.password.value).0));
    var (s, password) := GetPassword(pass.server, pass.user);
    if password.Some? {
      CalmFanout(Fanout(s, [], true), pass.user, c, targets, password.value);
    }
    var f := ReconcileUserOnInstances(pass.server, pass.user, c, targets);
    var status := UserStatus(if f.ok then Ready else UserPhase.Failed, pass.user.status.lastPasswordChange, f.entries);
    StatusSaved(f.server, u, pass.user, status);
  }

  /** More requests than a pass makes. */
  ghost function Calls(w: World, u: User): nat
    requires Generates(w, u)
  {
    8 + 4 * |TargetsOf(w, u)|
  }

  /** A calm script, split where the secret is looked up. */
  lemma CalmLead(script: seq<Turn<EnvStep>>, u: User) returns (rest: seq<Turn<EnvStep>>)
    requires Calm(script) && |script| >= 6
    ensures script == Lead(u) + ([CALM, CALM] + ([CALM] + rest)) && Calm(rest) && |rest| >= |script| - 6
  {
    var n := |Lead(u)|;
    rest := script[n + 3..];
    assert forall i | 0 <= i < |script| :: script[i] == CALM;
  }

  /** The secret is written, and the moment noted in memory. */
  lemma CalmRotate(s: Sys, u: User, draw: string, rest: seq<Turn<EnvStep>>)
    requires Takes(s.world, OwnSecret(u), draw) && s.script == [CALM, CALM] + ([CALM] + rest)
    ensures var pass := Rotate(s, u, Some(draw));
            && pass.step == Fine && pass.server.script == rest && Heard(WriteAt(s, OwnSecret(u), draw))
            && pass.user == u.(status := u.status.(lastPasswordChange := Some(s.world.now)))
            && Wrote(s.world, pass.server.world, OwnSecret(u), draw)
  {
    Writes(s, OwnSecret(u), draw, CALM, [CALM] + rest);
    var s1 := WriteSecret(s, OwnSecret(u), draw).0;
    Turned(s1, Clock);
    assert ([CALM] + rest)[1..] == rest;
  }

  /** Where the password is due, an undisturbed pass writes the secret at once, and lands its status. */
  lemma CalmWrites(s: Sys, u: User, draw: string)
    requires Wants(s.world, u) && Takes(s.world, OwnSecret(u), draw)
    requires Calm(s.script) && |s.script| >= Calls(s.world, u)
    ensures var w := Reconcile(s, Some(draw)).0.world;
            w.writes == s.world.writes + [s.world.now] && w.statusWrites == s.world.statusWrites + 1
    ensures Heard(SecretWriteAt(s, Some(draw)))
  {
    var rest := CalmLead(s.script, u);
    var s2, s3, c := ReachesSecret(s, u, draw, [CALM, CALM] + ([CALM] + rest));
    CalmRotate(s3, u, draw, rest);
    var pass := Rotate(s3, u, Some(draw));
    CalmFinish(pass, u, c, TargetsOf(s.world, u));
    assert Reconcile(s, Some(draw)) == Finish(pass, c, TargetsOf(s.world, u));
  }

  lemma BareRotate(s: Sys, u: User, draw: string)
    requires s.script != [] && s.script[0] == CALM
    requires OwnSecret(u) in s.world.secrets && s.world.secrets[OwnSecret(u)].data.None?
    ensures var pass := Rotate(s, u, Some(draw)); pass.step == Panicking && pass.server.world == s.world
  {
    Turned(s, GetSecret(OwnSecret(u)));
  }

  lemma PanicEnds(s: Sys, u: User, c: PostgresCluster, targets: seq<string>, draw: Option<string>)
    requires ReconcilePasswordSecret(s, u, draw).step == Panicking
    ensures ReconcileTargets(s, u, c, targets, draw) == (ReconcilePasswordSecret(s, u, draw).server, Erring)
  {
  }

  /**
   A generated secret that is there without data stops an undisturbed pass whose password is due:
   the write into the nil map panics, and no status says so.
   */
  lemma BareSecretPanics(s: Sys, u: User, draw: string)
    requires Wants(s.world, u) && Calm(s.script) && |s.script| >= 6
    requires var key := Key(u.namespace, u.name + "-password"); key in s.world.secrets && s.world.secrets[key].data.None?
    ensures var (s', outcome) := Reconcile(s, Some(draw)); outcome == Erring && s'.world == s.world
  {
    var rest := CalmLead(s.script, u);
    var s2, s3, c := ReachesSecret(s, u, draw, [CALM, CALM] + ([CALM] + rest));
    BareRotate(s3, u, draw);
    PanicEnds(s2, u, c, TargetsOf(s.world, u), Some(draw));
  }

  // ------------------------------------------------------------------ and the spacing it breaks

  /** The user's interval is not longer than the policy asks for. */
  ghost predicate NoLonger(u: User, policy: Policy) {
    policy.AtLeast? && u.spec.password.Some? && Rotates(u.spec.password.value) ==>
      u.spec.password.value.rotationPolicy.value.interval <= policy.hours
  }

  /** What the last write was due by, the next pass finds due as well. */
  lemma StillDue(w: World, u: User, change: Option<int>, policy: Policy, t: int)
    requires Generates(w, u) && u.status.lastPasswordChange == change && t <= w.now
    requires Obeys(u.spec, policy) && NoLonger(u, policy) && Limits(policy) && Allowed(policy, change, t)
    ensures Wants(w, u)
  {
    if change.Some? {
      IntervalExact(u.spec.password.value);
    }
  }

  lemma NotSpaced(writes: seq<int>, t: int, policy: Policy)
    requires writes != [] && Limits(policy)
    requires policy.AtLeast? ==> t < Truncated(writes[|writes| - 1]) + policy.hours * HOUR
    ensures !Spaced(writes + [t], policy)
  {
    var more := writes + [t];
    assert more[|writes| - 1] == writes[|writes| - 1] && more[|writes|] == t;
  }

  /**
   After any pass whose write was not recorded, whatever else happened in it: if the user still
   generates its password and its interval has not been raised, the next undisturbed pass writes
   the secret again, at the moment it comes, be that before the interval is over or not.
   */
  lemma UnrecordedIsRepeated(s: Sys, draw: Option<string>, policy: Policy, next: Round)
    requires Good(s) && ObeysIn(s.world, policy) && Scripted(s.script, policy) && Limits(policy)
    requires var s' := Reconcile(s, draw).0;
             && s'.world.writes != s.world.writes && !Acknowledges(s, s', SecretWriteAt(s, draw))
             && s'.world.user.Some?
             && var u := s'.world.user.value;
                && Generates(s'.world, u) && NoLonger(u, policy)
                && next.draw.Some? && Takes(s'.world, OwnSecret(u), next.draw.value)
                && Calm(next.script) && |next.script| >= Calls(s'.world, u)
    ensures var s' := Reconcile(s, draw).0;
            var writes := Reconcile(s'.(script := next.script), next.draw).0.world.writes;
            && s'.world.writes != [] && writes == s'.world.writes + [s'.world.now]
            && ((policy.AtLeast? ==> s'.world.now < Truncated(s'.world.writes[|s'.world.writes| - 1]) + policy.hours * HOUR) ==>
                  !Spaced(writes, policy))
  {
    UserPass.PassWrites(s, draw, policy);
    var s' := Reconcile(s, draw).0;
    var t :| s.world.now <= t <= s'.world.now && s'.world.writes == s.world.writes + [t] && Allowed(policy, ChangeIn(s.world), t);
    StillDue(s'.world, s'.world.user.value, ChangeIn(s.world), policy, t);
    CalmWrites(s'.(script := next.script), s'.world.user.value, next.draw.value);
    if policy.AtLeast? ==> s'.world.now < Truncated(t) + policy.hours * HOUR {
      NotSpaced(s'.world.writes, s'.world.now, policy);
    }
  }

  ghost function CalmScript(n: nat): (script: seq<Turn<EnvStep>>)
    ensures |script| == n && Calm(script)
  {
    seq(n, _ => CALM)
  }

  /** A pass with a mishap, and an undisturbed one. */
  ghost function LosingRounds(w: World, u: User, mishap: Mishap, first: string, second: string): (rounds: seq<Round>)
    requires Generates(w, u)
    ensures |rounds| == 2
  {
    [Round(LosingScript(u, mishap), Some(first)), Round(CalmScript(Calls(w, u)), Some(second))]
  }

  lemma TwoRounds(s: Sys, a: Round, b: Round)
    ensures var s1 := Reconcile(s.(script := a.script), a.draw).0;
            Run(s, [a, b]) == Reconcile(s1.(script := b.script), b.draw).0
  {
    var s1 := Reconcile(s.(script := a.script), a.draw).0;
    var s2 := Reconcile(s1.(script := b.script), b.draw).0;
    assert [a, b][1..] == [b] && [b][1..] == [];
    assert Run(s2, []) == s2;
    assert Run(s1, [b]) == s2;
  }

  lemma Loses(s: Sys, u: User, mishap: Mishap, draw: string)
    requires Inv(s.world) && Wants(s.world, u) && Takes(s.world, OwnSecret(u), draw) && s.script == LosingScript(u, mishap)
    ensures var w := Reconcile(s, Some(draw)).0.world;
            && Unrecorded(s.world, w, u, draw)
            && w.statusWrites == s.world.statusWrites + if mishap == ReplyLost then 1 else 0
  {
    match mishap
    case ReplyLost => LosesReply(s, u, draw);
    case ProcessDies => DiesAfterWrite(s, u, draw);
  }

  lemma LosingScripted(w: World, u: User, mishap: Mishap, first: string, second: string, policy: Policy)
    requires Generates(w, u)
    ensures ScriptedRounds(LosingRounds(w, u, mishap, first, second), policy)
  {
    var rounds := LosingRounds(w, u, mishap, first, second);
    forall i, j | 0 <= i < |rounds| && 0 <= j < |rounds[i].script| ensures rounds[i].script[j].env == [] {
    }
  }

  lemma TakesAnother(w: World, w': World, u: User, first: string, second: string)
    requires Generates(w, u) && Unrecorded(w, w', u, first) && first != second
    ensures var u' := w'.user.value; Takes(w', OwnSecret(u'), second) && Calls(w', u') == Calls(w, u)
  {
    var data := w'.secrets[OwnSecret(u)].data.value;
    assert data["password" := second]["password"] == second;
  }

  lemma WritesTwice(s: Sys, w: World, u: User, first: string, second: string)
    requires Generates(w, u) && Unrecorded(w, s.world, u, first) && first != second
    requires s.script == CalmScript(Calls(w, u))
    ensures var end := Reconcile(s, Some(second)).0.world;
            end.writes == w.writes + [w.now, w.now] && end.statusWrites == s.world.statusWrites + 1
  {
    TakesAnother(w, s.world, u, first, second);
    CalmWrites(s, s.world.user.value, second);
    assert s.world.writes + [w.now] == w.writes + [w.now, w.now];
  }

  lemma TwiceNotSpaced(writes: seq<int>, t: int, policy: Policy)
    requires Limits(policy)
    ensures !Spaced(writes + [t, t], policy)
  {
    assert writes + [t, t] == (writes + [t]) + [t];
    UserPass.TruncatedWhole(t);
    NotSpaced(writes + [t], t, policy);
  }

  /**
   So for every user whose password is due, the first one or a later one, with whatever targets:
   a single lost reply, or the death of the process between the write and the status, makes two
   undisturbed passes write the secret twice at the same moment, whatever the policy asks for.
   */
  lemma LostReplyBreaksSpacing(w: World, u: User, policy: Policy, mishap: Mishap, first: string, second: string)
    requires Inv(w) && Wants(w, u) && Takes(w, OwnSecret(u), first) && first != second && Limits(policy)
    ensures var rounds := LosingRounds(w, u, mishap, first, second);
            var end := Run(Session([], w, []), rounds).world;
            && ScriptedRounds(rounds, policy)
            && end.writes == w.writes + [w.now, w.now] && !Spaced(end.writes, policy)
            && end.statusWrites == w.statusWrites + if mishap == ReplyLost then 2 else 1
  {
    var s := Session([], w, []);
    var rounds := LosingRounds(w, u, mishap, first, second);
    var a, b := rounds[0], rounds[1];
    assert rounds == [a, b];
    TwoRounds(s, a, b);
    Loses(s.(script := a.script), u, mishap, first);
    WritesTwice(Reconcile(s.(script := a.script), a.draw).0.(script := b.script), w, u, first, second);
    LosingScripted(w, u, mishap, first, second, policy);
    TwiceNotSpaced(w.writes, w.now, policy);
  }

  // ------------------------------------------------------------------ such a user exists

  function OneInstanceCluster(): PostgresCluster {
    PostgresCluster("c", "n",
      ClusterSpec("15", [], HASpec(false, false, 0), map[], 1, StorageSpec("", "", "", []), ResourceRequirements("", ""),
                  DatabaseSpec("", "", []), MonitoringSpec(false, false, 0)),
      ClusterStatus(ClusterRunning, 1, "", "15", [InstanceStatus("x", "primary", 1, "", map[])]))
  }

  /** A password that rotates every hour. */
  function HourlyUser(): User {
    Resource("u", "n",
      UserSpec(Some(Ref("c", "")), "u", Some(PasswordSpec(None, true, Some(RotationPolicy(true, 1)))), -1, None),
      UserStatus(Ready, Some(0), [UserEntry("x", true)]), 0, true, false)
  }

  /** It was last changed two hours ago; the cluster has one instance, whose database is up. */
  function HourlyWorld(): World {
    World(Some(HourlyUser()), map[Key("n", "c") := OneInstanceCluster()],
          map[Key("n", "u-password") := Secret(Some(map["password" := "old"]), 1)],
          map[Database(Key("n", "c"), "x") := map["u" := Role("old", -1)]], 2 * HOUR, [], 0, 0)
  }

  lemma HourlyDue()
    ensures Inv(HourlyWorld()) && Wants(HourlyWorld(), HourlyUser())
    ensures OwnSecret(HourlyUser()) == Key("n", "u-password")
  {
    IntervalExact(HourlyUser().spec.password.value);
    assert Truncated(0) == 0;
    assert "u" + "-password" == "u-password";
  }

  /** Its rotation is repeated at the same moment, by either mishap. */
  lemma HourlyRepeated(mishap: Mishap)
    ensures Generates(HourlyWorld(), HourlyUser())
    ensures var rounds := LosingRounds(HourlyWorld(), HourlyUser(), mishap, "new", "newer");
            var end := Run(Session([], HourlyWorld(), []), rounds).world;
            end.writes == [2 * HOUR, 2 * HOUR] && !Spaced(end.writes, AtLeast(1)) && ObeysIn(HourlyWorld(), AtLeast(1))
  {
    HourlyDue();
    assert "old" != "new" by {
      assert "old"[0] != "new"[0];
    }
    assert "new" != "newer" by {
      assert |"new"| != |"newer"|;
    }
    assert map["password" := "old"]["password" := "new"]["password"] != map["password" := "old"]["password"];
    LostReplyBreaksSpacing(HourlyWorld(), HourlyUser(), AtLeast(1), mishap, "new", "newer");
  }
}
