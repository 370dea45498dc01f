/**
 What runs of the user controller keep.

 First the rotation policies a spec may follow through a run, and the recorded change time with
 its invariant: whole seconds, in the past, never going back. Then the history of the secret,
 which changes only by recorded writes of the operator and recorded edits of others. Last, what
 each single request and each move of the environment does to them.
 */
module UserHistory {
  import opened Wrappers
  import opened ApiServer
  import opened ApiTypes
  import opened UserModel
  import opened UserRequests
  import Selectors

  // ------------------------------------------------------------------ policies

  /** What stays true of the rotation policy through a run. */
  datatype Policy =
    | Anything
    | AtLeast(hours: nat)
    | Disabled

  /** The longest interval the custom resource definition admits. */
  const MAX_INTERVAL := 2048

  ghost predicate Obeys(spec: UserSpec, policy: Policy) {
    spec.password.Some? ==>
      match policy
      case Anything => true
      case AtLeast(hours) => Rotates(spec.password.value) && hours <= spec.password.value.rotationPolicy.value.interval <= MAX_INTERVAL
      case Disabled => !Rotates(spec.password.value)
  }

  ghost predicate ObeysIn(w: World, policy: Policy) {
    w.user.Some? ==> Obeys(w.user.value.spec, policy)
  }

  ghost predicate ObeysAll(env: seq<EnvStep>, policy: Policy) {
    forall i | 0 <= i < |env| && env[i].SpecEdited? :: Obeys(env[i].userSpec, policy)
  }

  /** Every edit of the spec follows the policy. */
  ghost predicate Scripted(script: seq<Turn<EnvStep>>, policy: Policy) {
    forall i | 0 <= i < |script| :: ObeysAll(script[i].env, policy)
  }

  // ------------------------------------------------------------------ the change time

  ghost predicate Whole(change: Option<int>, now: int) {
    change.Some? ==> change.value == Truncated(change.value) <= now
  }

  ghost function ChangeIn(w: World): Option<int> {
    if w.user.Some? then w.user.value.status.lastPasswordChange else None
  }

  /** A recorded change time is in the past and has no fraction of a second. */
  ghost predicate Inv(w: World) {
    Whole(ChangeIn(w), w.now)
  }

  ghost predicate NoEarlier(before: Option<int>, after: Option<int>) {
    before.Some? ==> after.Some? && before.value <= after.value
  }

  /** The clock and the recorded change time go forward, and the change time is never lost. */
  ghost predicate Next(w: World, w': World) {
    && w.now <= w'.now
    && w.writes <= w'.writes
    && (w'.user.Some? ==> w.user.Some? && NoEarlier(ChangeIn(w), ChangeIn(w')))
  }

  ghost predicate Good(s: Sys) {
    forall i | 0 <= i < |s.Trace()| :: Inv(s.Trace()[i]) && (i > 0 ==> Next(s.Trace()[i - 1], s.Trace()[i]))
  }

  lemma Extend(s: Sys, w: World)
    requires Good(s) && Inv(w) && Next(s.world, w)
    ensures Good(s.Become(w))
  {
    var t, t' := s.Trace(), s.Become(w).Trace();
    assert t' == t + [w];
    forall i | 0 <= i < |t'| ensures Inv(t'[i]) && (i > 0 ==> Next(t'[i - 1], t'[i])) {
      if i < |t| {
        assert t'[i] == t[i] && (i > 0 ==> t'[i - 1] == t[i - 1]);
      }
    }
  }

  // ------------------------------------------------------------------ the environment

  ghost predicate SameOrNewer(u: User, u': User) {
    u' == u || (u.version < u'.version && (u'.finalizer, u'.status) == (u.finalizer, u.status))
  }

  /** The clock goes on, and secrets change only by recorded writes and edits. */
  ghost predicate Custody(w: World, w': World) {
    && w.now <= w'.now && w.writes <= w'.writes && w.secretEdits <= w'.secretEdits
    && (w'.writes == w.writes && w'.secretEdits == w.secretEdits ==> w'.secrets == w.secrets)
  }

  ghost predicate Drifted(w: World, w': World) {
    && Custody(w, w') && w'.writes == w.writes && w'.statusWrites == w.statusWrites
    && (w'.user.Some? ==> w.user.Some? && SameOrNewer(w.user.value, w'.user.value))
  }

  lemma MoveDrifts(w: World, e: EnvStep, policy: Policy)
    requires e.SpecEdited? ==> Obeys(e.userSpec, policy)
    ensures Drifted(w, Move(w, e)) && (ObeysIn(w, policy) ==> ObeysIn(Move(w, e), policy))
  {
  }

  lemma {:induction false} DriftGood(s: Sys, env: seq<EnvStep>, policy: Policy)
    requires Good(s) && ObeysIn(s.world, policy) && ObeysAll(env, policy)
    ensures var s' := Drift(API, s, env);
            Good(s') && Drifted(s.world, s'.world) && ObeysIn(s'.world, policy) && s'.script == s.script
    decreases |env|
  {
    if env != [] {
      var w := Move(s.world, env[0]);
      MoveDrifts(s.world, env[0], policy);
      assert s.Trace()[|s.past|] == s.world;
      Extend(s, w);
      assert forall i | 0 <= i < |env| - 1 :: env[1..][i] == env[i + 1];
      DriftGood(s.Become(w), env[1..], policy);
    }
  }

  // ------------------------------------------------------------------ what a pass knows

  /** The persisted user is the one the pass has read, or newer with the same status. */
  ghost predicate Knows(w: World, u: User) {
    && (w.user.Some? ==> SameOrNewer(u, w.user.value))
    && Whole(u.status.lastPasswordChange, w.now)
  }

  /** Between two requests of a pass that has read `u`. */
  ghost predicate At(s: Sys, u: User, policy: Policy) {
    && Good(s)
    && ObeysIn(s.world, policy) && Obeys(u.spec, policy) && Scripted(s.script, policy)
    && Knows(s.world, u)
  }

  /** The session in which a request is served, if it is. */
  lemma Arrive(s: Sys, q: Request, policy: Policy) returns (d: Sys)
    requires Good(s) && ObeysIn(s.world, policy) && Scripted(s.script, policy)
    ensures Good(d) && ObeysIn(d.world, policy) && Drifted(s.world, d.world)
    ensures Scripted(Call(s, q).0.script, policy) && Inv(d.world)
    ensures var (s', a) := Call(s, q);
            var (w, b) := Serve(d.world, q);
            || (s' == d && a == Unreachable)
            || (s.script != [] && s' == d.Become(w) && (a == b || (a == Unreachable && s.script[0].reply == Lost)))
  {
    d := s;
    if s.script != [] {
      var s0 := s.(script := s.script[1..]);
      assert s0.Trace() == s.Trace();
      DriftGood(s0, s.script[0].env, policy);
      d := Drift(API, s0, s.script[0].env);
      assert forall i | 0 <= i < |s.script| - 1 :: s.script[1..][i] == s.script[i + 1];
    }
    assert d.Trace()[|d.past|] == d.world;
  }

  /** The request leaves user, secrets and clock alone. */
  lemma NeutralServed(w: World, q: Request)
    requires Neutral(q)
    ensures Serve(w, q).0.(databases := w.databases) == w
  {
  }

  /** The clock goes on; neither the generated secret nor the status is written. */
  ghost predicate Still(w: World, w': World) {
    Custody(w, w') && w'.writes == w.writes && w'.statusWrites == w.statusWrites
  }

  lemma StillTwice(w: World, w1: World, w2: World)
    requires Still(w, w1) && Still(w1, w2)
    ensures Still(w, w2)
  {
  }

  lemma CallNeutral(s: Sys, q: Request, u: User, policy: Policy)
    requires At(s, u, policy) && Neutral(q)
    ensures var s' := Call(s, q).0; At(s', u, policy) && Still(s.world, s'.world)
  {
    var d := Arrive(s, q, policy);
    NeutralServed(d.world, q);
    Extend(d, Serve(d.world, q).0);
  }

  // ------------------------------------------------------------------ the secret

  /** The session in which WriteSecret sends its write, if it does. */
  ghost function WriteAt(s: Sys, key: Key, password: string): Option<Sys> {
    var (s', a) := Call(s, GetSecret(key));
    var differs := a.SecretIs? && a.secret.data.Some? && a.secret.data.value["password" := password] != a.secret.data.value;
    if differs || a.NotFound? then Some(s') else None
  }

  ghost function SecretStepAt(s: Sys, u: User, draw: Option<string>): Option<Sys> {
    if u.spec.password.None? || u.spec.password.value.secretRef.Some? || !u.spec.password.value.generate then None
    else
      var (s', due) := ShouldRotate(s, u.spec.password.value, u.status.lastPasswordChange);
      if due && draw.Some? then WriteAt(s', OwnSecret(u), draw.value) else None
  }

  ghost function UserAt(s: Sys, u: User, draw: Option<string>): Option<Sys> {
    if u.spec.clusterRef.None? then None
    else
      var (s', a) := Call(s, GetCluster(u.spec.clusterRef.value.In(u.namespace)));
      if !a.ClusterIs? || Selectors.UserTargets(a.cluster.status.instances, u.spec.instances).Err? then None
      else SecretStepAt(s', u, draw)
  }

  ghost function FoundAt(s: Sys, u: User, draw: Option<string>): Option<Sys> {
    if !u.finalizer || u.deleting then None else UserAt(s, u, draw)
  }

  /** The session in which a pass sends CreateSecret or UpdateSecret, if it gets there. */
  ghost function SecretWriteAt(s: Sys, draw: Option<string>): Option<Sys> {
    var (s', got) := Call(s, GetUser);
    if got.UserIs? then FoundAt(s', got.user, draw) else None
  }

  /** The next reply does not get lost. */
  ghost predicate Heard(at: Option<Sys>) {
    at.Some? && at.value.script != [] ==> at.value.script[0].reply != Lost
  }

  /** At most one write of the secret, at a moment in between. */
  ghost predicate AtMostOne(w: World, w': World) {
    && Custody(w, w') && w'.statusWrites == w.statusWrites
    && (w'.writes == w.writes || exists t :: w.now <= t <= w'.now && w'.writes == w.writes + [t])
  }

  lemma SecretServed(w: World, q: Request)
    requires q.CreateSecret? || q.UpdateSecret?
    ensures var (w', a) := Serve(w, q);
            && w'.(secrets := w.secrets, writes := w.writes) == w
            && w'.writes == if a.Done? then w.writes + [w.now] else w.writes
  {
  }

  lemma CallSecret(s: Sys, q: Request, u: User, policy: Policy)
    requires At(s, u, policy) && (q.CreateSecret? || q.UpdateSecret?)
    ensures var (s', a) := Call(s, q);
            && At(s', u, policy) && AtMostOne(s.world, s'.world)
            && (Heard(Some(s)) && s'.world.writes != s.world.writes ==> a.Done?)
            && (!Heard(Some(s)) ==> a == Unreachable)
  {
    var d := Arrive(s, q, policy);
    SecretServed(d.world, q);
    Extend(d, Serve(d.world, q).0);
  }

  /** Within the bound of the resource definition the product of interval and hour does not wrap. */
  lemma IntervalExact(p: PasswordSpec)
    requires Rotates(p)
    ensures 0 <= p.rotationPolicy.value.interval <= MAX_INTERVAL ==> Interval(p) == p.rotationPolicy.value.interval * HOUR
    ensures Interval(p) == p.rotationPolicy.value.interval * HOUR <==> -2562047 <= p.rotationPolicy.value.interval <= 2562047
  {
  }

  /** When the policy lets the secret be written, given the change time persisted. */
  ghost predicate Allowed(policy: Policy, change: Option<int>, t: int) {
    match policy
    case Anything => true
    case AtLeast(hours) => change.Some? ==> t >= change.value + hours * HOUR
    case Disabled => change.None?
  }

  /** A write, if there is one, was allowed. */
  ghost predicate AllowedOne(w: World, w': World, policy: Policy, change: Option<int>) {
    && Custody(w, w') && w'.statusWrites == w.statusWrites
    && (w'.writes == w.writes
        || exists t :: w.now <= t <= w'.now && w'.writes == w.writes + [t] && Allowed(policy, change, t))
  }

  /** The user in memory differs from the one read at most in a newer change time. */
  ghost predicate Mem(w: World, u: User, m: User) {
    var before, after := u.status.lastPasswordChange, m.status.lastPasswordChange;
    && m == u.(status := u.status.(lastPasswordChange := after))
    && (after == before || (after.Some? && after.value <= w.now && NoEarlier(before, after)))
  }

  /** The change time in memory is that of the last write or later. */
  ghost predicate Dated(w: World, m: User) {
    w.writes != [] && m.status.lastPasswordChange.Some? && m.status.lastPasswordChange.value >= w.writes[|w.writes| - 1]
  }

  ghost predicate PassKept(s: Sys, u: User, policy: Policy, pass: Pass, at: Option<Sys>) {
    && At(pass.server, u, policy)
    && AllowedOne(s.world, pass.server.world, policy, u.status.lastPasswordChange)
    && Mem(pass.server.world, u, pass.user)
    && (pass.server.world.writes != s.world.writes && pass.step == Fine ==> Dated(pass.server.world, pass.user))
    && (pass.server.world.writes != s.world.writes ==> if Heard(at) then pass.step == Fine else pass.step == Failing && pass.user == u)
  }

  /** What a whole pass keeps, and what its status write records. */
  ghost predicate Ended(s': Sys, policy: Policy, change: Option<int>) {
    Good(s') && ObeysIn(s'.world, policy) && (s'.world.user.Some? ==> NoEarlier(change, ChangeIn(s'.world)))
  }

  /** A landed status write records the change time in memory, in whole seconds. */
  ghost predicate Recorded(w: World, w': World, m: User) {
    w'.statusWrites > w.statusWrites && m.status.lastPasswordChange.Some? ==>
      w'.user.Some? && ChangeIn(w') == Some(Truncated(m.status.lastPasswordChange.value))
  }

  /** The persisted change time is still this one. */
  ghost predicate Unmoved(w: World, change: Option<int>) {
    w.user.Some? ==> ChangeIn(w) == change
  }

  /** The pass has heard the reply to its write of the secret, and its status write has landed. */
  ghost predicate Acknowledges(s: Sys, s': Sys, at: Option<Sys>) {
    Heard(at) && s'.world.statusWrites > s.world.statusWrites
  }

  /**
   The secret was written at most once, when the policy allowed it; and if the reply to that
   write was not lost and the status landed, the change time persisted is not before the second of
   that write, and otherwise it is the one from before.
   */
  ghost predicate PassDone(s: Sys, s': Sys, policy: Policy, change: Option<int>, at: Option<Sys>) {
    && Ended(s', policy, change) && Custody(s.world, s'.world)
    && (s'.world.writes == s.world.writes
        || exists t :: s.world.now <= t <= s'.world.now && s'.world.writes == s.world.writes + [t] && Allowed(policy, change, t))
    && (s'.world.writes != s.world.writes ==>
          if Acknowledges(s, s', at) then Remembers(s'.world) else Unmoved(s'.world, change))
  }

  /** The persisted change time is not before the second of the last write. */
  ghost predicate Remembers(w: World) {
    w.writes != [] && w.user.Some? ==>
      ChangeIn(w).Some? && ChangeIn(w).value >= Truncated(w.writes[|w.writes| - 1])
  }
}
