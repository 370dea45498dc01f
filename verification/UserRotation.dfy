/**
 Password rotation over whole runs: the recorded change time only moves forward, and the
 operator does not write the generated secret more often than the policy says.
 */
module UserRotation {
  import opened Wrappers
  import opened ApiServer
  import opened UserModel
  import opened UserHistory
  import UserPass

  // ------------------------------------------------------------------ runs

  ghost predicate ScriptedRounds(rounds: seq<Round>, policy: Policy) {
    forall i | 0 <= i < |rounds| :: Scripted(rounds[i].script, policy)
  }

  /**
   The recorded change time never decreases and is never unset, in any run, at any API call,
   whatever fails: every world of the run keeps it whole and in the past.
   */
  lemma {:induction false} RunGood(s: Sys, rounds: seq<Round>)
    requires Good(s)
    ensures Good(Run(s, rounds))
    decreases |rounds|
  {
    if rounds != [] {
      var s0 := s.(script := rounds[0].script);
      assert s0.Trace() == s.Trace();
      UserPass.PassWrites(s0, rounds[0].draw, Anything);
      RunGood(Reconcile(s0, rounds[0].draw).0, rounds[1..]);
    }
  }

  lemma ChangeTimeMovesForward(w: World, rounds: seq<Round>)
    requires Inv(w)
    ensures var t := Run(Session([], w, []), rounds).Trace();
            forall i, j | 0 <= i < j < |t| && t[j].user.Some? ::
              t[i].user.Some? && NoEarlier(ChangeIn(t[i]), ChangeIn(t[j]))
  {
    var s := Session([], w, []);
    assert s.Trace() == [w];
    RunGood(s, rounds);
    var t := Run(s, rounds).Trace();
    forall i, j | 0 <= i < j < |t| && t[j].user.Some?
      ensures t[i].user.Some? && NoEarlier(ChangeIn(t[i]), ChangeIn(t[j]))
    {
      ForwardFrom(t, i, j);
    }
  }

  lemma {:induction false} ForwardFrom(t: seq<World>, i: nat, j: nat)
    requires i <= j < |t| && t[j].user.Some?
    requires forall k | 0 <= k < |t| :: Inv(t[k]) && (k > 0 ==> Next(t[k - 1], t[k]))
    ensures t[i].user.Some? && NoEarlier(ChangeIn(t[i]), ChangeIn(t[j]))
    decreases j - i
  {
    if i < j {
      assert Next(t[j - 1], t[j]);
      ForwardFrom(t, i, j - 1);
    }
  }

  /** After each pass that wrote the secret, the persisted change time is that of the write. */
  ghost predicate Recording(s: Sys, rounds: seq<Round>)
    decreases |rounds|
  {
    rounds != [] ==>
      var s' := Reconcile(s.(script := rounds[0].script), rounds[0].draw).0;
      && (s'.world.writes != s.world.writes ==> Remembers(s'.world))
      && Recording(s', rounds[1..])
  }

  /** Each pass that wrote the secret heard the reply to that write, and its status write landed, unless the user is gone. */
  ghost predicate Acknowledged(s: Sys, rounds: seq<Round>)
    decreases |rounds|
  {
    rounds != [] ==>
      var s0 := s.(script := rounds[0].script);
      var s' := Reconcile(s0, rounds[0].draw).0;
      && (s'.world.writes != s.world.writes && s'.world.user.Some? ==> Acknowledges(s0, s', SecretWriteAt(s0, rounds[0].draw)))
      && Acknowledged(s', rounds[1..])
  }

  /** Such passes record the moment of their write, whatever else they fail at. */
  lemma {:induction false} AcknowledgedRecord(s: Sys, rounds: seq<Round>)
    requires Good(s) && Acknowledged(s, rounds)
    ensures Recording(s, rounds)
    decreases |rounds|
  {
    if rounds != [] {
      var s0 := s.(script := rounds[0].script);
      assert s0.Trace() == s.Trace();
      UserPass.PassWrites(s0, rounds[0].draw, Anything);
      AcknowledgedRecord(Reconcile(s0, rounds[0].draw).0, rounds[1..]);
    }
  }

  ghost predicate Spaced(writes: seq<int>, policy: Policy) {
    match policy
    case Anything => true
    case AtLeast(hours) => forall i | 0 <= i < |writes| - 1 :: writes[i + 1] >= Truncated(writes[i]) + hours * HOUR
    case Disabled => |writes| <= 1
  }

  lemma OneMore(w: World, t: int, policy: Policy)
    requires Spaced(w.writes, policy) && Remembers(w) && w.user.Some? && Allowed(policy, ChangeIn(w), t)
    ensures Spaced(w.writes + [t], policy)
  {
    var writes := w.writes + [t];
    if policy.AtLeast? {
      forall i | 0 <= i < |writes| - 1 ensures writes[i + 1] >= Truncated(writes[i]) + policy.hours * HOUR {
        if i < |w.writes| - 1 {
          assert w.writes[i + 1] >= Truncated(w.writes[i]) + policy.hours * HOUR;
        }
      }
    }
  }

  lemma {:induction false} RunSpaced(s: Sys, rounds: seq<Round>, policy: Policy)
    requires Good(s) && ObeysIn(s.world, policy) && ScriptedRounds(rounds, policy) && Recording(s, rounds)
    requires Remembers(s.world) && Spaced(s.world.writes, policy)
    ensures Spaced(Run(s, rounds).world.writes, policy)
    decreases |rounds|
  {
    if rounds != [] {
      var s0 := s.(script := rounds[0].script);
      assert s0.Trace() == s.Trace();
      assert Scripted(rounds[0].script, policy);
      UserPass.PassWrites(s0, rounds[0].draw, policy);
      UserPass.PassWrites(s0, rounds[0].draw, Anything);
      var s' := Reconcile(s0, rounds[0].draw).0;
      if s'.world.writes != s.world.writes {
        var t :| s.world.now <= t <= s'.world.now && s'.world.writes == s.world.writes + [t] && Allowed(policy, ChangeIn(s.world), t);
        OneMore(s.world, t, policy);
      } else {
        assert Remembers(s'.world);
      }
      forall i | 0 <= i < |rounds| - 1 ensures Scripted(rounds[1..][i].script, policy) {
        assert rounds[1..][i] == rounds[i + 1];
      }
      RunSpaced(s', rounds[1..], policy);
    }
  }

  /**
   Over every run whose secret-writing passes hear of it and land their status: while rotation stays enabled
   with at least `hours` hours, each write comes that much after the second of the one before;
   while it stays disabled, the secret is written once at most.
   */
  lemma RotationSpaced(w: World, rounds: seq<Round>, policy: Policy)
    requires Inv(w) && w.writes == [] && ObeysIn(w, policy) && ScriptedRounds(rounds, policy)
    requires Acknowledged(Session([], w, []), rounds)
    ensures Spaced(Run(Session([], w, []), rounds).world.writes, policy)
  {
    var s := Session([], w, []);
    assert s.Trace() == [w];
    AcknowledgedRecord(s, rounds);
    RunSpaced(s, rounds, policy);
  }

  /**
   The interval counts from the recorded time, which has lost its fraction of a second: a
   rotation is due exactly from there on, so that the gap to the write itself can fall short,
   by less than a second and only where the write was not on a full second.
   */
  lemma DueFromTheSecond(p: PasswordSpec, write: int, now: int)
    requires Rotates(p) && 0 <= p.rotationPolicy.value.interval <= MAX_INTERVAL
    ensures var interval := p.rotationPolicy.value.interval * HOUR;
            && (Due(p, Some(Truncated(write)), now) <==> now >= Truncated(write) + interval)
            && (Due(p, Some(Truncated(write)), now) ==> now - write > interval - SECOND)
            && (write != Truncated(write) ==>
                  var early := Truncated(write) + interval; Due(p, Some(Truncated(write)), early) && early - write < interval)
  {
    IntervalExact(p);
    UserPass.TruncatedWhole(write);
  }

  // ------------------------------------------------------------------ retries

  /** The next rotation is not due before the end of the run. */
  ghost predicate NotDueBy(policy: Policy, change: Option<int>, end: int) {
    change.Some? && (policy.Disabled? || (policy.AtLeast? && end < change.value + policy.hours * HOUR))
  }

  /**
   Until rotation is next due, however many passes fail on whatever instances, the operator
   does not touch the secret: each retry uses the password of the one before.
   */
  lemma {:induction false} RetriesKeepSecret(s: Sys, rounds: seq<Round>, policy: Policy)
    requires Good(s) && ObeysIn(s.world, policy) && ScriptedRounds(rounds, policy)
    requires s.world.user.Some? && NotDueBy(policy, ChangeIn(s.world), Run(s, rounds).world.now)
    ensures var w := Run(s, rounds).world;
            w.writes == s.world.writes && (w.secretEdits == s.world.secretEdits ==> w.secrets == s.world.secrets)
    decreases |rounds|
  {
    if rounds != [] {
      var s0 := s.(script := rounds[0].script);
      assert s0.Trace() == s.Trace();
      assert Scripted(rounds[0].script, policy);
      UserPass.PassWrites(s0, rounds[0].draw, policy);
      var s' := Reconcile(s0, rounds[0].draw).0;
      CustodyRun(s', rounds[1..]);
      assert s'.world.writes == s.world.writes;
      forall i | 0 <= i < |rounds| - 1 ensures Scripted(rounds[1..][i].script, policy) {
        assert rounds[1..][i] == rounds[i + 1];
      }
      if s'.world.user.Some? {
        RetriesKeepSecret(s', rounds[1..], policy);
      } else {
        GoneKeepsSecret(s', rounds[1..]);
      }
    }
  }

  /** A user that is gone is not reconciled. */
  lemma {:induction false} GoneKeepsSecret(s: Sys, rounds: seq<Round>)
    requires Good(s) && s.world.user.None?
    ensures Run(s, rounds).world.writes == s.world.writes
    decreases |rounds|
  {
    if rounds != [] {
      var s0 := s.(script := rounds[0].script);
      assert s0.Trace() == s.Trace();
      UserPass.PassWrites(s0, rounds[0].draw, Anything);
      GoneKeepsSecret(Reconcile(s0, rounds[0].draw).0, rounds[1..]);
    }
  }

  lemma {:induction false} CustodyRun(s: Sys, rounds: seq<Round>)
    requires Good(s)
    ensures Custody(s.world, Run(s, rounds).world)
    decreases |rounds|
  {
    if rounds != [] {
      var s0 := s.(script := rounds[0].script);
      assert s0.Trace() == s.Trace();
      UserPass.PassWrites(s0, rounds[0].draw, Anything);
      var s' := Reconcile(s0, rounds[0].draw).0;
      CustodyRun(s', rounds[1..]);
    }
  }
}
