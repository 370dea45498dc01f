/**
 A Kubernetes API server as a controller experiences it: requests are served one at
 a time, the rest of the cluster may move before each of them, a request may be refused,
 its reply may be lost after the change has landed, and the process may die at any call.
 */
module ApiServer {
  /** What becomes of a request. `Lost`: the change lands but the caller sees an error. */
  datatype Reply = Served | Refused | Lost

  /** What the outside world decides about one request: the moves before it, then its fate. */
  datatype Turn<+E> = Turn(env: seq<E>, reply: Reply)

  /**
   A server together with everything that has happened to it and everything the outside
   will still decide. The process dies when `script` runs out: later requests of the same
   pass never reach the server.
   */
  datatype Session<+W, +E> = Session(past: seq<W>, world: W, script: seq<Turn<E>>)
  {
    /** Every world so far, oldest first. */
    function Trace(): (t: seq<W>)
      ensures |t| > 0 && t[|t| - 1] == world
    {
      past + [world]
    }

    function Become(w: W): Session<W, E> {
      Session(past + [world], w, script)
    }
  }

  /** How one kind of server moves on its own, serves requests, and is heard when out of reach. */
  datatype Protocol<!W, !E, !Q, !A> =
    Protocol(move: (W, E) -> W, serve: (W, Q) -> (W, A), unreachable: A)

  function Drift<W, E, Q, A>(p: Protocol<W, E, Q, A>, s: Session<W, E>, env: seq<E>): Session<W, E>
    decreases |env|
  {
    if env == [] then s
    else Drift(p, s.Become(p.move(s.world, env[0])), env[1..])
  }

  /** One request, from the moves that precede it to the answer the caller sees. */
  function Exchange<W, E, Q, A>(p: Protocol<W, E, Q, A>, s: Session<W, E>, q: Q): (Session<W, E>, A) {
    if s.script == [] then (s, p.unreachable)
    else
      var turn := s.script[0];
      var d := Drift(p, s.(script := s.script[1..]), turn.env);
      if turn.reply == Refused then (d, p.unreachable)
      else
        var (w, a) := p.serve(d.world, q);
        (d.Become(w), if turn.reply == Served then a else p.unreachable)
  }

  /** No outside move, every request served. */
  ghost predicate Calm<E>(script: seq<Turn<E>>) {
    forall i :: 0 <= i < |script| ==> script[i] == Turn([], Served)
  }

  lemma CalmExchange<W, E, Q, A>(p: Protocol<W, E, Q, A>, s: Session<W, E>, q: Q)
    requires Calm(s.script) && |s.script| > 0
    ensures Exchange(p, s, q)
         == (s.(script := s.script[1..]).Become(p.serve(s.world, q).0), p.serve(s.world, q).1)
    ensures Calm(s.script[1..])
  {
    assert s.script[0] == Turn([], Served);
    assert Drift(p, s.(script := s.script[1..]), []) == s.(script := s.script[1..]);
  }

  // ------------------------------------------------------------------ replies

  /** Between these sessions every request has been served, and its reply heard. */
  ghost predicate AllHeard<W, E>(s: Session<W, E>, s': Session<W, E>) {
    var n := |s.script| - |s'.script|;
    n >= 0 && s'.script == s.script[n..] && forall i | 0 <= i < n :: s.script[i].reply == Served
  }

  lemma HeardThen<W, E>(s: Session<W, E>, s1: Session<W, E>, s2: Session<W, E>)
    requires AllHeard(s, s1) && AllHeard(s1, s2)
    ensures AllHeard(s, s2)
  {
    var n := |s.script| - |s1.script|;
    forall i | 0 <= i < |s.script| - |s2.script| ensures s.script[i].reply == Served {
      if i >= n {
        assert s1.script[i - n] == s.script[i];
      }
    }
  }

  lemma {:induction false} DriftKeepsScript<W, E, Q, A>(p: Protocol<W, E, Q, A>, s: Session<W, E>, env: seq<E>)
    ensures Drift(p, s, env).script == s.script
    decreases |env|
  {
    if env != [] {
      DriftKeepsScript(p, s.Become(p.move(s.world, env[0])), env[1..]);
    }
  }

  /** Whoever does not hear that the server is out of reach has been served. */
  lemma ExchangeHeard<W, E, Q, A>(p: Protocol<W, E, Q, A>, s: Session<W, E>, q: Q)
    requires Exchange(p, s, q).1 != p.unreachable
    ensures AllHeard(s, Exchange(p, s, q).0)
  {
    DriftKeepsScript(p, s.(script := s.script[1..]), s.script[0].env);
  }

  // ------------------------------------------------------------------ sequences of requests

  /** The session after these requests, whatever their answers. */
  ghost function Issued<W, E, Q, A>(p: Protocol<W, E, Q, A>, s: Session<W, E>, qs: seq<Q>): Session<W, E>
    decreases |qs|
  {
    if qs == [] then s else Issued(p, Exchange(p, s, qs[0]).0, qs[1..])
  }

  ghost predicate AllOf<Q>(qs: seq<Q>, kind: Q -> bool) {
    forall i | 0 <= i < |qs| :: kind(qs[i])
  }

  /** A part of a pass that issues requests of one kind only. */
  ghost predicate Issues<W(!new), E(!new), Q(!new), A(!new)>(
      p: Protocol<W, E, Q, A>, s: Session<W, E>, s': Session<W, E>, kind: Q -> bool)
  {
    exists qs :: AllOf(qs, kind) && Issued(p, s, qs) == s'
  }

  lemma NothingIssued<W(!new), E(!new), Q(!new), A(!new)>(p: Protocol<W, E, Q, A>, s: Session<W, E>, kind: Q -> bool)
    ensures Issues(p, s, s, kind)
  {
    var none: seq<Q> := [];
    assert AllOf(none, kind) && Issued(p, s, none) == s;
  }

  lemma OneIssued<W(!new), E(!new), Q(!new), A(!new)>(p: Protocol<W, E, Q, A>, s: Session<W, E>, q: Q, kind: Q -> bool)
    requires kind(q)
    ensures Issues(p, s, Exchange(p, s, q).0, kind)
  {
    var s' := Exchange(p, s, q).0;
    assert [q][1..] == [] && Issued(p, s', []) == s';
    assert AllOf([q], kind) && Issued(p, s, [q]) == s';
  }

  lemma {:induction false} IssuedAppend<W, E, Q, A>(p: Protocol<W, E, Q, A>, s: Session<W, E>, a: seq<Q>, b: seq<Q>)
    ensures Issued(p, s, a + b) == Issued(p, Issued(p, s, a), b)
    decreases |a|
  {
    if a == [] {
      assert a + b == b;
    } else {
      assert (a + b)[1..] == a[1..] + b;
      IssuedAppend(p, Exchange(p, s, a[0]).0, a[1..], b);
    }
  }

  lemma IssuedThen<W(!new), E(!new), Q(!new), A(!new)>(
      p: Protocol<W, E, Q, A>, s: Session<W, E>, s1: Session<W, E>, s2: Session<W, E>, kind: Q -> bool)
    requires Issues(p, s, s1, kind) && Issues(p, s1, s2, kind)
    ensures Issues(p, s, s2, kind)
  {
    var a :| AllOf(a, kind) && Issued(p, s, a) == s1;
    var b :| AllOf(b, kind) && Issued(p, s1, b) == s2;
    IssuedAppend(p, s, a, b);
    assert AllOf(a + b, kind);
  }

  /** The server as an object that requests change in place. */
  class Server<!W, !E, !Q, !A> {
    const p: Protocol<W, E, Q, A>
    ghost var past: seq<W>
    var world: W
    var script: seq<Turn<E>>

    ghost function State(): Session<W, E>
      reads this
    {
      Session(past, world, script)
    }

    constructor (p: Protocol<W, E, Q, A>, world: W, script: seq<Turn<E>>)
      ensures this.p == p && State() == Session([], world, script)
    {
      this.p, this.past, this.world, this.script := p, [], world, script;
    }

    method Call(q: Q) returns (a: A)
      modifies this
      ensures (State(), a) == Exchange(p, old(State()), q)
    {
      a := p.unreachable;
      if script == [] { return; }
      var turn := script[0];
      script := script[1..];
      ghost var start := State();
      var i := 0;
      while i < |turn.env|
        invariant 0 <= i <= |turn.env|
        invariant Drift(p, State(), turn.env[i..]) == Drift(p, start, turn.env)
      {
        past := past + [world];
        world := p.move(world, turn.env[i]);
        assert turn.env[i..][1..] == turn.env[i + 1..];
        i := i + 1;
      }
      assert turn.env[i..] == [];
      if turn.reply == Refused { return; }
      past := past + [world];
      var (w, reply) := p.serve(world, q);
      world := w;
      if turn.reply == Served { a := reply; }
    }
  }
}
