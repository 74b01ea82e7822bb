/** What the planning scripts do to the outside world: the shell commands they hand to `os.system`, in
    order, and whether an uncaught exception ended the script early. */
module Plans {

  /** The commands issued so far, and whether the script then stopped on an exception. */
  datatype Plan<C> = Plan(cmds: seq<C>, crashed: bool)

  function Nothing<C>(): Plan<C> { Plan([], false) }
  function Crash<C>(): Plan<C> { Plan([], true) }

  /** `p` followed by `q`; once a script has crashed nothing else happens. */
  function Then<C>(p: Plan<C>, q: Plan<C>): (r: Plan<C>)
    ensures p.crashed ==> r == p
    ensures !p.crashed ==> r.cmds == p.cmds + q.cmds && r.crashed == q.crashed
  {
    if p.crashed then p else Plan(p.cmds + q.cmds, q.crashed)
  }

  lemma ThenNothing<C>(p: Plan<C>)
    ensures Then(p, Nothing()) == p && Then(Nothing(), p) == p
  {
    if !p.crashed {
      assert p.cmds + [] == p.cmds;
    }
  }

  lemma ThenAssociative<C>(p: Plan<C>, q: Plan<C>, r: Plan<C>)
    ensures Then(Then(p, q), r) == Then(p, Then(q, r))
  {
    if !p.crashed && !q.crashed {
      assert p.cmds + q.cmds + r.cmds == p.cmds + (q.cmds + r.cmds);
    }
  }

  /** A `for` loop whose body issues `step(x)` for each `x` in turn, ending at the first crash. */
  function Chain<T, C>(xs: seq<T>, step: T -> Plan<C>): Plan<C>
  {
    if xs == [] then Nothing() else Then(Chain(xs[..|xs| - 1], step), step(xs[|xs| - 1]))
  }

  lemma ChainStep<T, C>(xs: seq<T>, i: nat, step: T -> Plan<C>)
    requires i < |xs|
    ensures Chain(xs[..i + 1], step) == Then(Chain(xs[..i], step), step(xs[i]))
  {
    assert xs[..i + 1][..i] == xs[..i];
  }

  /** After a crash the remaining iterations add nothing. */
  lemma {:induction false} ChainCrashStays<T, C>(xs: seq<T>, i: nat, step: T -> Plan<C>)
    requires i <= |xs|
    requires Chain(xs[..i], step).crashed
    ensures Chain(xs, step) == Chain(xs[..i], step)
  {
    if i < |xs| {
      var ys := xs[..|xs| - 1];
      assert ys[..i] == xs[..i];
      ChainCrashStays(ys, i, step);
    } else {
      assert xs[..i] == xs;
    }
  }

  /** Leaving the loop at iteration `i` because that iteration crashed. */
  lemma ChainStopsAt<T, C>(xs: seq<T>, i: nat, step: T -> Plan<C>)
    requires i < |xs| && step(xs[i]).crashed && !Chain(xs[..i], step).crashed
    ensures Chain(xs, step) == Plan(Chain(xs[..i], step).cmds + step(xs[i]).cmds, true)
  {
    ChainStep(xs, i, step);
    ChainCrashStays(xs, i + 1, step);
  }

  /** Commands once issued stay issued: the first `i` rounds issue a prefix of the whole run. */
  lemma {:induction false} ChainPrefix<T, C>(xs: seq<T>, i: nat, step: T -> Plan<C>)
    requires i <= |xs|
    ensures Chain(xs[..i], step).cmds <= Chain(xs, step).cmds
  {
    if i < |xs| {
      var ys := xs[..|xs| - 1];
      assert ys[..i] == xs[..i];
      ChainPrefix(ys, i, step);
    } else {
      assert xs[..i] == xs;
    }
  }

  /** The loop ends on a crash exactly when one of its rounds crashes. */
  lemma {:induction false} ChainCrashed<T, C>(xs: seq<T>, step: T -> Plan<C>)
    ensures Chain(xs, step).crashed <==> exists i :: 0 <= i < |xs| && step(xs[i]).crashed
  {
    if xs != [] {
      var ys := xs[..|xs| - 1];
      ChainCrashed(ys, step);
      assert forall i :: 0 <= i < |ys| ==> ys[i] == xs[i];
      if Chain(ys, step).crashed {
        var i :| 0 <= i < |ys| && step(ys[i]).crashed;
        assert step(xs[i]).crashed;
      }
    }
  }

  /** Without a crash every round's commands are issued, in order. */
  lemma {:induction false} ChainCommands<T, C>(xs: seq<T>, step: T -> Plan<C>, i: nat)
    requires i < |xs|
    requires forall j :: 0 <= j < |xs| ==> !step(xs[j]).crashed
    ensures Chain(xs[..i], step).cmds + step(xs[i]).cmds <= Chain(xs, step).cmds
  {
    ChainStep(xs, i, step);
    ChainPrefix(xs, i + 1, step);
    NoCrashChain(xs[..i], step);
  }

  lemma {:induction false} NoCrashChain<T, C>(xs: seq<T>, step: T -> Plan<C>)
    requires forall j :: 0 <= j < |xs| ==> !step(xs[j]).crashed
    ensures !Chain(xs, step).crashed
  {
    ChainCrashed(xs, step);
  }
}
