/**
 The life of one file projection instance: construction, any sequence of
 `Project`, `Assign` and `Release` calls, and destruction.
 */
module Lifecycle {
  import opened OsCalls
  import opened FileProjection
  import opened Accounting

  /** One public call on an instance. */
  datatype Command =
    | ProjectFile(os: OsOutcomes)
    | AssignBuffer(buffer: Pointer, size: nat, plainData: bool)
    | ReleaseAll

  /** The default constructor: an instance that owns nothing and maps nothing. */
  function Construct(): (r: Projection)
    ensures Held(r) == multiset{} && r.pData == Nil && r.size == 0
    ensures Release(r) == Step(r, [])
  {
    Empty
  }

  /** The path constructor: a fresh instance that projects the file at once.
      It gives nothing back and owns exactly what the projection acquired. */
  function ConstructFromPath(os: OsOutcomes): (r: Outcome)
    ensures ReleasesNothing(r.trace)
    ensures Released(r.trace) == multiset{}
    ensures Held(r.state) == Acquired(r.trace)
  {
    var r := Project(Construct(), os);
    ProjectAccounting(Construct(), os);
    ProjectCallOrder(Construct(), os);
    assert r.trace[|Release(Construct()).trace|..] == r.trace;
    r
  }

  /** The destructor: gives back exactly what the instance still owns. */
  function Destroy(s: Projection): (r: Step)
    ensures Held(r.state) == multiset{}
    ensures Released(r.trace) == Held(s)
    ensures Acquired(r.trace) == multiset{}
  {
    ReleaseGivesBackHeld(s);
    Release(s)
  }

  /** The effect of one command. */
  function Apply(s: Projection, c: Command): (r: Step)
    ensures Released(r.trace) == Held(s)
    ensures Held(r.state) == Acquired(r.trace)
  {
    match c
    case ProjectFile(os) =>
      ProjectAccounting(s, os);
      var o := Project(s, os);
      Step(o.state, o.trace)
    case AssignBuffer(buffer, size, plainData) =>
      AssignAccounting(s, buffer, size, plainData);
      var o := Assign(s, buffer, size, plainData);
      Step(o.state, o.trace)
    case ReleaseAll =>
      Destroy(s)
  }

  /** The effect of a sequence of commands, with all their calls in order. */
  function Run(s: Projection, cmds: seq<Command>): (r: Step)
    decreases |cmds|
  {
    if cmds == [] then Step(s, [])
    else
      var first := Apply(s, cmds[0]);
      var rest := Run(first.state, cmds[1..]);
      Step(rest.state, first.trace + rest.trace)
  }

  /** Chaining two balanced steps gives a balanced run. */
  lemma Rebalance<T>(a1: multiset<T>, a2: multiset<T>, r1: multiset<T>, r2: multiset<T>,
                     h0: multiset<T>, h1: multiset<T>, h2: multiset<T>)
    requires r1 == h0 && h1 == a1
    requires a2 + h1 == r2 + h2
    ensures (a1 + a2) + h0 == (r1 + r2) + h2
  {
    calc {
      (a1 + a2) + h0;
      == (a2 + h1) + h0;
      == (r2 + h2) + h0;
      == (r1 + r2) + h2;
    }
  }

  /** Over any run, what was acquired plus what was owned at the start equals
      what was given back plus what is owned at the end. */
  lemma {:induction false} RunAccounting(s: Projection, cmds: seq<Command>)
    ensures Acquired(Run(s, cmds).trace) + Held(s)
         == Released(Run(s, cmds).trace) + Held(Run(s, cmds).state)
    decreases |cmds|
  {
    if cmds != [] {
      var first := Apply(s, cmds[0]);
      var rest := Run(first.state, cmds[1..]);
      RunAccounting(first.state, cmds[1..]);
      AcquiredAppend(first.trace, rest.trace);
      ReleasedAppend(first.trace, rest.trace);
      Rebalance(Acquired(first.trace), Acquired(rest.trace), Released(first.trace),
                Released(rest.trace), Held(s), Held(first.state), Held(rest.state));
    }
  }

  /** Over the whole life of an instance, every resource it acquired is given
      back exactly once: nothing leaks and nothing is released twice. */
  lemma Lifetime(cmds: seq<Command>)
    ensures var life := Run(Construct(), cmds);
            var end := Destroy(life.state);
            Acquired(life.trace + end.trace) == Released(life.trace + end.trace)
  {
    var life := Run(Construct(), cmds);
    var end := Destroy(life.state);
    RunAccounting(Construct(), cmds);
    AcquiredAppend(life.trace, end.trace);
    ReleasedAppend(life.trace, end.trace);
  }

  /** After every sequence of calls from construction, everything given back
      so far had been acquired before. */
  lemma NeverReleasesUnowned(cmds: seq<Command>)
    ensures Released(Run(Construct(), cmds).trace) <= Acquired(Run(Construct(), cmds).trace)
  {
    var life := Run(Construct(), cmds);
    RunAccounting(Construct(), cmds);
    assert Acquired(life.trace) == Released(life.trace) + Held(life.state);
  }
}
