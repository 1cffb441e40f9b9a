/**
 One goroutine among others. A trace records which atomic steps were its own and which were interference, so that a
 method can promise to keep a rule itself as long as everybody else does.
 */
module Threads {
  import opened Wrappers
  import opened Ledger
  import opened Admission
  import opened Protocol

  datatype Move = Move(own: bool, step: Step)

  function After(s: State, trace: seq<Move>): State
  {
    if |trace| == 0 then s else Next(After(s, trace[..|trace| - 1]), trace[|trace| - 1].step)
  }

  /** Every own move (or every move of the others) meets the rule in the state it is made in. */
  ghost predicate Keeps(s: State, trace: seq<Move>, own: bool, rule: (State, Step) -> bool)
  {
    |trace| == 0 ||
    (var init, last := trace[..|trace| - 1], trace[|trace| - 1];
     Keeps(s, init, own, rule) && (last.own == own ==> rule(After(s, init), last.step)))
  }

  /** Every own move meets the rule, provided that all moves of the others before it have met what is relied on. */
  ghost predicate Guarantees(s: State, trace: seq<Move>, rely: (State, Step) -> bool, rule: (State, Step) -> bool)
  {
    |trace| == 0 ||
    (var init, last := trace[..|trace| - 1], trace[|trace| - 1];
     Guarantees(s, init, rely, rule) && (last.own && Keeps(s, init, false, rely) ==> rule(After(s, init), last.step)))
  }

  predicate AllOthers(trace: seq<Move>)
  {
    forall m <- trace :: !m.own
  }

  lemma {:induction false} AfterConcat(s: State, a: seq<Move>, b: seq<Move>)
    ensures After(s, a + b) == After(After(s, a), b)
  {
    if |b| == 0 {
      assert a + b == a;
    } else {
      var init := b[..|b| - 1];
      AfterConcat(s, a, init);
      assert (a + b)[..|a + b| - 1] == a + init;
    }
  }

  lemma {:induction false} KeepsConcat(s: State, a: seq<Move>, b: seq<Move>, own: bool, rule: (State, Step) -> bool)
    ensures Keeps(s, a + b, own, rule) == (Keeps(s, a, own, rule) && Keeps(After(s, a), b, own, rule))
  {
    if |b| == 0 {
      assert a + b == a;
    } else {
      var init := b[..|b| - 1];
      KeepsConcat(s, a, init, own, rule);
      AfterConcat(s, a, init);
      assert (a + b)[..|a + b| - 1] == a + init;
    }
  }

  lemma KeepsSnoc(s: State, a: seq<Move>, m: Move, own: bool, rule: (State, Step) -> bool)
    ensures After(s, a + [m]) == Next(After(s, a), m.step)
    ensures Keeps(s, a + [m], own, rule) == (Keeps(s, a, own, rule) && (m.own == own ==> rule(After(s, a), m.step)))
  {
    assert (a + [m])[..|a|] == a;
  }

  lemma {:induction false} OthersKeepOwnRule(s: State, a: seq<Move>, rule: (State, Step) -> bool)
    requires AllOthers(a)
    ensures Keeps(s, a, true, rule)
  {
    if |a| > 0 {
      OthersKeepOwnRule(s, a[..|a| - 1], rule);
    }
  }

  lemma {:induction false} GuaranteesConcat(s: State, a: seq<Move>, b: seq<Move>, rely: (State, Step) -> bool,
                              rule: (State, Step) -> bool)
    ensures Guarantees(s, a + b, rely, rule) ==
              (Guarantees(s, a, rely, rule) && (Keeps(s, a, false, rely) ==> Guarantees(After(s, a), b, rely, rule)))
  {
    if |b| == 0 {
      assert a + b == a;
    } else {
      var init := b[..|b| - 1];
      GuaranteesConcat(s, a, init, rely, rule);
      KeepsConcat(s, a, init, false, rely);
      AfterConcat(s, a, init);
      assert (a + b)[..|a + b| - 1] == a + init;
    }
  }

  lemma GuaranteesSnoc(s: State, a: seq<Move>, step: Step, rely: (State, Step) -> bool, rule: (State, Step) -> bool)
    ensures Guarantees(s, a + [Move(true, step)], rely, rule) ==
              (Guarantees(s, a, rely, rule) && (Keeps(s, a, false, rely) ==> rule(After(s, a), step)))
  {
    assert (a + [Move(true, step)])[..|a|] == a;
  }

  lemma {:induction false} OthersGuarantee(s: State, a: seq<Move>, rely: (State, Step) -> bool,
                                           rule: (State, Step) -> bool)
    requires AllOthers(a)
    ensures Guarantees(s, a, rely, rule)
  {
    if |a| > 0 {
      OthersGuarantee(s, a[..|a| - 1], rely, rule);
    }
  }

  /** A guarantee is a kept rule when the others do as relied on throughout. */
  lemma {:induction false} GuaranteedIsKept(s: State, trace: seq<Move>, rely: (State, Step) -> bool,
                                            rule: (State, Step) -> bool)
    requires Guarantees(s, trace, rely, rule) && Keeps(s, trace, false, rely)
    ensures Keeps(s, trace, true, rule)
  {
    if |trace| > 0 {
      GuaranteedIsKept(s, trace[..|trace| - 1], rely, rule);
    }
  }

  function Steps(trace: seq<Move>): seq<Step>
  {
    if |trace| == 0 then [] else Steps(trace[..|trace| - 1]) + [trace[|trace| - 1].step]
  }

  /** A trace is a run of its steps; a rule kept by both sides is kept along the run. */
  lemma {:induction false} TraceIsRun(s: State, trace: seq<Move>, rule: (State, Step) -> bool)
    ensures After(s, trace) == Run(s, Steps(trace))
    ensures Keeps(s, trace, true, rule) && Keeps(s, trace, false, rule) ==> Along(s, Steps(trace), rule)
  {
    if |trace| > 0 {
      var init, last := trace[..|trace| - 1], trace[|trace| - 1];
      TraceIsRun(s, init, rule);
      RunSnoc(s, Steps(init), last.step);
      assert (Steps(init) + [last.step])[..|Steps(init)|] == Steps(init);
    }
  }

  /** The shared database, as the services see it. */
  class Store {
    var apps: Apps
    var rows: seq<Row>
    var owed: set<Event>
    var log: seq<Event>
    var slices: seq<Slice>

    constructor ()
      ensures Abs() == Empty
    {
      apps, rows, owed, log, slices := map[], [], {}, [], [];
    }

    function Abs(): State
      reads this
    {
      State(apps, rows, owed, log, slices)
    }
  }

  /**
   Whatever other goroutines, node events and the sweeper commit between two transactions of the caller. The body is
   the case where nothing happens; callers learn only that some steps of others did.
   */
  method Interference(db: Store) returns (ghost env: seq<Move>)
    modifies db
    ensures AllOthers(env)
    ensures db.Abs() == After(old(db.Abs()), env)
  {
    env := [];
  }
}
