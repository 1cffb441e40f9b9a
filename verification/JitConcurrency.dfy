/**
 Any number of claimants, administrators, payers and node events at once. Each goroutine only guarantees its own steps
 while the others have behaved so far; together they keep the slices of every JIT wallet.
 */
module JitConcurrency {
  import opened Wrappers
  import opened Ledger
  import opened Admission
  import opened Protocol
  import opened Settlement
  import opened Threads
  import opened JitClaims
  import opened JitHubService

  /** One committed step and the goroutine that committed it. */
  datatype Act = Act(who: nat, step: Step)

  function StepsOf(acts: seq<Act>): seq<Step>
  {
    if |acts| == 0 then [] else StepsOf(acts[..|acts| - 1]) + [acts[|acts| - 1].step]
  }

  /** The run as one goroutine sees it: its own moves, and interference. */
  function View(acts: seq<Act>, me: nat): seq<Move>
  {
    if |acts| == 0 then [] else View(acts[..|acts| - 1], me) + [Move(acts[|acts| - 1].who == me, acts[|acts| - 1].step)]
  }

  /** A goroutine claims, gives back, removes and pays slices in its own name only. */
  predicate Signed(act: Act)
  {
    match act.step
    case SendPayment(req) => Names(req.purpose) ==> req.purpose.holder == act.who
    case ClaimSlice(_, holder) => holder == act.who
    case UnclaimSlice(_, holder) => holder == act.who
    case RemoveSlice(_, holder) => holder == act.who
    case _ => true
  }

  /** The one assumption about the node: no event settles a FAILED payment of a slice that is somebody else's. */
  predicate SettlesNoneLate(s: State, act: Act)
  {
    act.step.MarkSettled? && EffectOf(s, act.step) != Same && RevivesPayment(s.rows[act.step.id]) ==>
      s.rows[act.step.id].purpose.holder == act.who
  }

  ghost predicate NoneLate(s: State, acts: seq<Act>)
  {
    |acts| == 0 ||
    (NoneLate(s, acts[..|acts| - 1]) && SettlesNoneLate(Run(s, StepsOf(acts[..|acts| - 1])), acts[|acts| - 1]))
  }

  ghost predicate AllGuarantee(s: State, acts: seq<Act>)
  {
    forall who: nat :: Guarantees(s, View(acts, who), Foreign(who), KeepsSlices())
  }

  lemma {:induction false} ViewIsRun(s: State, acts: seq<Act>, me: nat)
    ensures After(s, View(acts, me)) == Run(s, StepsOf(acts))
  {
    if |acts| > 0 {
      var init, last := acts[..|acts| - 1], acts[|acts| - 1];
      ViewIsRun(s, init, me);
      RunSnoc(s, StepsOf(init), last.step);
      assert (View(init, me) + [Move(last.who == me, last.step)])[..|View(init, me)|] == View(init, me);
    }
  }

  lemma ViewSnoc(s: State, acts: seq<Act>, me: nat)
    requires |acts| > 0
    ensures var init, last := acts[..|acts| - 1], acts[|acts| - 1];
            var before := Run(s, StepsOf(init));
            && (Keeps(s, View(acts, me), false, Foreign(me)) <==>
                  Keeps(s, View(init, me), false, Foreign(me)) && (last.who != me ==> Foreign(me)(before, last.step)))
            && (Guarantees(s, View(acts, me), Foreign(me), KeepsSlices()) ==>
                  Guarantees(s, View(init, me), Foreign(me), KeepsSlices())
                  && (last.who == me && Keeps(s, View(init, me), false, Foreign(me)) ==>
                      KeepsSlicesIn(before, last.step)))
  {
    hide Foreign, KeepsSlicesIn;
    var init, last := acts[..|acts| - 1], acts[|acts| - 1];
    ViewIsRun(s, init, me);
    assert View(acts, me)[..|View(init, me)|] == View(init, me);
  }

  /** Rely and guarantee close: if every goroutine guarantees its own steps, every step of the run keeps the slices. */
  lemma {:induction false} TogetherTheyKeep(s: State, acts: seq<Act>)
    requires AllGuarantee(s, acts) && NoneLate(s, acts) && forall act <- acts :: Signed(act)
    ensures Along(s, StepsOf(acts), KeepsSlices())
    ensures forall who: nat :: Keeps(s, View(acts, who), false, Foreign(who))
  {
    if |acts| > 0 {
      hide KeepsSlicesIn, EffectOf, Guarantees, Keeps;
      var init, last := acts[..|acts| - 1], acts[|acts| - 1];
      assert last in acts && forall act <- init :: act in acts;
      forall who: nat ensures Guarantees(s, View(init, who), Foreign(who), KeepsSlices()) {
        ViewSnoc(s, acts, who);
      }
      TogetherTheyKeep(s, init);
      var before := Run(s, StepsOf(init));
      ViewSnoc(s, acts, last.who);
      assert KeepsSlicesIn(before, last.step);
      forall who: nat ensures Keeps(s, View(acts, who), false, Foreign(who)) {
        ViewSnoc(s, acts, who);
        if who != last.who {
          OthersStepIsForeign(before, last, who);
        }
      }
      assert (StepsOf(init) + [last.step])[..|StepsOf(init)|] == StepsOf(init);
    } else {
      forall who: nat ensures Keeps(s, View(acts, who), false, Foreign(who)) {
        assert View(acts, who) == [];
      }
    }
  }

  lemma OthersStepIsForeign(s: State, act: Act, who: nat)
    requires Signed(act) && SettlesNoneLate(s, act) && KeepsSlicesIn(s, act.step) && act.who != who
    ensures Foreign(who)(s, act.step)
  {
  }

  /**
   Slice safety of the system: whatever interleaving of goroutines that each guarantee their own steps, at most one
   payment of a slice is out or settled, of exactly its amount from its wallet, and the slice is not to be claimed
   again.
   */
  lemma ConcurrentClaimsAreSafe(acts: seq<Act>, i: nat)
    requires AllGuarantee(Empty, acts) && NoneLate(Empty, acts) && forall act <- acts :: Signed(act)
    requires i < |Run(Empty, StepsOf(acts)).rows| && Live(Run(Empty, StepsOf(acts)).rows[i])
             && Names(Run(Empty, StepsOf(acts)).rows[i].purpose)
    ensures var s := Run(Empty, StepsOf(acts));
            var r := s.rows[i];
            && r.purpose.slice < |s.slices|
            && r.app == Some(s.slices[r.purpose.slice].wallet) && r.amount == s.slices[r.purpose.slice].amount
            && !s.slices[r.purpose.slice].status.Unclaimed?
            && forall j :: 0 <= j < |s.rows| && Pays(s.rows[j], r.purpose.slice) ==> i == j
  {
    TogetherTheyKeep(Empty, acts);
    SliceSafety(StepsOf(acts), i);
  }

  /** A call that guarantees its steps from any sound state guarantees them within a longer run around it. */
  lemma CallInRun(s: State, before: seq<Move>, call: seq<Move>, later: seq<Move>, holder: nat)
    requires SlicesSound(s) && FreshHolder(s, holder) && AllOthers(before) && AllOthers(later)
    requires SlicesSound(After(s, before)) && FreshHolder(After(s, before), holder) ==>
               Guarantees(After(s, before), call, Foreign(holder), KeepsSlices())
    ensures Guarantees(s, before + call + later, Foreign(holder), KeepsSlices())
  {
    hide SlicesSound, FreshHolder, Foreign, KeepsSlices;
    OthersGuarantee(s, before, Foreign(holder), KeepsSlices());
    GuaranteesConcat(s, before, call, Foreign(holder), KeepsSlices());
    if Keeps(s, before, false, Foreign(holder)) {
      FreshStays(s, before, holder);
    }
    GuaranteesConcat(s, before + call, later, Foreign(holder), KeepsSlices());
    OthersGuarantee(After(s, before + call), later, Foreign(holder), KeepsSlices());
  }

  // ---------- everybody else: payers, node events, the sweeper, transfers, reclaims and creations ----------

  ghost predicate PaysNothing(rows: seq<Row>, who: nat)
  {
    forall p :: Names(p) && p.holder == who ==> !Used(rows, p)
  }

  lemma StillPaysNothing(s: State, step: Step, who: nat)
    requires PaysNothing(s.rows, who) && (IsBystander(s, step) || NotBy(step, who))
    ensures PaysNothing(Next(s, step).rows, who)
  {
    hide Next, Used;
    forall p | Names(p) && p.holder == who ensures !Used(Next(s, step).rows, p) {
      if Used(Next(s, step).rows, p) {
        StepLeavesPayments(s, step, p);
      }
    }
  }

  /** The revived payment would be one of its own, and it has none. */
  lemma BystanderKeepsSlices(s: State, act: Act)
    requires PaysNothing(s.rows, act.who) && IsBystander(s, act.step) && SettlesNoneLate(s, act)
    ensures KeepsSlicesIn(s, act.step)
  {
    hide Admit;
    if act.step.MarkSettled? && act.step.id < |s.rows| && RevivesPayment(s.rows[act.step.id]) {
      assert Used(s.rows, s.rows[act.step.id].purpose);
    }
  }

  /** A goroutine that never takes or pays a slice guarantees its steps. */
  lemma {:induction false} BystanderGuarantees(s: State, acts: seq<Act>, who: nat)
    requires PaysNothing(s.rows, who) && Keeps(s, View(acts, who), true, Bystander()) && NoneLate(s, acts)
    ensures Guarantees(s, View(acts, who), Foreign(who), KeepsSlices())
    ensures Keeps(s, View(acts, who), false, Foreign(who)) ==> PaysNothing(Run(s, StepsOf(acts)).rows, who)
  {
    if |acts| > 0 {
      hide PaysNothing, KeepsSlicesIn, SettlesNoneLate, IsBystander, NotBy, Next;
      var init, last := acts[..|acts| - 1], acts[|acts| - 1];
      var move := Move(last.who == who, last.step);
      ViewIsRun(s, init, who);
      KeepsSnoc(s, View(init, who), move, true, Bystander());
      KeepsSnoc(s, View(init, who), move, false, Foreign(who));
      BystanderGuarantees(s, init, who);
      var before := Run(s, StepsOf(init));
      RunSnoc(s, StepsOf(init), last.step);
      assert View(acts, who)[..|View(init, who)|] == View(init, who);
      if Keeps(s, View(init, who), false, Foreign(who)) {
        if last.who == who {
          BystanderKeepsSlices(before, last);
        }
        if last.who == who || Foreign(who)(before, last.step) {
          StillPaysNothing(before, last.step, who);
        }
      }
    }
  }

  /**
   A payment for no slice, a node event, a transfer and a reclaim are a bystander's within a longer run around them.
   */
  lemma BystanderInRun(s: State, before: seq<Move>, call: seq<Move>, later: seq<Move>)
    requires AllOthers(before) && AllOthers(later) && Keeps(After(s, before), call, true, Bystander())
    ensures Keeps(s, before + call + later, true, Bystander())
  {
    KeepsConcat(s, before, call, true, Bystander());
    KeepsConcat(s, before + call, later, true, Bystander());
    OthersKeepOwnRule(s, before, Bystander());
    OthersKeepOwnRule(After(s, before + call), later, Bystander());
  }

  /** Everybody claims or removes slices as the two calls do, or takes and pays none. */
  ghost predicate ClaimantsAndBystanders(acts: seq<Act>)
  {
    forall who: nat ::
      Guarantees(Empty, View(acts, who), Foreign(who), KeepsSlices())
        || Keeps(Empty, View(acts, who), true, Bystander())
  }

  /**
   Slice safety of the whole system: claimants and administrators among any number of payers, node events, sweeps,
   transfers, reclaims and creations.
   */
  lemma SystemIsSafe(acts: seq<Act>, i: nat)
    requires ClaimantsAndBystanders(acts) && NoneLate(Empty, acts) && forall act <- acts :: Signed(act)
    requires i < |Run(Empty, StepsOf(acts)).rows| && Live(Run(Empty, StepsOf(acts)).rows[i])
             && Names(Run(Empty, StepsOf(acts)).rows[i].purpose)
    ensures var s := Run(Empty, StepsOf(acts));
            var r := s.rows[i];
            && r.purpose.slice < |s.slices|
            && r.app == Some(s.slices[r.purpose.slice].wallet) && r.amount == s.slices[r.purpose.slice].amount
            && !s.slices[r.purpose.slice].status.Unclaimed?
            && forall j :: 0 <= j < |s.rows| && Pays(s.rows[j], r.purpose.slice) ==> i == j
  {
    assert AllGuarantee(Empty, acts) by {
      forall who: nat ensures Guarantees(Empty, View(acts, who), Foreign(who), KeepsSlices()) {
        if Keeps(Empty, View(acts, who), true, Bystander()) {
          BystanderGuarantees(Empty, acts, who);
        }
      }
    }
    ConcurrentClaimsAreSafe(acts, i);
  }
}
