/**
 The claim, give-back and removal of JIT wallet slices, and the two payment flows built on them, as goroutines among
 others: the claim_funds request and an administrator's removal of a slice.
 */
module JitHubService {
  import opened Wrappers
  import opened Ledger
  import opened Admission
  import opened Protocol
  import opened Settlement
  import opened Threads
  import opened TransactionsService
  import opened JitClaims
  import opened Conservation
  import opened InternalTransfer

  // ---------- what others leave alone ----------

  predicate HeldBy(c: Slice, holder: nat)
  {
    (c.status.Claimed? || c.status.Removed?) && c.status.holder == holder
  }

  /** The step is not one of the holder's own. */
  predicate NotBy(step: Step, holder: nat)
  {
    match step
    case SendPayment(req) => Names(req.purpose) ==> req.purpose.holder != holder
    case ClaimSlice(_, other) => other != holder
    case UnclaimSlice(_, other) => other != holder
    case RemoveSlice(_, other) => other != holder
    case _ => true
  }

  /** No event settles a FAILED payment of the holder late. */
  predicate NoLateSettlement(s: State, step: Step, holder: nat)
  {
    step.MarkSettled? && EffectOf(s, step) != Same && RevivesPayment(s.rows[step.id]) ==>
      s.rows[step.id].purpose.holder != holder
  }

  ghost function Foreign(holder: nat): (State, Step) -> bool
  {
    (s: State, step: Step) => KeepsSlicesIn(s, step) && NotBy(step, holder) && NoLateSettlement(s, step, holder)
  }

  predicate SameShare(a: Slice, b: Slice)
  {
    a.id == b.id && a.wallet == b.wallet && a.identity == b.identity && a.amount == b.amount
  }

  ghost predicate SharesStay(slices: seq<Slice>, slices': seq<Slice>)
  {
    |slices| <= |slices'| && forall k :: 0 <= k < |slices| ==> SameShare(slices[k], slices'[k])
  }

  /** Neither the slices nor the payments of the holder have changed hands. */
  ghost predicate LeavesAlone(s: State, s': State, holder: nat)
  {
    && SharesStay(s.slices, s'.slices)
    && (forall k :: 0 <= k < |s.slices| && HeldBy(s.slices[k], holder) ==> s'.slices[k].status == s.slices[k].status)
    && (forall k :: 0 <= k < |s'.slices| && HeldBy(s'.slices[k], holder) ==>
        k < |s.slices| && HeldBy(s.slices[k], holder))
    && (forall p :: Names(p) && p.holder == holder && Used(s'.rows, p) ==> Used(s.rows, p))
    && |s.rows| <= |s'.rows|
    && (forall i :: 0 <= i < |s.rows| && RevivesPayment(s.rows[i]) && s.rows[i].purpose.holder == holder ==>
          s'.rows[i].purpose == s.rows[i].purpose && RevivesPayment(s'.rows[i]))
  }

  lemma SharesStayAfter(slices: seq<Slice>, step: Step)
    ensures SharesStay(slices, SlicesAfter(slices, step))
  {
  }

  lemma StepLeavesSlices(s: State, step: Step, holder: nat)
    requires KeepsSlicesIn(s, step) && NotBy(step, holder)
    ensures var slices' := SlicesAfter(s.slices, step);
            && SharesStay(s.slices, slices')
            && (forall k :: 0 <= k < |s.slices| && HeldBy(s.slices[k], holder) ==>
                slices'[k].status == s.slices[k].status)
            && (forall k :: 0 <= k < |slices'| && HeldBy(slices'[k], holder) ==>
                k < |s.slices| && HeldBy(s.slices[k], holder))
  {
  }

  lemma StepLeavesPayments(s: State, step: Step, p: Purpose)
    requires Names(p) && NotBy(step, p.holder) && Used(Next(s, step).rows, p)
    ensures Used(s.rows, p)
  {
    hide Admit;
    var rows' := Next(s, step).rows;
    var i :| 0 <= i < |rows'| && rows'[i].direction == Outgoing && rows'[i].purpose == p;
    StepEvolves(s, step);
    if i < |s.rows| {
      assert RowEvolves(s.rows[i], rows'[i]);
    } else if step.SendPayment? {
      SentRow(s, step.req);
    }
  }

  lemma StepLeavesFailed(s: State, step: Step, holder: nat, i: nat)
    requires NoLateSettlement(s, step, holder) && i < |s.rows| && RevivesPayment(s.rows[i])
             && s.rows[i].purpose.holder == holder
    ensures var rows' := Next(s, step).rows;
            i < |rows'| && rows'[i].purpose == s.rows[i].purpose && RevivesPayment(rows'[i])
  {
    hide Admit;
    StepEvolves(s, step);
    assert RowEvolves(s.rows[i], Next(s, step).rows[i]);
  }

  lemma StepLeavesAlone(s: State, step: Step, holder: nat)
    requires Foreign(holder)(s, step)
    ensures LeavesAlone(s, Next(s, step), holder)
  {
    hide EffectOf, SlicesAfter, KeepsSlicesIn, NotBy, NoLateSettlement, Used, HeldBy;
    StepLeavesSlices(s, step, holder);
    forall p | Names(p) && p.holder == holder && Used(Next(s, step).rows, p) ensures Used(s.rows, p) {
      StepLeavesPayments(s, step, p);
    }
    StepEvolves(s, step);
    forall i | 0 <= i < |s.rows| && RevivesPayment(s.rows[i]) && s.rows[i].purpose.holder == holder
      ensures Next(s, step).rows[i].purpose == s.rows[i].purpose && RevivesPayment(Next(s, step).rows[i])
    {
      StepLeavesFailed(s, step, holder, i);
    }
  }

  lemma LeavesAloneTransitive(a: State, b: State, c: State, holder: nat)
    requires LeavesAlone(a, b, holder) && LeavesAlone(b, c, holder)
    ensures LeavesAlone(a, c, holder)
  {
    hide Used, RevivesPayment;
  }

  /** Over a gap the claims table stays sound and the holder's own slices and payments stay as they were. */
  lemma {:induction false} GapLeavesAlone(s: State, gap: seq<Move>, holder: nat)
    requires SlicesSound(s) && AllOthers(gap) && Keeps(s, gap, false, Foreign(holder))
    ensures SlicesSound(After(s, gap)) && LeavesAlone(s, After(s, gap), holder)
  {
    if |gap| == 0 {
      hide Used;
    } else {
      hide SlicesSound, LeavesAlone, KeepsSlicesIn, NotBy, NoLateSettlement;
      var init, last := gap[..|gap| - 1], gap[|gap| - 1];
      GapLeavesAlone(s, init, holder);
      StepLeavesAlone(After(s, init), last.step, holder);
      StepKeepsSlicesSound(After(s, init), last.step);
      LeavesAloneTransitive(s, After(s, init), After(s, gap), holder);
    }
  }

  lemma {:induction false} LedgerOnlyIsBystanding(s: State, trace: seq<Move>)
    requires LedgerOnly(trace)
    ensures Keeps(s, trace, true, Bystander())
  {
    if |trace| > 0 {
      LedgerOnlyIsBystanding(s, trace[..|trace| - 1]);
      assert trace[|trace| - 1] in trace;
    }
  }

  // ---------- a payment for a slice ----------

  lemma IdleStays(s: State, s': State, p: Purpose)
    requires Names(p) && SlicesSound(s') && LeavesAlone(s, s', p.holder) && Idle(s.rows, p)
    ensures Idle(s'.rows, p)
  {
    forall i | 0 <= i < |s'.rows| && s'.rows[i].direction == Outgoing && s'.rows[i].purpose == p
      ensures !Live(s'.rows[i])
    {
      assert Used(s'.rows, p);
      var j :| 0 <= j < |s.rows| && s.rows[j].direction == Outgoing && s.rows[j].purpose == p;
      assert RevivesPayment(s.rows[j]);
      assert SamePayment(s'.rows[i], s'.rows[j]);
    }
  }

  /**
   Giving a slice back is safe exactly when nothing of its payout is out: otherwise, and only then, the next claim may
   pay it once more. A success that came without a preimage reports an error and leaves the payout PENDING.
   */
  lemma GiveBackIsSafeIff(s: State, k: nat, holder: nat)
    requires SlicesSound(s) && Held(s.slices, ClaimPayout(k, holder))
    ensures var s' := Next(s, UnclaimSlice(k, holder));
            && (SlicesSound(s') <==> Idle(s.rows, ClaimPayout(k, holder)))
            && (DoublyPayable(s', k) <==> !Idle(s.rows, ClaimPayout(k, holder)))
  {
    var p := ClaimPayout(k, holder);
    var s' := Next(s, UnclaimSlice(k, holder));
    if Idle(s.rows, p) {
      IdleSliceHasNoPayment(s, p);
      StepKeepsSlicesSound(s, UnclaimSlice(k, holder));
      SoundIsNotDoublyPayable(s', k);
    } else {
      var i :| 0 <= i < |s.rows| && s.rows[i].direction == Outgoing && s.rows[i].purpose == p && Live(s.rows[i]);
      assert s'.rows[i] == s.rows[i] && !SliceRow(s'.apps, s'.slices, s'.rows[i]);
      assert Pays(s'.rows[i], k);
      UnclaimedIsDoublyPayable(s', k);
    }
  }

  /** The row of the holder's payment, whose slice is still held. */
  predicate HeldRow(s: State, id: nat, p: Purpose)
    requires Names(p)
  {
    id < |s.rows| && s.rows[id].direction == Outgoing && s.rows[id].purpose == p && Held(s.slices, p)
  }

  lemma PayerStepKeepsSlices(s: State, step: Step, id: nat, p: Purpose)
    requires SlicesSound(s) && Names(p) && HeldRow(s, id, p) && PayerStep(s, step, id)
    ensures KeepsSlicesIn(s, step) && Next(s, step).slices == s.slices && HeldRow(Next(s, step), id, p)
  {
    hide Admit, SlicesSound;
    StepEvolves(s, step);
    assert RowEvolves(s.rows[id], Next(s, step).rows[id]);
  }

  lemma ForeignStepKeepsHold(s: State, step: Step, id: nat, p: Purpose)
    requires SlicesSound(s) && Names(p) && HeldRow(s, id, p) && Foreign(p.holder)(s, step)
    ensures SharesStay(s.slices, Next(s, step).slices) && HeldRow(Next(s, step), id, p)
  {
    hide EffectOf, Next, SlicesSound, KeepsSlicesIn, NotBy, NoLateSettlement;
    StepEvolves(s, step);
    assert RowEvolves(s.rows[id], Next(s, step).rows[id]);
    StepLeavesAlone(s, step, p.holder);
  }

  lemma SharesStayTransitive(a: seq<Slice>, b: seq<Slice>, c: seq<Slice>)
    requires SharesStay(a, b) && SharesStay(b, c)
    ensures SharesStay(a, c)
  {
    forall k | 0 <= k < |a| ensures SameShare(a[k], c[k]) {
      assert SameShare(a[k], b[k]) && SameShare(b[k], c[k]);
    }
  }

  /** Whatever a payer does once its row exists keeps the slices, and the slice stays held. */
  lemma {:induction false} PaymentTail(s: State, trace: seq<Move>, id: nat, p: Purpose)
    requires SlicesSound(s) && Names(p) && HeldRow(s, id, p)
    requires OwnPayerSteps(s, trace, id) && Keeps(s, trace, false, Foreign(p.holder))
    ensures Keeps(s, trace, true, KeepsSlices()) && SlicesSound(After(s, trace))
    ensures SharesStay(s.slices, After(s, trace).slices) && HeldRow(After(s, trace), id, p)
  {
    if |trace| > 0 {
      hide SlicesSound, KeepsSlicesIn, NotBy, NoLateSettlement, EffectOf, HeldRow, SharesStay, Next, PayerStep;
      var init, last := trace[..|trace| - 1], trace[|trace| - 1];
      PaymentTail(s, init, id, p);
      if last.own {
        PayerStepKeepsSlices(After(s, init), last.step, id, p);
        SharesReflexive(After(s, init).slices);
      } else {
        ForeignStepKeepsHold(After(s, init), last.step, id, p);
      }
      StepKeepsSlicesSound(After(s, init), last.step);
      SharesStayTransitive(s.slices, After(s, init).slices, After(s, trace).slices);
    }
  }

  lemma {:induction false} TailGuarantees(s: State, trace: seq<Move>, id: nat, p: Purpose)
    requires SlicesSound(s) && Names(p) && HeldRow(s, id, p) && OwnPayerSteps(s, trace, id)
    ensures Guarantees(s, trace, Foreign(p.holder), KeepsSlices())
  {
    if |trace| > 0 {
      hide SlicesSound, NotBy, NoLateSettlement, EffectOf, HeldRow, SharesStay, Next, PayerStep;
      var init, last := trace[..|trace| - 1], trace[|trace| - 1];
      TailGuarantees(s, init, id, p);
      if last.own && Keeps(s, init, false, Foreign(p.holder)) {
        PaymentTail(s, init, id, p);
        PayerStepKeepsSlices(After(s, init), last.step, id, p);
      }
    }
  }

  lemma SharesReflexive(slices: seq<Slice>)
    ensures SharesStay(slices, slices)
  {
  }

  /** The payment of a held slice is a run that keeps the slices; if it fails, nothing of it is out. */
  lemma CallKeepsSlices(s0: State, call: Call, out: Outcome, node: Reply)
    requires var p := call.req.purpose;
             Names(p) && SlicesSound(s0) && PaysItsSlice(s0, call.req) && AllOthers(call.before)
             && Keeps(s0, call.Trace(), false, Foreign(p.holder))
    requires Concluded(After(s0, call.before), call, out, After(s0, call.Trace()).rows, node)
    ensures var s' := After(s0, call.Trace());
            && Keeps(s0, call.Trace(), true, KeepsSlices()) && SlicesSound(s')
            && SharesStay(s0.slices, s'.slices) && Held(s'.slices, call.req.purpose)
            && ((out.Refused? || out.Errored?) && (node.Sent? ==> node.preimage) ==> Idle(s'.rows, call.req.purpose))
  {
    hide Admit, EffectOf, KeepsSlicesIn, NotBy, NoLateSettlement, SlicesSound, PayerStep, Next;
    var p := call.req.purpose;
    var pay := Move(true, SendPayment(call.req));
    var head := call.before + [pay];
    KeepsConcat(s0, head, call.after, false, Foreign(p.holder));
    KeepsSnoc(s0, call.before, pay, false, Foreign(p.holder));
    GapLeavesAlone(s0, call.before, p.holder);
    var s1 := After(s0, call.before);
    OthersKeepOwnRule(s0, call.before, KeepsSlices());
    KeepsSnoc(s0, call.before, pay, true, KeepsSlices());
    KeepsConcat(s0, head, call.after, true, KeepsSlices());
    AfterConcat(s0, head, call.after);
    StillDue(s0, s1, call.req);
    var s2 := Next(s1, SendPayment(call.req));
    assert KeepsSlicesIn(s1, SendPayment(call.req)) by { SendRule(s1, call.req); }
    StepKeepsSlicesSound(s1, SendPayment(call.req));
    PaymentOutcome(s1, call, out, node);
    SharesStayTransitive(s0.slices, s1.slices, After(s0, call.Trace()).slices);
  }

  /** Step by step: whenever the others have kept the slices so far, the next own step of the payment keeps them. */
  lemma CallGuarantees(s0: State, call: Call, out: Outcome, node: Reply)
    requires Names(call.req.purpose) && SlicesSound(s0) && PaysItsSlice(s0, call.req) && AllOthers(call.before)
    requires Concluded(After(s0, call.before), call, out, After(s0, call.Trace()).rows, node)
    ensures Guarantees(s0, call.Trace(), Foreign(call.req.purpose.holder), KeepsSlices())
  {
    hide Admit, EffectOf, KeepsSlicesIn, NotBy, NoLateSettlement, SlicesSound, PayerStep, Next;
    var p := call.req.purpose;
    var rely := Foreign(p.holder);
    var pay := Move(true, SendPayment(call.req));
    var s1 := After(s0, call.before);
    OthersGuarantee(s0, call.before, rely, KeepsSlices());
    GuaranteesSnoc(s0, call.before, SendPayment(call.req), rely, KeepsSlices());
    GuaranteesConcat(s0, call.before + [pay], call.after, rely, KeepsSlices());
    KeepsSnoc(s0, call.before, pay, false, rely);
    AfterConcat(s0, call.before + [pay], call.after);
    if Keeps(s0, call.before, false, rely) {
      GapLeavesAlone(s0, call.before, p.holder);
      StillDue(s0, s1, call.req);
      SendRule(s1, call.req);
      StepKeepsSlicesSound(s1, SendPayment(call.req));
      AfterSendGuarantees(s1, call, out, node);
    }
  }

  lemma AfterSendGuarantees(s1: State, call: Call, out: Outcome, node: Reply)
    requires Names(call.req.purpose) && PaysItsSlice(s1, call.req) && SlicesSound(Next(s1, SendPayment(call.req)))
    requires Concluded(s1, call, out, After(Next(s1, SendPayment(call.req)), call.after).rows, node)
    ensures Guarantees(Next(s1, SendPayment(call.req)), call.after, Foreign(call.req.purpose.holder), KeepsSlices())
  {
    hide Admit, KeepsSlicesIn, NotBy, NoLateSettlement, PayerStep, SoundSlices;
    if Admit(s1.apps, s1.rows, call.req).Ok? {
      AdmittedRow(s1.apps, s1.rows, call.req);
      TailGuarantees(Next(s1, SendPayment(call.req)), call.after, |s1.rows|, call.req.purpose);
    }
  }

  lemma SendRule(s: State, req: Request)
    requires PaysItsSlice(s, req)
    ensures KeepsSlicesIn(s, SendPayment(req))
  {
  }

  lemma StillDue(s: State, s': State, req: Request)
    requires PaysItsSlice(s, req) && LeavesAlone(s, s', req.purpose.holder)
    ensures PaysItsSlice(s', req)
  {
    var k := req.purpose.slice;
    assert HeldBy(s.slices[k], req.purpose.holder) && SameShare(s.slices[k], s'.slices[k]);
  }

  /** From the state the payment was checked in to its answer. */
  lemma PaymentOutcome(s1: State, call: Call, out: Outcome, node: Reply)
    requires var p := call.req.purpose;
             var s2 := Next(s1, SendPayment(call.req));
             Names(p) && SlicesSound(s2) && PaysItsSlice(s1, call.req)
               && Keeps(s2, call.after, false, Foreign(p.holder))
             && Concluded(s1, call, out, After(s2, call.after).rows, node)
    ensures var p := call.req.purpose;
            var s2 := Next(s1, SendPayment(call.req));
            var s' := After(s2, call.after);
            && Keeps(s2, call.after, true, KeepsSlices()) && SlicesSound(s')
            && SharesStay(s1.slices, s'.slices) && Held(s'.slices, p)
            && ((out.Refused? || out.Errored?) && (node.Sent? ==> node.preimage) ==> Idle(s'.rows, p))
  {
    hide Admit, KeepsSlicesIn, NotBy, NoLateSettlement, PayerStep, SoundSlices;
    var p := call.req.purpose;
    var s2 := Next(s1, SendPayment(call.req));
    assert s2.slices == s1.slices;
    match Admit(s1.apps, s1.rows, call.req)
    case Err(why) =>
      assert s2.rows == s1.rows && After(s2, call.after) == s2;
      SharesReflexive(s1.slices);
    case Ok(row) =>
      AdmittedRow(s1.apps, s1.rows, call.req);
      PaymentTail(s2, call.after, |s1.rows|, p);
      var s' := After(s2, call.after);
      forall i | 0 <= i < |s'.rows| && s'.rows[i].direction == Outgoing && s'.rows[i].purpose == p
        ensures i == |s1.rows|
      {
        assert SamePayment(s'.rows[i], s'.rows[|s1.rows|]);
      }
  }

  // ---------- the claims table ----------

  predicate IsShareOf(c: Slice, wallet: AppId, identity: Identity, claimed: bool)
  {
    c.wallet == wallet && c.identity == identity && (if claimed then c.status.Claimed? else c.status.Unclaimed?)
  }

  /** The first row a query for these columns returns; a removed slice has no row. */
  method FindSlice(db: Store, wallet: AppId, identity: Identity, claimed: bool) returns (r: Option<nat>)
    ensures r.Some? ==> r.value < |db.slices| && IsShareOf(db.slices[r.value], wallet, identity, claimed)
    ensures r.None? ==> forall k :: 0 <= k < |db.slices| ==> !IsShareOf(db.slices[k], wallet, identity, claimed)
  {
    for k := 0 to |db.slices|
      invariant forall j :: 0 <= j < k ==> !IsShareOf(db.slices[j], wallet, identity, claimed)
    {
      if IsShareOf(db.slices[k], wallet, identity, claimed) {
        return Some(k);
      }
    }
    r := None;
  }

  lemma {:induction false} SlicesOnlyGrow(s: State, trace: seq<Move>)
    ensures SharesStay(s.slices, After(s, trace).slices)
  {
    if |trace| > 0 {
      var init := trace[..|trace| - 1];
      SlicesOnlyGrow(s, init);
      SharesStayAfter(After(s, init).slices, trace[|trace| - 1].step);
      SharesStayTransitive(s.slices, After(s, init).slices, After(s, trace).slices);
    }
  }

  /** No slice is held, and no payment was ever made, by this goroutine. */
  ghost predicate FreshHolder(s: State, holder: nat)
  {
    && (forall k :: 0 <= k < |s.slices| ==> !HeldBy(s.slices[k], holder))
    && (forall p :: Names(p) && p.holder == holder ==> !Used(s.rows, p))
  }

  /** The goroutine holds the slice for this purpose and has not paid for it. */
  ghost predicate Due(s: State, p: Purpose)
    requires Names(p)
  {
    SlicesSound(s) && Held(s.slices, p) && !Used(s.rows, p)
  }

  /** Two consecutive stretches of one goroutine. */
  lemma Stretch(s: State, a: seq<Move>, b: seq<Move>, holder: nat)
    ensures After(s, a + b) == After(After(s, a), b)
    ensures Guarantees(s, a + b, Foreign(holder), KeepsSlices()) ==
              (Guarantees(s, a, Foreign(holder), KeepsSlices())
               && (Keeps(s, a, false, Foreign(holder)) ==> Guarantees(After(s, a), b, Foreign(holder), KeepsSlices())))
    ensures Keeps(s, a + b, false, Foreign(holder)) ==
              (Keeps(s, a, false, Foreign(holder)) && Keeps(After(s, a), b, false, Foreign(holder)))
  {
    AfterConcat(s, a, b);
    GuaranteesConcat(s, a, b, Foreign(holder), KeepsSlices());
    KeepsConcat(s, a, b, false, Foreign(holder));
  }

  /** A gap and then one own step, which has to keep the slices in the state the gap leaves. */
  lemma GapThenStep(s: State, gap: seq<Move>, step: Step, holder: nat)
    requires AllOthers(gap)
    ensures var trace := gap + [Move(true, step)];
            && After(s, trace) == Next(After(s, gap), step)
            && Keeps(s, trace, false, Foreign(holder)) == Keeps(s, gap, false, Foreign(holder))
            && Guarantees(s, trace, Foreign(holder), KeepsSlices()) ==
                 (Keeps(s, gap, false, Foreign(holder)) ==> KeepsSlicesIn(After(s, gap), step))
  {
    KeepsSnoc(s, gap, Move(true, step), false, Foreign(holder));
    OthersGuarantee(s, gap, Foreign(holder), KeepsSlices());
    GuaranteesSnoc(s, gap, step, Foreign(holder), KeepsSlices());
  }

  /** Taking an unclaimed slice, for a payout or for a removal, makes its first payment due. */
  lemma TakenIsDue(s: State, gap: seq<Move>, p: Purpose)
    requires Names(p) && SlicesSound(s) && FreshHolder(s, p.holder) && AllOthers(gap)
             && Keeps(s, gap, false, Foreign(p.holder))
    requires p.slice < |After(s, gap).slices| && After(s, gap).slices[p.slice].status == Unclaimed
    ensures var take := if p.ClaimPayout? then ClaimSlice(p.slice, p.holder) else RemoveSlice(p.slice, p.holder);
            KeepsSlicesIn(After(s, gap), take) && Due(Next(After(s, gap), take), p)
  {
    hide Keeps, Foreign;
    GapLeavesAlone(s, gap, p.holder);
    var s1 := After(s, gap);
    var take := if p.ClaimPayout? then ClaimSlice(p.slice, p.holder) else RemoveSlice(p.slice, p.holder);
    StepKeepsSlicesSound(s1, take);
    assert Next(s1, take).rows == s1.rows;
  }

  lemma NothingGuaranteed(s: State, holder: nat)
    ensures After(s, []) == s && AllOthers([]) && Guarantees(s, [], Foreign(holder), KeepsSlices())
  {
  }

  lemma TakeStep(s: State, k: nat, holder: nat)
    requires k < |s.slices| && s.slices[k].status == Unclaimed
    ensures Next(s, ClaimSlice(k, holder)) == s.(slices := WithStatus(s.slices, k, Claimed(holder)))
    ensures Next(s, RemoveSlice(k, holder)) == s.(slices := WithStatus(s.slices, k, Removed(holder)))
    ensures KeepsSlicesIn(s, ClaimSlice(k, holder)) && KeepsSlicesIn(s, RemoveSlice(k, holder))
  {
  }

  /** Read, and then write only if the slice is still unclaimed. */
  method ClaimJITWalletSlice(db: Store, wallet: AppId, identity: Identity, holder: nat)
    returns (r: Option<(nat, nat)>, ghost trace: seq<Move>)
    modifies db
    ensures db.Abs() == After(old(db.Abs()), trace)
    ensures r.None? ==> AllOthers(trace) && Unavailable(old(db.slices), db.slices, wallet, identity)
    ensures r.Some? ==>
              && r.value.0 < |db.slices| && IsShareOf(db.slices[r.value.0], wallet, identity, true)
              && db.slices[r.value.0].status == Claimed(holder) && db.slices[r.value.0].amount == r.value.1
    ensures Guarantees(old(db.Abs()), trace, Foreign(holder), KeepsSlices())
    ensures r.Some? && SlicesSound(old(db.Abs())) && FreshHolder(old(db.Abs()), holder)
            && Keeps(old(db.Abs()), trace, false, Foreign(holder)) ==>
              Due(db.Abs(), ClaimPayout(r.value.0, holder))
    ensures OwnNameOnly(trace, holder)
  {
    hide SlicesSound, FreshHolder, Foreign, KeepsSlices, KeepsSlicesIn, Due, Next, Keeps, Guarantees, AllOthers,
      OwnNameOnly;
    ghost var s0 := db.Abs();
    var found := FindSlice(db, wallet, identity, false);
    if found.None? {
      NothingGuaranteed(s0, holder);
      NoneOrOne([], ClaimSlice(0, holder), holder);
      return None, [];
    }
    var k, amount := found.value, db.slices[found.value].amount;
    ghost var gap := Interference(db);
    SlicesOnlyGrow(s0, gap);
    OthersGuarantee(s0, gap, Foreign(holder), KeepsSlices());
    NoneOrOne(gap, ClaimSlice(k, holder), holder);
    assert SameShare(s0.slices[k], db.slices[k]);
    if db.slices[k].status != Unclaimed {
      return None, gap;
    }
    GapThenStep(s0, gap, ClaimSlice(k, holder), holder);
    TakeStep(db.Abs(), k, holder);
    trace := gap + [Move(true, ClaimSlice(k, holder))];
    if SlicesSound(s0) && FreshHolder(s0, holder) && Keeps(s0, trace, false, Foreign(holder)) {
      TakenIsDue(s0, gap, ClaimPayout(k, holder));
    }
    db.slices := WithStatus(db.slices, k, Claimed(holder));
    r := Some((k, amount));
  }

  /** The goroutine has only taken slices and given them back, in its own name. */
  predicate OwnNameOnly(trace: seq<Move>, holder: nat)
  {
    forall m <- trace :: m.own ==> (m.step.ClaimSlice? || m.step.UnclaimSlice?) && m.step.holder == holder
  }

  lemma NoneOrOne(gap: seq<Move>, step: Step, holder: nat)
    requires AllOthers(gap)
    ensures OwnNameOnly([], holder) && OwnNameOnly(gap, holder)
    ensures (step.ClaimSlice? || step.UnclaimSlice?) && step.holder == holder ==>
              OwnNameOnly(gap + [Move(true, step)], holder)
  {
  }

  /** One conditional update, by identity: it names neither the slice nor who claimed it. */
  method UnclaimJITWalletSlice(db: Store, wallet: AppId, identity: Identity, holder: nat)
    returns (ghost which: Option<nat>)
    modifies db
    ensures which.Some? ==>
              which.value < |old(db.slices)| && IsShareOf(old(db.slices)[which.value], wallet, identity, true)
                            && db.Abs() == Next(old(db.Abs()), UnclaimSlice(which.value, holder))
    ensures which.None? ==> db.Abs() == old(db.Abs())
                            && forall k :: 0 <= k < |db.slices| ==> !IsShareOf(db.slices[k], wallet, identity, true)
  {
    var found := FindSlice(db, wallet, identity, true);
    which := found;
    if found.Some? {
      db.slices := WithStatus(db.slices, found.value, Unclaimed);
    }
  }

  /** Gives a claimed slice back, of which nothing is out: the identity finds the holder's own slice. */
  method GiveBack(db: Store, wallet: AppId, identity: Identity, holder: nat, ghost k: nat)
    returns (ghost trace: seq<Move>)
    requires k < |db.slices| && db.slices[k].wallet == wallet && db.slices[k].identity == identity
    modifies db
    ensures db.Abs() == After(old(db.Abs()), trace)
    ensures k < |db.slices| && OwnNameOnly(trace, holder)
    ensures SlicesSound(old(db.Abs())) && Held(old(db.slices), ClaimPayout(k, holder))
            && Idle(old(db.rows), ClaimPayout(k, holder)) ==>
              Guarantees(old(db.Abs()), trace, Foreign(holder), KeepsSlices())
    ensures SlicesSound(old(db.Abs())) && Held(old(db.slices), ClaimPayout(k, holder))
            && Idle(old(db.rows), ClaimPayout(k, holder)) && Keeps(old(db.Abs()), trace, false, Foreign(holder)) ==>
              SlicesSound(db.Abs()) && db.slices[k].status == Unclaimed && Idle(db.rows, ClaimPayout(k, holder))
  {
    hide SoundRows, SoundSlices, Foreign, KeepsSlices, Idle, EffectOf, KeepsSlicesIn, OwnNameOnly;
    ghost var s0 := db.Abs();
    ghost var gap := Interference(db);
    SlicesOnlyGrow(s0, gap);
    assert SameShare(s0.slices[k], db.slices[k]);
    ghost var s1 := db.Abs();
    ghost var which := UnclaimJITWalletSlice(db, wallet, identity, holder);
    trace := gap;
    OthersGuarantee(s0, gap, Foreign(holder), KeepsSlices());
    NoneOrOne(gap, UnclaimSlice(if which.Some? then which.value else 0, holder), holder);
    if which.Some? {
      GapThenStep(s0, gap, UnclaimSlice(which.value, holder), holder);
      SharesStayAfter(s1.slices, UnclaimSlice(which.value, holder));
      trace := gap + [Move(true, UnclaimSlice(which.value, holder))];
    }
    if SlicesSound(s0) && Held(s0.slices, ClaimPayout(k, holder)) && Idle(s0.rows, ClaimPayout(k, holder))
      && Keeps(s0, gap, false, Foreign(holder))
    {
      GivenBack(s0, gap, s1, k, holder);
      assert IsShareOf(s1.slices[k], wallet, identity, true);
      SameClaimedShare(s1, k, which.value, wallet, identity);
    }
  }

  lemma SameClaimedShare(s: State, k: nat, j: nat, wallet: AppId, identity: Identity)
    requires SlicesSound(s) && k < |s.slices| && j < |s.slices|
    requires IsShareOf(s.slices[k], wallet, identity, true) && IsShareOf(s.slices[j], wallet, identity, true)
    ensures k == j
  {
    assert SameKey(s.slices[k], s.slices[j]);
  }

  lemma GivenBack(s0: State, gap: seq<Move>, s1: State, k: nat, holder: nat)
    requires SlicesSound(s0) && Held(s0.slices, ClaimPayout(k, holder)) && Idle(s0.rows, ClaimPayout(k, holder))
    requires AllOthers(gap) && Keeps(s0, gap, false, Foreign(holder)) && s1 == After(s0, gap)
    ensures SlicesSound(s1) && Held(s1.slices, ClaimPayout(k, holder)) && KeepsSlicesIn(s1, UnclaimSlice(k, holder))
    ensures var s2 := Next(s1, UnclaimSlice(k, holder));
            SlicesSound(s2) && s2.slices[k].status == Unclaimed && Idle(s2.rows, ClaimPayout(k, holder))
  {
    hide Keeps, Foreign, SlicesSound;
    GapLeavesAlone(s0, gap, holder);
    assert HeldBy(s0.slices[k], holder);
    IdleStays(s0, s1, ClaimPayout(k, holder));
    IdleSliceHasNoPayment(s1, ClaimPayout(k, holder));
    StepKeepsSlicesSound(s1, UnclaimSlice(k, holder));
  }

  // ---------- what a claim writes ----------

  /**
   A claim asks the ledger for one kind of payment, of this amount out of this wallet to this invoice, takes and gives
   back slices in its own name, and otherwise writes rows of the invoice only.
   */
  predicate IsClaim(s: State, step: Step, holder: nat, wallet: AppId, hash: nat, amount: nat)
  {
    && Concerns(s, step, Invoice(hash)) && !step.AddSlices? && !step.RemoveSlice? && !InOthersName(step, holder)
    && (step.SendPayment? ==>
        step.req.purpose.ClaimPayout? && step.req.app == Some(wallet) && step.req.amount == amount)
  }

  /** The step is taken in somebody else's name. */
  predicate InOthersName(step: Step, holder: nat)
  {
    NotBy(step, holder) && (step.SendPayment? || step.ClaimSlice? || step.UnclaimSlice?)
  }

  ghost function ClaimsOnly(holder: nat, wallet: AppId, hash: nat, amount: nat): (State, Step) -> bool
  {
    (s: State, step: Step) => IsClaim(s, step, holder, wallet, hash, amount)
  }

  lemma {:induction false} OwnNameClaimsOnly(s: State, trace: seq<Move>, holder: nat, wallet: AppId, hash: nat,
                                             amount: nat)
    requires OwnNameOnly(trace, holder)
    ensures Keeps(s, trace, true, ClaimsOnly(holder, wallet, hash, amount))
  {
    if |trace| > 0 {
      OwnNameClaimsOnly(s, trace[..|trace| - 1], holder, wallet, hash, amount);
      assert trace[|trace| - 1] in trace;
    }
  }

  lemma {:induction false} PayerClaimsOnly(s: State, trace: seq<Move>, id: nat, holder: nat, wallet: AppId, hash: nat,
                                           amount: nat)
    requires id < |s.rows| && s.rows[id].hash == Invoice(hash) && OwnPayerSteps(s, trace, id)
    ensures Keeps(s, trace, true, ClaimsOnly(holder, wallet, hash, amount))
  {
    if |trace| > 0 {
      hide Next;
      var init := trace[..|trace| - 1];
      PayerClaimsOnly(s, init, id, holder, wallet, hash, amount);
      AfterFacts(s, init);
      assert RowEvolves(s.rows[id], After(s, init).rows[id]);
    }
  }

  /** The payment of a claim. */
  lemma CallClaimsOnly(s: State, call: Call, out: Outcome, node: Reply, wallet: AppId)
    requires AllOthers(call.before) && Concluded(After(s, call.before), call, out, After(s, call.Trace()).rows, node)
    requires call.req.purpose.ClaimPayout? && call.req.app == Some(wallet)
    ensures Keeps(s, call.Trace(), true, ClaimsOnly(call.req.purpose.holder, wallet, call.req.hash, call.req.amount))
  {
    hide EffectOf, Next, PayerStep, Admit;
    var rule := ClaimsOnly(call.req.purpose.holder, wallet, call.req.hash, call.req.amount);
    var pay := Move(true, SendPayment(call.req));
    var s1 := After(s, call.before);
    OthersKeepOwnRule(s, call.before, rule);
    KeepsSnoc(s, call.before, pay, true, rule);
    KeepsConcat(s, call.before + [pay], call.after, true, rule);
    if Admit(s1.apps, s1.rows, call.req).Ok? {
      InsertedRow(s1, call.req);
      PayerClaimsOnly(Next(s1, SendPayment(call.req)), call.after, |s1.rows|, call.req.purpose.holder, wallet,
                      call.req.hash, call.req.amount);
    }
  }

  // ---------- claim_funds ----------

  datatype ClaimOutcome =
    | NoSlice
    | BadProof
    | AmountMismatch(slice: nat)
    | PaymentFailed(slice: nat)
    | Payout(slice: nat, row: nat)
    | StillPaying(slice: nat)

  /** Nothing to claim: there was no unclaimed slice of the identity, or there was one that somebody took meanwhile. */
  predicate Unavailable(slices: seq<Slice>, slices': seq<Slice>, wallet: AppId, identity: Identity)
  {
    || (forall k :: 0 <= k < |slices| ==> !IsShareOf(slices[k], wallet, identity, false))
    || (exists k :: 0 <= k < |slices| && k < |slices'| && IsShareOf(slices[k], wallet, identity, false)
                    && slices'[k].status != Unclaimed)
  }

  /** So it was when the goroutine looked, at some moment of the trace. */
  ghost predicate UnavailableAlong(s: State, trace: seq<Move>, wallet: AppId, identity: Identity)
  {
    exists k :: 0 <= k <= |trace|
                && Unavailable(After(s, trace[..k]).slices, After(s, trace).slices, wallet, identity)
  }

  lemma UnavailableFromStart(s: State, trace: seq<Move>, wallet: AppId, identity: Identity)
    requires Unavailable(s.slices, After(s, trace).slices, wallet, identity)
    ensures UnavailableAlong(s, trace, wallet, identity)
  {
    assert trace[..0] == [] && After(s, []) == s;
  }

  lemma UnavailableInLonger(s: State, before: seq<Move>, trace: seq<Move>, wallet: AppId, identity: Identity)
    requires UnavailableAlong(After(s, before), trace, wallet, identity)
    ensures UnavailableAlong(s, before + trace, wallet, identity)
  {
    hide After, Unavailable;
    var s1 := After(s, before);
    var k :| 0 <= k <= |trace|
      && Unavailable(After(s1, trace[..k]).slices, After(s1, trace).slices, wallet, identity);
    AfterConcat(s, before, trace[..k]);
    AfterConcat(s, before, trace);
    assert (before + trace)[..|before| + k] == before + trace[..k];
  }

  lemma NoneLeft(s: State, wallet: AppId, identity: Identity)
    requires forall k :: 0 <= k < |s.slices| ==> !IsShareOf(s.slices[k], wallet, identity, false)
    ensures UnavailableAlong(s, [], wallet, identity)
  {
    UnavailableFromStart(s, [], wallet, identity);
  }

  /** The goroutine has asked the ledger to pay exactly this. */
  predicate Attempted(trace: seq<Move>, purpose: Purpose, wallet: AppId, hash: nat, amount: nat)
  {
    exists m <- trace :: m.own && m.step.SendPayment? && m.step.req.purpose == purpose && m.step.req.app == Some(wallet)
                         && m.step.req.hash == hash && m.step.req.amount == amount
  }

  /** What was done for the answer, whatever the others did. */
  predicate ClaimDeed(s: State, trace: seq<Move>, out: ClaimOutcome, wallet: AppId, identity: Identity, holder: nat,
                      hash: nat, amount: nat)
  {
    match out
    case NoSlice => AllOthers(trace)
    case BadProof => AllOthers(trace)
    case AmountMismatch(k) =>
      k < |s.slices| && s.slices[k].wallet == wallet && s.slices[k].identity == identity && s.slices[k].amount != amount
    case PaymentFailed(k) => Attempted(trace, ClaimPayout(k, holder), wallet, hash, amount)
    case Payout(k, row) => Attempted(trace, ClaimPayout(k, holder), wallet, hash, amount)
    case StillPaying(k) => Attempted(trace, ClaimPayout(k, holder), wallet, hash, amount)
  }

  /** The request of a claim for an invoice of somebody outside. */
  function ClaimRequest(wallet: AppId, k: nat, holder: nat, hash: nat, amount: nat, now: int, budgetStart: int): Request
  {
    Request(Some(wallet), hash, amount, false, false, ClaimPayout(k, holder), now, budgetStart)
  }

  /** The goroutine has asked for this payment, and the check has refused it. */
  ghost predicate RefusedAlong(s: State, trace: seq<Move>, req: Request)
  {
    exists k :: 0 <= k < |trace| && trace[k] == Move(true, SendPayment(req)) && IsRefused(After(s, trace[..k]), req)
  }

  predicate IsRefused(s: State, req: Request)
  {
    Admit(s.apps, s.rows, req).Err?
  }

  /**
   A claim whose invoice is not of this instance fails only if the node did not send it, or if the check refused it;
   and it is never left waiting.
   */
  ghost predicate FailsOnlyIfRefused(s: State, trace: seq<Move>, out: ClaimOutcome, node: Reply,
                                     invoice: PaymentRequest, wallet: AppId, holder: nat, amount: nat, now: int,
                                     budgetStart: int)
  {
    !invoice.payeeIsUs ==>
      && !out.StillPaying?
      && (out.PaymentFailed? && node.Sent? && node.preimage ==>
            RefusedAlong(s, trace, ClaimRequest(wallet, out.slice, holder, invoice.hash, amount, now, budgetStart)))
  }

  lemma RefusedInLonger(s: State, before: seq<Move>, trace: seq<Move>, later: seq<Move>, req: Request)
    requires RefusedAlong(After(s, before), trace, req)
    ensures RefusedAlong(s, before + trace + later, req)
  {
    hide IsRefused, After;
    var k :| 0 <= k < |trace| && trace[k] == Move(true, SendPayment(req))
      && IsRefused(After(After(s, before), trace[..k]), req);
    AfterConcat(s, before, trace[..k]);
    WithinLonger(before, trace, later, k);
  }

  lemma WithinLonger(before: seq<Move>, trace: seq<Move>, later: seq<Move>, k: nat)
    requires k < |trace|
    ensures (before + trace + later)[|before| + k] == trace[k]
    ensures (before + trace + later)[..|before| + k] == before + trace[..k]
  {
  }

  lemma NotLeftWaiting(s: State, wake: Wakeup, out: Outcome, hash: PaymentHash, after: seq<Move>, id: nat)
    requires TransactionsService.Told(s, wake, out, hash, after, id) && wake == NotHold
    ensures !out.StillWaiting?
  {
  }

  lemma CallRefused(s: State, call: Call, out: Outcome, rows: seq<Row>, node: Reply)
    requires Concluded(After(s, call.before), call, out, rows, node)
    requires out.Refused? || out.Errored?
    requires !call.req.selfPayment && node.Sent? && node.preimage
    ensures RefusedAlong(s, call.Trace(), call.req)
  {
    var n := |call.before|;
    assert call.Trace()[n] == Move(true, SendPayment(call.req)) && call.Trace()[..n] == call.before;
  }

  lemma AttemptedInLonger(trace: seq<Move>, before: seq<Move>, later: seq<Move>, purpose: Purpose, wallet: AppId,
                          hash: nat, amount: nat)
    requires Attempted(trace, purpose, wallet, hash, amount)
    ensures Attempted(before + trace + later, purpose, wallet, hash, amount)
  {
    var m :| m in trace && m.own && m.step.SendPayment? && m.step.req.purpose == purpose
      && m.step.req.app == Some(wallet)
             && m.step.req.hash == hash && m.step.req.amount == amount;
    assert m in before + trace + later;
  }

  lemma CallAttempted(call: Call, wallet: AppId)
    requires call.req.app == Some(wallet)
    ensures Attempted(call.Trace(), call.req.purpose, wallet, call.req.hash, call.req.amount)
  {
    assert Move(true, SendPayment(call.req)) in call.Trace();
  }

  /** What the claimant may rely on. */
  predicate ClaimAnswer(s: State, out: ClaimOutcome, wallet: AppId, identity: Identity, holder: nat, hash: PaymentHash,
                        amount: nat)
  {
    match out
    case NoSlice => true
    case BadProof => true
    case AmountMismatch(k) => GaveBack(s, k, holder)
    case PaymentFailed(k) => GaveBack(s, k, holder)
    case Payout(k, row) =>
      TookShare(s, k, wallet, identity, holder, amount) && row < |s.rows| && IsSettled(s.rows[row], Outgoing, hash)
    case StillPaying(k) => TookShare(s, k, wallet, identity, holder, amount)
  }

  predicate GaveBack(s: State, k: nat, holder: nat)
  {
    k < |s.slices| && s.slices[k].status == Unclaimed && Idle(s.rows, ClaimPayout(k, holder))
  }

  predicate TookShare(s: State, k: nat, wallet: AppId, identity: Identity, holder: nat, amount: nat)
  {
    && k < |s.slices| && s.slices[k].wallet == wallet && s.slices[k].identity == identity
    && s.slices[k].status == Claimed(holder) && s.slices[k].amount == amount
  }

  /**
   claim_funds, from the verified proof to the answer: claim the slice, insist on its exact amount, pay it, and give it
   back on any error. While others keep the slices, so does the claimant: a reported failure leaves the slice unclaimed
   with nothing out for it, and a reported payout leaves it claimed for good.
   */
  method ClaimFunds(db: Store, wallet: AppId, identity: Identity, proofOk: bool, invoice: PaymentRequest,
                    amount: Option<nat>, holder: nat, now: int, budgetStart: int, node: Reply, nodeInfoOk: bool)
    returns (out: ClaimOutcome, ghost trace: seq<Move>)
    requires Coherent(db.Abs()) && SlicesSound(db.Abs()) && FreshHolder(db.Abs(), holder)
    modifies db
    ensures db.Abs() == After(old(db.Abs()), trace)
    ensures ClaimDeed(db.Abs(), trace, out, wallet, identity, holder, invoice.hash, PaymentAmount(invoice, amount))
    ensures out == NoSlice ==> UnavailableAlong(old(db.Abs()), trace, wallet, identity)
    ensures out == BadProof ==> !proofOk
    ensures !proofOk ==> AllOthers(trace) && (out == BadProof || out == NoSlice)
    ensures FailsOnlyIfRefused(old(db.Abs()), trace, out, node, invoice, wallet, holder, PaymentAmount(invoice, amount),
                               now, budgetStart)
    ensures Keeps(old(db.Abs()), trace, true, ClaimsOnly(holder, wallet, invoice.hash, PaymentAmount(invoice, amount)))
    ensures (node.Sent? ==> node.preimage) ==> Guarantees(old(db.Abs()), trace, Foreign(holder), KeepsSlices())
    ensures Keeps(old(db.Abs()), trace, false, Foreign(holder)) && (node.Sent? ==> node.preimage) ==>
              && SlicesSound(db.Abs())
              && ClaimAnswer(db.Abs(), out, wallet, identity, holder, Invoice(invoice.hash),
                             PaymentAmount(invoice, amount))
  {
    hide Coherent, SlicesSound, FreshHolder, Foreign, KeepsSlices, Due, Idle, Next, EffectOf, Attempted,
      UnavailableAlong, ClaimsOnly, RefusedAlong;
    ghost var s0 := db.Abs();
    var found := FindSlice(db, wallet, identity, false);
    if found.None? {
      NoneLeft(s0, wallet, identity);
      return NoSlice, [];
    }
    ghost var gap := Interference(db);
    if Keeps(s0, gap, false, Foreign(holder)) {
      FreshStays(s0, gap, holder);
    }
    OthersGuarantee(s0, gap, Foreign(holder), KeepsSlices());
    OthersKeepOwnRule(s0, gap, ClaimsOnly(holder, wallet, invoice.hash, PaymentAmount(invoice, amount)));
    if !proofOk {
      return BadProof, gap;
    }
    ghost var s1 := db.Abs();
    AfterFacts(s0, gap);
    ghost var rest: seq<Move>;
    out, rest := ClaimAndPay(db, wallet, identity, invoice, amount, holder, now, budgetStart, node, nodeInfoOk);
    trace := gap + rest;
    if out == NoSlice {
      UnavailableInLonger(s0, gap, rest, wallet, identity);
    }
    DeedInLonger(db.Abs(), rest, gap, [], out, wallet, identity, holder, invoice.hash, PaymentAmount(invoice, amount));
    assert gap + rest + [] == trace;
    FailsInLonger(s0, gap, rest, out, node, invoice, wallet, holder, PaymentAmount(invoice, amount), now, budgetStart);
    Stretch(s0, gap, rest, holder);
    KeepsConcat(s0, gap, rest, true, ClaimsOnly(holder, wallet, invoice.hash, PaymentAmount(invoice, amount)));
  }

  lemma FailsInLonger(s: State, before: seq<Move>, trace: seq<Move>, out: ClaimOutcome, node: Reply,
                      invoice: PaymentRequest, wallet: AppId, holder: nat, amount: nat, now: int, budgetStart: int)
    requires FailsOnlyIfRefused(After(s, before), trace, out, node, invoice, wallet, holder, amount, now, budgetStart)
    ensures FailsOnlyIfRefused(s, before + trace, out, node, invoice, wallet, holder, amount, now, budgetStart)
  {
    hide RefusedAlong;
    if !invoice.payeeIsUs && out.PaymentFailed? && node.Sent? && node.preimage {
      RefusedInLonger(s, before, trace, [],
                      ClaimRequest(wallet, out.slice, holder, invoice.hash, amount, now, budgetStart));
      assert before + trace + [] == before + trace;
    }
  }

  lemma DeedInLonger(s: State, trace: seq<Move>, before: seq<Move>, later: seq<Move>, out: ClaimOutcome,
                     wallet: AppId, identity: Identity,
                     holder: nat, hash: nat, amount: nat)
    requires ClaimDeed(s, trace, out, wallet, identity, holder, hash, amount)
    requires out == NoSlice || out == BadProof ==> AllOthers(before) && AllOthers(later)
    ensures ClaimDeed(s, before + trace + later, out, wallet, identity, holder, hash, amount)
  {
    match out
    case PaymentFailed(k) => AttemptedInLonger(trace, before, later, ClaimPayout(k, holder), wallet, hash, amount);
    case Payout(k, row) => AttemptedInLonger(trace, before, later, ClaimPayout(k, holder), wallet, hash, amount);
    case StillPaying(k) => AttemptedInLonger(trace, before, later, ClaimPayout(k, holder), wallet, hash, amount);
    case _ =>
  }

  lemma FreshStays(s: State, gap: seq<Move>, holder: nat)
    requires SlicesSound(s) && FreshHolder(s, holder) && AllOthers(gap) && Keeps(s, gap, false, Foreign(holder))
    ensures SlicesSound(After(s, gap)) && FreshHolder(After(s, gap), holder)
  {
    hide Keeps, Foreign, SlicesSound;
    GapLeavesAlone(s, gap, holder);
  }

  method ClaimAndPay(db: Store, wallet: AppId, identity: Identity, invoice: PaymentRequest, amount: Option<nat>,
                     holder: nat, now: int, budgetStart: int, node: Reply, nodeInfoOk: bool)
    returns (out: ClaimOutcome, ghost trace: seq<Move>)
    requires Coherent(db.Abs())
    modifies db
    ensures db.Abs() == After(old(db.Abs()), trace)
    ensures ClaimDeed(db.Abs(), trace, out, wallet, identity, holder, invoice.hash, PaymentAmount(invoice, amount))
            && out != BadProof
    ensures out == NoSlice ==> UnavailableAlong(old(db.Abs()), trace, wallet, identity)
    ensures FailsOnlyIfRefused(old(db.Abs()), trace, out, node, invoice, wallet, holder, PaymentAmount(invoice, amount),
                               now, budgetStart)
    ensures Keeps(old(db.Abs()), trace, true, ClaimsOnly(holder, wallet, invoice.hash, PaymentAmount(invoice, amount)))
    ensures SlicesSound(old(db.Abs())) && FreshHolder(old(db.Abs()), holder) && (node.Sent? ==> node.preimage) ==>
              Guarantees(old(db.Abs()), trace, Foreign(holder), KeepsSlices())
    ensures SlicesSound(old(db.Abs())) && FreshHolder(old(db.Abs()), holder)
            && Keeps(old(db.Abs()), trace, false, Foreign(holder)) && (node.Sent? ==> node.preimage) ==>
              && SlicesSound(db.Abs())
              && ClaimAnswer(db.Abs(), out, wallet, identity, holder, Invoice(invoice.hash),
                             PaymentAmount(invoice, amount))
  {
    hide Coherent, SlicesSound, FreshHolder, Foreign, KeepsSlices, Due, Idle, Next, EffectOf, Attempted,
      UnavailableAlong, ClaimsOnly, OwnNameOnly, RefusedAlong;
    ghost var s0 := db.Abs();
    var claimed;
    claimed, trace := ClaimJITWalletSlice(db, wallet, identity, holder);
    OwnNameClaimsOnly(s0, trace, holder, wallet, invoice.hash, PaymentAmount(invoice, amount));
    if claimed.None? {
      out := NoSlice;
      UnavailableFromStart(s0, trace, wallet, identity);
      if SlicesSound(s0) && FreshHolder(s0, holder) && Keeps(s0, trace, false, Foreign(holder)) {
        FreshStays(s0, trace, holder);
      }
      return;
    }
    AfterFacts(s0, trace);
    ghost var rest: seq<Move>;
    ghost var s1 := db.Abs();
    if PaymentAmount(invoice, amount) != claimed.value.1 {
      rest := GiveBack(db, wallet, identity, holder, claimed.value.0);
      out := AmountMismatch(claimed.value.0);
      OwnNameClaimsOnly(s1, rest, holder, wallet, invoice.hash, PaymentAmount(invoice, amount));
      SlicesOnlyGrow(s1, rest);
      assert SameShare(s1.slices[claimed.value.0], db.slices[claimed.value.0]);
    } else {
      out, rest := PayClaimed(db, wallet, identity, claimed.value.0, invoice, amount, holder, now, budgetStart, node,
                              nodeInfoOk);
    }
    Stretch(s0, trace, rest, holder);
    KeepsConcat(s0, trace, rest, true, ClaimsOnly(holder, wallet, invoice.hash, PaymentAmount(invoice, amount)));
    DueIsIdle(After(s0, trace), ClaimPayout(claimed.value.0, holder));
    DeedInLonger(db.Abs(), rest, trace, [], out, wallet, identity, holder, invoice.hash,
                 PaymentAmount(invoice, amount));
    assert trace + rest + [] == trace + rest;
    FailsInLonger(s0, trace, rest, out, node, invoice, wallet, holder, PaymentAmount(invoice, amount), now,
                  budgetStart);
    trace := trace + rest;
  }

  lemma DueIsIdle(s: State, p: Purpose)
    requires Names(p)
    ensures Due(s, p) ==> SlicesSound(s) && Held(s.slices, p) && Idle(s.rows, p)
  {
  }

  /** Pays the claimed slice, or gives it back. */
  method PayClaimed(db: Store, wallet: AppId, identity: Identity, k: nat, invoice: PaymentRequest, amount: Option<nat>,
                    holder: nat, now: int, budgetStart: int, node: Reply, nodeInfoOk: bool)
    returns (out: ClaimOutcome, ghost trace: seq<Move>)
    requires Coherent(db.Abs()) && TookShare(db.Abs(), k, wallet, identity, holder, PaymentAmount(invoice, amount))
    modifies db
    ensures db.Abs() == After(old(db.Abs()), trace)
    ensures ClaimDeed(db.Abs(), trace, out, wallet, identity, holder, invoice.hash, PaymentAmount(invoice, amount))
    ensures out.PaymentFailed? || out.Payout? || out.StillPaying?
    ensures FailsOnlyIfRefused(old(db.Abs()), trace, out, node, invoice, wallet, holder, PaymentAmount(invoice, amount),
                               now, budgetStart)
    ensures Keeps(old(db.Abs()), trace, true, ClaimsOnly(holder, wallet, invoice.hash, PaymentAmount(invoice, amount)))
    ensures Due(old(db.Abs()), ClaimPayout(k, holder)) && (node.Sent? ==> node.preimage) ==>
              Guarantees(old(db.Abs()), trace, Foreign(holder), KeepsSlices())
    ensures Due(old(db.Abs()), ClaimPayout(k, holder))
            && Keeps(old(db.Abs()), trace, false, Foreign(holder)) && (node.Sent? ==> node.preimage) ==>
              && SlicesSound(db.Abs())
              && ClaimAnswer(db.Abs(), out, wallet, identity, holder, Invoice(invoice.hash),
                             PaymentAmount(invoice, amount))
  {
    hide Coherent, SlicesSound, FreshHolder, Foreign, KeepsSlices, Idle, Next, EffectOf, Admit, FairCall, Attempted,
      TransactionsService.Told, PayerStep, Keeps, Guarantees, OwnPayerSteps,
      ClaimsOnly, OwnNameOnly, RefusedAlong;
    ghost var s0 := db.Abs();
    ghost var p := ClaimPayout(k, holder);
    var paid, wake;
    ghost var call;
    paid, wake, call := SendPaymentSync(db, invoice, amount, ClaimPayout(k, holder), Some(wallet), now, budgetStart,
                                        node, nodeInfoOk);
    trace := call.Trace();
    ghost var s1 := db.Abs();
    SlicesOnlyGrow(s0, trace);
    assert SameShare(s0.slices[k], s1.slices[k]);
    CallAttempted(call, wallet);
    if !invoice.payeeIsUs {
      NotLeftWaiting(s1, wake, paid, Invoice(invoice.hash), call.after, |After(s0, call.before).rows|);
    }
    CallClaimsOnly(s0, call, paid, node, wallet);
    if paid.Refused? || paid.Errored? {
      ghost var back := GiveBack(db, wallet, identity, holder, k);
      out, trace := PaymentFailed(k), trace + back;
      Stretch(s0, call.Trace(), back, holder);
      AttemptedInLonger(call.Trace(), [], back, p, wallet, invoice.hash, PaymentAmount(invoice, amount));
      assert [] + call.Trace() + back == trace;
      if !invoice.payeeIsUs && node.Sent? && node.preimage {
        CallRefused(s0, call, paid, s1.rows, node);
        RefusedInLonger(s0, [], call.Trace(), back, call.req);
      }
      OwnNameClaimsOnly(s1, back, holder, wallet, invoice.hash, PaymentAmount(invoice, amount));
      KeepsConcat(s0, call.Trace(), back, true,
                  ClaimsOnly(holder, wallet, invoice.hash, PaymentAmount(invoice, amount)));
    } else {
      out := if paid.Paid? then Payout(k, paid.row) else StillPaying(k);
    }
    if Due(s0, p) && (node.Sent? ==> node.preimage) {
      CallGuarantees(s0, call, paid, node);
      if Keeps(s0, call.Trace(), false, Foreign(holder)) {
        CallKeepsSlices(s0, call, paid, node);
        PaidRowSettled(s0, call, paid, node);
      }
    }
  }

  lemma PaidRowSettled(s0: State, call: Call, out: Outcome, node: Reply)
    requires Concluded(After(s0, call.before), call, out, After(s0, call.Trace()).rows, node)
    ensures out.Paid? ==>
              out.row < |After(s0, call.Trace()).rows|
                && IsSettled(After(s0, call.Trace()).rows[out.row], Outgoing, Invoice(call.req.hash))
  {
  }

  // ---------- an administrator removes a slice ----------

  datatype Removal = NoSuchClaim | AlreadyClaimed | Taken(amount: nat)

  /** Whether there is such a row. */
  predicate IsListed(slices: seq<Slice>, wallet: AppId, k: nat)
  {
    k < |slices| && slices[k].wallet == wallet && !slices[k].status.Removed?
  }

  /** A slice that is not there is not found, and one that is there is refused only if it is no longer unclaimed. */
  predicate RefusesRemoval(slices: seq<Slice>, slices': seq<Slice>, r: Removal, wallet: AppId, k: nat)
  {
    && (r == NoSuchClaim <==> !IsListed(slices, wallet, k))
    && (r == AlreadyClaimed ==> k < |slices'| && slices'[k].wallet == wallet && slices'[k].status != Unclaimed)
  }

  /** Read, and then delete only if the slice is still unclaimed. */
  method RemoveClaim(db: Store, wallet: AppId, k: nat, holder: nat)
    returns (r: Removal, ghost gap: seq<Move>, ghost trace: seq<Move>)
    modifies db
    ensures db.Abs() == After(old(db.Abs()), trace)
    ensures !r.Taken? ==> AllOthers(trace)
    ensures RefusesRemoval(old(db.slices), db.slices, r, wallet, k)
    ensures r.Taken? ==>
              && AllOthers(gap) && trace == gap + [Move(true, RemoveSlice(k, holder))]
              && k < |old(db.slices)| && r.amount == old(db.slices)[k].amount
    ensures r.Taken? ==>
              k < |db.slices| && db.slices[k].wallet == wallet && db.slices[k].status == Removed(holder)
                && db.slices[k].amount == r.amount
    ensures Guarantees(old(db.Abs()), trace, Foreign(holder), KeepsSlices())
    ensures r.Taken? && SlicesSound(old(db.Abs())) && FreshHolder(old(db.Abs()), holder)
            && Keeps(old(db.Abs()), trace, false, Foreign(holder)) ==>
              Due(db.Abs(), SweepBack(k, holder))
  {
    hide SlicesSound, FreshHolder, Foreign, KeepsSlices, KeepsSlicesIn, Due, Next, Keeps, Guarantees, AllOthers;
    ghost var s0 := db.Abs();
    NothingGuaranteed(s0, holder);
    if k >= |db.slices| || db.slices[k].wallet != wallet || db.slices[k].status.Removed? {
      return NoSuchClaim, [], [];
    }
    if db.slices[k].status.Claimed? {
      return AlreadyClaimed, [], [];
    }
    var amount := db.slices[k].amount;
    gap := Interference(db);
    SlicesOnlyGrow(s0, gap);
    OthersGuarantee(s0, gap, Foreign(holder), KeepsSlices());
    assert SameShare(s0.slices[k], db.slices[k]);
    if db.slices[k].status != Unclaimed {
      return AlreadyClaimed, gap, gap;
    }
    GapThenStep(s0, gap, RemoveSlice(k, holder), holder);
    TakeStep(db.Abs(), k, holder);
    trace := gap + [Move(true, RemoveSlice(k, holder))];
    if SlicesSound(s0) && FreshHolder(s0, holder) && Keeps(s0, trace, false, Foreign(holder)) {
      TakenIsDue(s0, gap, SweepBack(k, holder));
    }
    db.slices := WithStatus(db.slices, k, Removed(holder));
    r := Taken(amount);
  }

  datatype RemovalOutcome =
    | NotAHub
    | NotAChild
    | NotRemoved(why: Removal)
    | RemovedEmpty
    | Unswept
    | Swept(row: nat)
    | StillSweeping

  /** What the administrator may rely on: a sweep that failed leaves the money in the wallet, and the slice gone. */
  predicate RemovalAnswer(s: State, out: RemovalOutcome, wallet: AppId, k: nat, holder: nat, hash: PaymentHash)
  {
    match out
    case NotAHub => true
    case NotAChild => true
    case NotRemoved(why) => !why.Taken?
    case RemovedEmpty => TookBack(s, wallet, k, holder)
    case Unswept => TookBack(s, wallet, k, holder) && Idle(s.rows, SweepBack(k, holder))
    case Swept(row) => TookBack(s, wallet, k, holder) && row < |s.rows| && IsSettled(s.rows[row], Outgoing, hash)
    case StillSweeping => TookBack(s, wallet, k, holder)
  }

  predicate IsJitChild(apps: Apps, wallet: AppId, hub: AppId)
  {
    wallet in apps && apps[wallet].kind == JITWallet && apps[wallet].parent == Some(hub)
      && apps[wallet].parentKind == JITParent
  }

  predicate TookBack(s: State, wallet: AppId, k: nat, holder: nat)
  {
    k < |s.slices| && s.slices[k].wallet == wallet && s.slices[k].status == Removed(holder)
  }

  /** A removal takes out one slice, asks for one kind of payment, the sweep of that slice, and changes no app. */
  predicate RemovesOnly(trace: seq<Move>, k: nat, holder: nat)
  {
    forall m <- trace :: m.own ==>
      match m.step
      case RemoveSlice(slice, remover) => slice == k && remover == holder
      case SendPayment(req) => req.purpose == SweepBack(k, holder)
      case _ => IsLedgerStep(m.step)
  }

  lemma RemovingOnly(gap: seq<Move>, step: Step, rest: seq<Move>, k: nat, holder: nat)
    requires AllOthers(gap) && (step == RemoveSlice(k, holder) || step.MakeInvoice?) && RemovesOnly(rest, k, holder)
    ensures RemovesOnly(gap, k, holder) && RemovesOnly(gap + [Move(true, step)], k, holder)
    ensures RemovesOnly(gap + [Move(true, step)] + rest, k, holder)
  {
  }

  lemma SweepCallRemovesOnly(s: State, call: Call, out: Outcome, node: Reply, k: nat, holder: nat)
    requires AllOthers(call.before) && Concluded(After(s, call.before), call, out, After(s, call.Trace()).rows, node)
    requires call.req.purpose == SweepBack(k, holder)
    ensures RemovesOnly(call.Trace(), k, holder)
  {
    var s1 := After(s, call.before);
    if Admit(s1.apps, s1.rows, call.req).Ok? {
      PayerIsLedgerOnly(Next(s1, SendPayment(call.req)), call.after, |s1.rows|);
      PayerSendsNothing(Next(s1, SendPayment(call.req)), call.after, |s1.rows|);
    }
  }

  lemma {:induction false} PayerSendsNothing(s: State, trace: seq<Move>, id: nat)
    requires OwnPayerSteps(s, trace, id)
    ensures forall m <- trace :: m.own ==> !m.step.SendPayment?
  {
    if |trace| > 0 {
      PayerSendsNothing(s, trace[..|trace| - 1], id);
      assert trace == trace[..|trace| - 1] + [trace[|trace| - 1]];
    }
  }

  function AmountAt(slices: seq<Slice>, k: nat): nat
  {
    if k < |slices| then slices[k].amount else 0
  }

  /** What became of the slice's money: all of it has reached the hub, or none of it has left the wallet. */
  ghost predicate SweepAnswer(rows: seq<Row>, out: RemovalOutcome, wallet: AppId, hub: AppId, hash: PaymentHash,
                              amount: nat)
  {
    match out
    case Swept(_) => Transferred(rows, Some(wallet), Some(hub), hash, amount)
    case StillSweeping => false
    case _ => Untouched(rows, hash)
  }

  /** The same as balances, against the state the call found. */
  ghost predicate SweepBooked(s: State, trace: seq<Move>, rows: seq<Row>, out: RemovalOutcome, wallet: AppId,
                              hub: AppId, amount: nat)
  {
    Moved(s, trace, rows, Some(wallet), Some(hub), if out.Swept? then amount else 0, {})
  }

  lemma SweepMoves(s: State, trace: seq<Move>, out: RemovalOutcome, wallet: AppId, hub: AppId, hash: PaymentHash,
                   amount: nat)
    requires Undisturbed(s, trace, hash) && Keeps(s, trace, true, TouchesOnly(hash))
    requires SweepAnswer(After(s, trace).rows, out, wallet, hub, hash, amount)
    ensures SweepBooked(s, trace, After(s, trace).rows, out, wallet, hub, amount)
  {
    hide Books, Keeps, TouchesOnly, Private, Moved, Transferred, Untouched, IsUnused;
    TransferMoves(s, trace, Some(wallet), Some(hub), hash, amount);
  }

  /** Moves of others, and at most the removal itself at the end. */
  predicate PaysNothing(trace: seq<Move>)
  {
    AllOthers(trace) || (0 < |trace| && AllOthers(trace[..|trace| - 1]) && IsSilent(trace[|trace| - 1].step))
  }

  lemma RemovalPaysNothing(gap: seq<Move>, step: Step)
    requires AllOthers(gap) && IsSilent(step)
    ensures PaysNothing(gap + [Move(true, step)])
  {
    assert (gap + [Move(true, step)])[..|gap|] == gap;
  }

  lemma NothingSwept(s: State, trace: seq<Move>, out: RemovalOutcome, wallet: AppId, hub: AppId, hash: PaymentHash,
                     amount: nat)
    requires PaysNothing(trace) && !out.Swept? && out != StillSweeping
    ensures Keeps(s, trace, true, TouchesOnly(hash))
    ensures Undisturbed(s, trace, hash) ==>
              && Keeps(s, trace, true, KeepsBooks()) && Books(After(s, trace))
              && SweepAnswer(After(s, trace).rows, out, wallet, hub, hash, amount)
              && SweepBooked(s, trace, After(s, trace).rows, out, wallet, hub, amount)
  {
    hide Books, SweepBooked;
    PayingNothing(s, trace, hash);
    if Undisturbed(s, trace, hash) {
      BooksAfter(s, trace);
      SweepMoves(s, trace, out, wallet, hub, hash, amount);
    }
  }

  lemma PayingNothing(s: State, trace: seq<Move>, hash: PaymentHash)
    requires PaysNothing(trace)
    ensures Keeps(s, trace, true, TouchesOnly(hash)) && Keeps(s, trace, true, KeepsBooks())
    ensures Keeps(s, trace, false, Private(hash)) && IsUnused(s.rows, hash) ==> Untouched(After(s, trace).rows, hash)
  {
    if AllOthers(trace) {
      OthersKeepOwnRule(s, trace, TouchesOnly(hash));
      OthersKeepOwnRule(s, trace, KeepsBooks());
      if Keeps(s, trace, false, Private(hash)) {
        PrivateGap(s, trace, hash);
      }
    } else {
      var init := trace[..|trace| - 1];
      OthersKeepOwnRule(s, init, TouchesOnly(hash));
      OthersKeepOwnRule(s, init, KeepsBooks());
      if Keeps(s, trace, false, Private(hash)) {
        PrivateGap(s, init, hash);
      }
      assert EffectOf(After(s, init), trace[|trace| - 1].step) == Same;
    }
  }

  /**
   The removal of one recipient: delete the unclaimed slice, then sweep its amount back to the hub. While others keep
   the slices, so does the administrator: the slice is swept at most once and can no longer be claimed. If others keep
   the books and leave the sweep's invoice alone, exactly the slice has moved from the wallet to the hub, or nothing
   has. `hash` is the sweep invoice the node returns, if it does; the sweep stays inside this instance.
   */
  method DeleteJITWalletClaim(db: Store, hub: AppId, wallet: AppId, k: nat, holder: nat, hash: Option<nat>,
                              preimage: bool, now: int, budgetStart: int, nodeInfoOk: bool)
    returns (out: RemovalOutcome, ghost trace: seq<Move>)
    requires Coherent(db.Abs()) && SlicesSound(db.Abs()) && FreshHolder(db.Abs(), holder)
    modifies db
    ensures db.Abs() == After(old(db.Abs()), trace)
    ensures out == NotAHub <==> !(hub in old(db.apps) && old(db.apps)[hub].kind == JITHub)
    ensures out == NotAChild <==> out != NotAHub && !IsJitChild(old(db.apps), wallet, hub)
    ensures out == StillSweeping ==> hash.Some? && HasHold(db.rows, Invoice(hash.value))
    ensures out.NotRemoved? ==> !out.why.Taken? && RefusesRemoval(old(db.slices), db.slices, out.why, wallet, k)
    ensures out != NotAHub && out != NotAChild && !IsListed(old(db.slices), wallet, k) ==>
              out == NotRemoved(NoSuchClaim)
    ensures out == RemovedEmpty ==> AmountAt(old(db.slices), k) == 0
    ensures out.Swept? || out == Unswept || out == StillSweeping ==> AmountAt(old(db.slices), k) > 0
    ensures hash.None? ==> !out.Swept?
    ensures Guarantees(old(db.Abs()), trace, Foreign(holder), KeepsSlices())
    ensures Keeps(old(db.Abs()), trace, false, Foreign(holder)) ==>
              SlicesSound(db.Abs()) && RemovalAnswer(db.Abs(), out, wallet, k, holder, SweepHash(hash))
    ensures Keeps(old(db.Abs()), trace, true, TouchesOnly(SweepHash(hash))) && RemovesOnly(trace, k, holder)
    ensures Undisturbed(old(db.Abs()), trace, SweepHash(hash)) ==>
              && Keeps(old(db.Abs()), trace, true, KeepsBooks()) && Books(db.Abs())
              && SweepAnswer(db.rows, out, wallet, hub, SweepHash(hash), AmountAt(old(db.slices), k))
              && SweepBooked(old(db.Abs()), trace, db.rows, out, wallet, hub, AmountAt(old(db.slices), k))
              && (hash.Some? && preimage
                  && Affordable(old(db.Abs()), trace, Some(wallet), AmountAt(old(db.slices), k)) ==>
                    out != Unswept)
  {
    hide Coherent, SlicesSound, FreshHolder, Foreign, KeepsSlices, Due, Idle, Next, EffectOf, Attempted,
      UnavailableAlong, Books, Undisturbed, Affordable, SweepAnswer, SweepBooked, TouchesOnly, KeepsBooks, RemovesOnly;
    ghost var s0 := db.Abs();
    assert RemovesOnly([], k, holder) by { NothingRemoved([], k, holder); }
    NothingSwept(s0, [], NotAHub, wallet, hub, SweepHash(hash), AmountAt(db.slices, k));
    NothingSwept(s0, [], NotAChild, wallet, hub, SweepHash(hash), AmountAt(db.slices, k));
    if hub !in db.apps || db.apps[hub].kind != JITHub {
      return NotAHub, [];
    }
    if !IsJitChild(db.apps, wallet, hub) {
      return NotAChild, [];
    }
    var r;
    ghost var gap;
    r, gap, trace := RemoveClaim(db, wallet, k, holder);
    if !r.Taken? {
      NothingRemoved(trace, k, holder);
      out := NotRemoved(r);
      NothingSwept(s0, trace, out, wallet, hub, SweepHash(hash), AmountAt(s0.slices, k));
      if Keeps(s0, trace, false, Foreign(holder)) {
        FreshStays(s0, trace, holder);
      }
      return;
    }
    DueIsIdle(db.Abs(), SweepBack(k, holder));
    RemovalPaysNothing(gap, RemoveSlice(k, holder));
    RemovingOnly(gap, RemoveSlice(k, holder), [], k, holder);
    NothingSwept(s0, trace, RemovedEmpty, wallet, hub, SweepHash(hash), AmountAt(s0.slices, k));
    NothingSwept(s0, trace, Unswept, wallet, hub, SweepHash(hash), AmountAt(s0.slices, k));
    if r.amount == 0 {
      return RemovedEmpty, trace;
    }
    if hash.None? {
      return Unswept, trace;
    }
    AfterFacts(s0, trace);
    ghost var removal, rest := trace, [];
    out, rest := SweepToHub(db, hub, wallet, k, r.amount, holder, hash.value, preimage, now, budgetStart, nodeInfoOk);
    Stretch(s0, removal, rest, holder);
    RemovingOnly(gap, RemoveSlice(k, holder), rest, k, holder);
    trace := removal + rest;
    RemovedThenSwept(s0, gap, rest, out, wallet, hub, SweepHash(hash), r.amount, RemoveSlice(k, holder));
  }

  lemma NothingRemoved(trace: seq<Move>, k: nat, holder: nat)
    requires AllOthers(trace)
    ensures RemovesOnly(trace, k, holder)
  {
  }

  function SweepHash(hash: Option<nat>): PaymentHash
  {
    Invoice(if hash.Some? then hash.value else 0)
  }

  /** What the sweep has done since the removal, it has done since the start of the call. */
  lemma RemovedThenSwept(s: State, gap: seq<Move>, rest: seq<Move>, out: RemovalOutcome, wallet: AppId, hub: AppId,
                         hash: PaymentHash, amount: nat, step: Step)
    requires AllOthers(gap) && IsSilent(step)
    requires var removal := gap + [Move(true, step)];
             var s1 := After(s, removal);
             && Keeps(s1, rest, true, TouchesOnly(hash))
             && (Undisturbed(s1, rest, hash) ==>
                   && Keeps(s1, rest, true, KeepsBooks())
                   && SweepAnswer(After(s1, rest).rows, out, wallet, hub, hash, amount))
    ensures var removal := gap + [Move(true, step)];
            var trace := removal + rest;
            && Keeps(s, trace, true, TouchesOnly(hash))
            && (Undisturbed(s, trace, hash) ==>
                  && Undisturbed(After(s, removal), rest, hash) && Keeps(s, trace, true, KeepsBooks())
                  && SweepBooked(s, trace, After(s, trace).rows, out, wallet, hub, amount))
            && (Undisturbed(s, trace, hash) && Affordable(s, trace, Some(wallet), amount) ==>
                  Affordable(After(s, removal), rest, Some(wallet), amount))
  {
    hide Undisturbed, Affordable, SweepAnswer, SweepBooked, TouchesOnly, KeepsBooks, Next;
    var removal := gap + [Move(true, step)];
    KeepsSnoc(s, gap, Move(true, step), true, TouchesOnly(hash));
    AfterConcat(s, removal, rest);
    SilentTouchesNothing(s, gap, step, rest, hash);
    if Undisturbed(s, removal + rest, hash) {
      AfterSilentStep(s, gap, step, rest, hash);
      SweepMoves(s, removal + rest, out, wallet, hub, hash, amount);
    }
    if Affordable(s, removal + rest, Some(wallet), amount) {
      StillAffordable(s, gap, step, rest, Some(wallet), amount);
    }
  }

  method SweepToHub(db: Store, hub: AppId, wallet: AppId, k: nat, amount: nat, holder: nat, hash: nat,
                    preimage: bool, now: int, budgetStart: int, nodeInfoOk: bool)
    returns (out: RemovalOutcome, ghost trace: seq<Move>)
    requires Coherent(db.Abs()) && TookBack(db.Abs(), wallet, k, holder) && db.slices[k].amount == amount
    modifies db
    ensures db.Abs() == After(old(db.Abs()), trace)
    ensures out.Swept? || out == Unswept || (out == StillSweeping && HasHold(db.rows, Invoice(hash)))
    ensures Due(old(db.Abs()), SweepBack(k, holder)) ==>
              Guarantees(old(db.Abs()), trace, Foreign(holder), KeepsSlices())
    ensures Due(old(db.Abs()), SweepBack(k, holder)) && Keeps(old(db.Abs()), trace, false, Foreign(holder)) ==>
              SlicesSound(db.Abs()) && RemovalAnswer(db.Abs(), out, wallet, k, holder, Invoice(hash))
    ensures Keeps(old(db.Abs()), trace, true, TouchesOnly(Invoice(hash))) && RemovesOnly(trace, k, holder)
    ensures Undisturbed(old(db.Abs()), trace, Invoice(hash)) ==>
              && Keeps(old(db.Abs()), trace, true, KeepsBooks()) && Books(db.Abs())
              && SweepAnswer(db.rows, out, wallet, hub, Invoice(hash), amount)
              && (preimage && Affordable(old(db.Abs()), trace, Some(wallet), amount) ==> out.Swept?)
  {
    hide Coherent, SlicesSound, Foreign, KeepsSlices, Idle, Next, EffectOf, Admit, Concluded, Due, Books, Undisturbed,
      OfferUndisturbed, Affordable, TransferAnswer, SweepAnswer, TouchesOnly, KeepsBooks, HasHold, RemovalAnswer,
      RemovesOnly;
    ghost var s0 := db.Abs();
    var p := SweepBack(k, holder);
    ghost var gap := Interference(db);
    AfterFacts(s0, gap);
    ghost var s1 := db.Abs();
    ghost var make := Step.MakeInvoice(Some(hub), hash, amount, false, preimage, false, now);
    TransactionsService.MakeInvoice(db, Some(hub), hash, amount, preimage, now);
    ghost var mint := gap + [Move(true, make)];
    GapThenStep(s0, gap, make, holder);
    AfterFacts(s0, mint);
    OfferedHasIncoming(s1, Some(hub), hash, amount, preimage, now);
    var paid;
    ghost var call;
    paid, call := PayOffer(db, p, Some(wallet), Some(hub), amount, hash, now, budgetStart, nodeInfoOk, |s1.rows|);
    Stretch(s0, mint, call.Trace(), holder);
    trace := mint + call.Trace();
    SweepCallRemovesOnly(After(s0, mint), call, paid, Rejected, k, holder);
    RemovingOnly(gap, make, call.Trace(), k, holder);
    out := SweptOutcome(paid);
    if Due(s0, p) && Keeps(s0, gap, false, Foreign(holder)) {
      MintedIsDue(s0, gap, make, p);
      SweepIsDue(s0, After(s0, mint), call.req);
      CallGuarantees(After(s0, mint), call, paid, Rejected);
      if Keeps(s0, trace, false, Foreign(holder)) {
        CallKeepsSlices(After(s0, mint), call, paid, Rejected);
        SweepConcluded(s0, trace, mint, call, paid, wallet, p);
      }
    }
    MintedAnswer(s0, gap, Some(hub), hash, amount, preimage, now, call.Trace(), OutcomeOf(paid), Some(wallet));
    if Undisturbed(s0, trace, Invoice(hash)) {
      SweepAnswered(db.rows, paid, wallet, hub, Invoice(hash), amount);
    }
  }

  lemma SweepConcluded(s0: State, trace: seq<Move>, mint: seq<Move>, call: Call, paid: Outcome, wallet: AppId,
                       p: Purpose)
    requires trace == mint + call.Trace() && p.SweepBack? && TookBack(s0, wallet, p.slice, p.holder)
    requires Concluded(After(After(s0, mint), call.before), call, paid, After(After(s0, mint), call.Trace()).rows,
                       Rejected)
    requires var s' := After(s0, trace);
             && s' == After(After(s0, mint), call.Trace()) && Held(s'.slices, p)
             && (paid.Refused? || paid.Errored? ==> Idle(s'.rows, p))
    ensures RemovalAnswer(After(s0, trace), SweptOutcome(paid), wallet, p.slice, p.holder, Invoice(call.req.hash))
  {
    hide Concluded, Idle;
    PaidRowSettled(After(s0, mint), call, paid, Rejected);
    SlicesOnlyGrow(s0, trace);
    assert SameShare(s0.slices[p.slice], After(s0, trace).slices[p.slice]);
  }


  function SweptOutcome(paid: Outcome): RemovalOutcome
  {
    match paid
    case Paid(row) => Swept(row)
    case StillWaiting => StillSweeping
    case _ => Unswept
  }

  /** A paid or failed offer, said of the sweep. */
  lemma SweepAnswered(rows: seq<Row>, paid: Outcome, wallet: AppId, hub: AppId, hash: PaymentHash, amount: nat)
    requires TransferAnswer(rows, OutcomeOf(paid), Some(wallet), Some(hub), hash, amount)
    ensures SweepAnswer(rows, SweptOutcome(paid), wallet, hub, hash, amount)
  {
  }

  /** Making the sweep invoice changes nothing about the slice. */
  lemma MintedIsDue(s: State, gap: seq<Move>, make: Step, p: Purpose)
    requires Names(p) && Due(s, p) && make.MakeInvoice? && AllOthers(gap) && Keeps(s, gap, false, Foreign(p.holder))
    ensures KeepsSlicesIn(After(s, gap), make) && Due(Next(After(s, gap), make), p)
    ensures SharesStay(s.slices, Next(After(s, gap), make).slices)
  {
    hide Keeps, Foreign, SlicesSound;
    GapLeavesAlone(s, gap, p.holder);
    var s1 := After(s, gap);
    assert HeldBy(s.slices[p.slice], p.holder);
    StepKeepsSlicesSound(s1, make);
    assert Used(Next(s1, make).rows, p) ==> Used(s1.rows, p) by {
      if Used(Next(s1, make).rows, p) {
        StepLeavesPayments(s1, make, p);
      }
    }
  }

  lemma SweepIsDue(s0: State, s: State, req: Request)
    requires Names(req.purpose) && Due(s, req.purpose) && SharesStay(s0.slices, s.slices)
    requires req.purpose.slice < |s0.slices| && req.app == Some(s0.slices[req.purpose.slice].wallet)
             && req.amount == s0.slices[req.purpose.slice].amount
    ensures SlicesSound(s) && PaysItsSlice(s, req)
  {
    assert SameShare(s0.slices[req.purpose.slice], s.slices[req.purpose.slice]);
  }
}
