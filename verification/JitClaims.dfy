/**
 The slices of shared JIT wallets. Claiming, giving back and removing a slice are a read and a separate conditional
 write; paying it out is a ledger payment. Whatever the interleaving, a slice leaves its wallet at most once, and the
 wallet's balance is exactly what its slices still ask for.
 */
module JitClaims {
  import opened Wrappers
  import opened Sums
  import opened Fees
  import opened Ledger
  import opened Admission
  import opened Protocol
  import opened Settlement

  predicate Names(p: Purpose)
  {
    p.ClaimPayout? || p.SweepBack?
  }

  predicate IsFor(r: Row, k: nat)
  {
    r.direction == Outgoing && Names(r.purpose) && r.purpose.slice == k
  }

  predicate Pays(r: Row, k: nat)
  {
    Live(r) && IsFor(r, k)
  }

  /** The slice's money is leaving or has left its wallet. */
  predicate HasPayment(rows: seq<Row>, k: nat)
  {
    exists i :: 0 <= i < |rows| && Pays(rows[i], k)
  }

  /** The slice is still held by the goroutine, and for the purpose, that the payment was made for. */
  predicate Held(slices: seq<Slice>, p: Purpose)
    requires Names(p)
  {
    p.slice < |slices| && slices[p.slice].status == (if p.ClaimPayout? then Claimed(p.holder) else Removed(p.holder))
  }

  predicate Used(rows: seq<Row>, p: Purpose)
  {
    exists i :: 0 <= i < |rows| && rows[i].direction == Outgoing && rows[i].purpose == p
  }

  predicate IsJitWallet(apps: Apps, app: Option<AppId>)
  {
    app.Some? && app.value in apps && apps[app.value].kind == JITWallet
  }

  /** The first payment of a slice's holder, of exactly the slice, out of the slice's wallet. */
  predicate PaysItsSlice(s: State, req: Request)
  {
    && Names(req.purpose) && Held(s.slices, req.purpose) && !Used(s.rows, req.purpose)
    && req.app == Some(s.slices[req.purpose.slice].wallet) && req.amount == s.slices[req.purpose.slice].amount
  }

  /**
   What claim_funds and the removal of a slice keep: only the holder of a slice pays it, once and exactly; a slice is
   given back by its holder while no payment of it is out; and a FAILED payment settles late only while its slice is
   still held. Other payments of the wallet, such as a reclaim of its whole balance, are free.
   */
  predicate KeepsSlicesIn(s: State, step: Step)
  {
    match step
    case SendPayment(req) => Names(req.purpose) ==> PaysItsSlice(s, req)
    case MarkSettled(id, _, _) =>
      EffectOf(s, step) != Same && RevivesPayment(s.rows[id]) ==> Held(s.slices, s.rows[id].purpose)
    case AddSlices(wallet, _) => IsJitWallet(s.apps, Some(wallet))
    case UnclaimSlice(k, holder) =>
      k < |s.slices| && s.slices[k].status.Claimed? ==> s.slices[k].status == Claimed(holder) && !HasPayment(s.rows, k)
    case _ => true
  }

  /** What anybody does who neither takes nor pays slices; the creation of a JIT wallet adds that wallet's own. */
  predicate IsBystander(s: State, step: Step)
  {
    if step.AddSlices? then IsJitWallet(s.apps, Some(step.wallet)) else !TouchesSlices(step)
  }

  ghost function Bystander(): (State, Step) -> bool
  {
    (s: State, step: Step) => IsBystander(s, step)
  }

  predicate RevivesPayment(r: Row)
  {
    r.direction == Outgoing && !Live(r) && Names(r.purpose)
  }

  ghost function KeepsSlices(): (State, Step) -> bool
  {
    (s: State, step: Step) => KeepsSlicesIn(s, step)
  }

  // ---------- the invariant ----------

  predicate SliceRow(apps: Apps, slices: seq<Slice>, r: Row)
  {
    r.direction == Outgoing ==>
      && (r.app.Some? ==> r.app.value in apps)
      && (Names(r.purpose) ==> PaidFromSlice(slices, r) && (Live(r) ==> Held(slices, r.purpose)))
  }

  predicate PaidFromSlice(slices: seq<Slice>, r: Row)
    requires Names(r.purpose)
  {
    && r.purpose.slice < |slices|
    && r.app == Some(slices[r.purpose.slice].wallet) && r.amount == slices[r.purpose.slice].amount && r.skim == 0
  }

  predicate SamePayment(a: Row, b: Row)
  {
    a.direction == Outgoing && b.direction == Outgoing && Names(a.purpose) && a.purpose == b.purpose
  }

  ghost predicate OnePaymentPerHolder(rows: seq<Row>)
  {
    forall i, j | 0 <= i < |rows| && 0 <= j < |rows| && SamePayment(rows[i], rows[j]) :: i == j
  }

  ghost predicate SoundRows(apps: Apps, slices: seq<Slice>, rows: seq<Row>)
  {
    OnePaymentPerHolder(rows) && forall i :: 0 <= i < |rows| ==> SliceRow(apps, slices, rows[i])
  }

  ghost predicate SoundSlices(apps: Apps, slices: seq<Slice>)
  {
    UniqueKeys(slices) && forall k :: 0 <= k < |slices| ==>
      slices[k].id == k && IsJitWallet(apps, Some(slices[k].wallet))
  }

  ghost predicate SlicesSound(s: State)
  {
    SoundRows(s.apps, s.slices, s.rows) && SoundSlices(s.apps, s.slices)
  }

  // ---------- preservation ----------

  lemma AdmittedSliceRow(s: State, req: Request)
    requires SoundSlices(s.apps, s.slices) && KeepsSlicesIn(s, SendPayment(req)) && Admit(s.apps, s.rows, req).Ok?
    ensures SliceRow(s.apps, s.slices, Admit(s.apps, s.rows, req).value)
    ensures Names(req.purpose) ==> !Used(s.rows, req.purpose)
  {
  }

  /** What the rule leaves of the effects a step may have on payments of slices. */
  predicate SlicesAllowed(apps: Apps, slices: seq<Slice>, rows: seq<Row>, e: Effect)
    requires Fits(rows, e)
  {
    match e
    case Same => true
    case Insert(row) =>
      SliceRow(apps, slices, row) && (row.direction == Outgoing && Names(row.purpose) ==> !Used(rows, row.purpose))
    case Update(id, after) => KeepsHold(slices, rows[id], after)
    case UpdateAndInsert(id, after, extra) => KeepsHold(slices, rows[id], after) && extra.direction == Incoming
  }

  predicate KeepsHold(slices: seq<Slice>, r: Row, after: Row)
  {
    SameIdentity(r, after) && (RevivesPayment(r) && Live(after) ==> Held(slices, r.purpose))
  }

  lemma StepSlicesAllowed(s: State, step: Step)
    requires SlicesSound(s) && KeepsSlicesIn(s, step)
    ensures Fits(s.rows, EffectOf(s, step)) && SlicesAllowed(s.apps, s.slices, s.rows, EffectOf(s, step))
  {
    hide Admit;
    EffectFits(s, step);
    match step
    case SendPayment(req) =>
      if Admit(s.apps, s.rows, req).Ok? {
        AdmittedSliceRow(s, req);
        AdmittedRow(s.apps, s.rows, req);
      }
    case _ =>
  }

  lemma RowsStaySound(apps: Apps, slices: seq<Slice>, rows: seq<Row>, e: Effect)
    requires Fits(rows, e) && SoundRows(apps, slices, rows) && SlicesAllowed(apps, slices, rows, e)
             && Allowed(apps, rows, e)
    ensures SoundRows(apps, slices, Apply(rows, e))
  {
    var rows' := Apply(rows, e);
    forall i | 0 <= i < |rows'| ensures SliceRow(apps, slices, rows'[i]) {
      if i < |rows| {
        assert SliceRow(apps, slices, rows[i]);
      }
    }
    forall i, j | 0 <= i < |rows'| && 0 <= j < |rows'| && SamePayment(rows'[i], rows'[j]) ensures i == j {
      if i < |rows| && j < |rows| {
        assert SamePayment(rows[i], rows[j]);
      }
    }
  }

  lemma KeysStayUnique(slices: seq<Slice>, step: Step)
    requires UniqueKeys(slices)
    ensures UniqueKeys(SlicesAfter(slices, step))
  {
    var slices' := SlicesAfter(slices, step);
    if !step.AddSlices? {
      forall i, j | 0 <= i < |slices'| && 0 <= j < |slices'| && SameKey(slices'[i], slices'[j]) ensures i == j {
        assert SameKey(slices[i], slices[j]);
      }
    }
  }

  /** A write on the claims table never takes a slice away from a payment that is out. */
  lemma SlicesStaySound(s: State, step: Step)
    requires SlicesSound(s) && KeepsSlicesIn(s, step)
    ensures SoundSlices(s.apps, SlicesAfter(s.slices, step))
    ensures SoundRows(s.apps, SlicesAfter(s.slices, step), s.rows)
  {
    var slices' := SlicesAfter(s.slices, step);
    KeysStayUnique(s.slices, step);
    forall i | 0 <= i < |s.rows| ensures SliceRow(s.apps, slices', s.rows[i]) {
      assert SliceRow(s.apps, s.slices, s.rows[i]);
      assert s.rows[i].direction == Outgoing && Live(s.rows[i]) && Names(s.rows[i].purpose) ==>
        Pays(s.rows[i], s.rows[i].purpose.slice);
    }
  }

  lemma SoundInGrownApps(apps: Apps, apps': Apps, slices: seq<Slice>, rows: seq<Row>)
    requires Extends(apps, apps') && SoundRows(apps, slices, rows) && SoundSlices(apps, slices)
    ensures SoundRows(apps', slices, rows) && SoundSlices(apps', slices)
  {
    forall i | 0 <= i < |rows| ensures SliceRow(apps', slices, rows[i]) {
      assert SliceRow(apps, slices, rows[i]);
    }
  }

  /** No step changes both the rows and the claims table. */
  lemma OneTableAtATime(s: State, step: Step)
    ensures EffectOf(s, step) == Same || SlicesAfter(s.slices, step) == s.slices
  {
  }

  lemma StepKeepsSlicesSound(s: State, step: Step)
    requires SlicesSound(s) && KeepsSlicesIn(s, step)
    ensures SlicesSound(Next(s, step))
  {
    hide EffectOf, SlicesAfter, Allowed, SlicesAllowed, KeepsSlicesIn, SoundRows, SoundSlices;
    var e := EffectOf(s, step);
    StepAllowed(s, step);
    StepSlicesAllowed(s, step);
    SlicesStaySound(s, step);
    OneTableAtATime(s, step);
    RowsStaySound(s.apps, s.slices, s.rows, e);
    SoundInGrownApps(s.apps, Next(s, step).apps, Next(s, step).slices, Next(s, step).rows);
  }

  lemma {:induction false} RunKeepsSlicesSound(s: State, steps: seq<Step>)
    requires SlicesSound(s) && Along(s, steps, KeepsSlices())
    ensures SlicesSound(Run(s, steps))
  {
    if |steps| > 0 {
      RunKeepsSlicesSound(s, steps[..|steps| - 1]);
      StepKeepsSlicesSound(Run(s, steps[..|steps| - 1]), steps[|steps| - 1]);
    }
  }

  // ---------- a slice leaves its wallet at most once ----------

  lemma OnePaymentPerSlice(s: State, i: nat, j: nat, k: nat)
    requires SlicesSound(s) && i < |s.rows| && j < |s.rows| && Pays(s.rows[i], k) && Pays(s.rows[j], k)
    ensures i == j
  {
    assert SliceRow(s.apps, s.slices, s.rows[i]) && SliceRow(s.apps, s.slices, s.rows[j]);
    assert SamePayment(s.rows[i], s.rows[j]);
  }

  /**
   Slice safety in every interleaving of claimers, unclaimers and removers: at most one payment of a slice is out or
   settled, be it a payout or a sweep; it is of the slice's amount from the slice's wallet; and the slice cannot be
   claimed again, nor removed after a payout, nor claimed after a sweep.
   */
  lemma SliceSafety(steps: seq<Step>, i: nat)
    requires Along(Empty, steps, KeepsSlices())
    requires i < |Run(Empty, steps).rows| && Live(Run(Empty, steps).rows[i]) && Names(Run(Empty, steps).rows[i].purpose)
    ensures var s := Run(Empty, steps);
            var r := s.rows[i];
            && r.purpose.slice < |s.slices|
            && r.app == Some(s.slices[r.purpose.slice].wallet) && r.amount == s.slices[r.purpose.slice].amount
            && (if r.purpose.ClaimPayout? then s.slices[r.purpose.slice].status.Claimed?
                else s.slices[r.purpose.slice].status.Removed?)
            && forall j :: 0 <= j < |s.rows| && Pays(s.rows[j], r.purpose.slice) ==> i == j
  {
    var s := Run(Empty, steps);
    RunKeepsSlicesSound(Empty, steps);
    assert SliceRow(s.apps, s.slices, s.rows[i]);
    forall j | 0 <= j < |s.rows| && Pays(s.rows[j], s.rows[i].purpose.slice) ensures i == j {
      OnePaymentPerSlice(s, i, j, s.rows[i].purpose.slice);
    }
  }

  // ---------- late settlements ----------

  /** No payment with this purpose is out or settled. */
  predicate Idle(rows: seq<Row>, p: Purpose)
  {
    forall i :: 0 <= i < |rows| && rows[i].direction == Outgoing && rows[i].purpose == p ==> !Live(rows[i])
  }

  /** A slice whose holder has nothing out for it may be given back. */
  lemma IdleSliceHasNoPayment(s: State, p: Purpose)
    requires SlicesSound(s) && Names(p) && Held(s.slices, p) && Idle(s.rows, p)
    ensures !HasPayment(s.rows, p.slice)
  {
    forall i | 0 <= i < |s.rows| ensures !Pays(s.rows[i], p.slice) {
      assert SliceRow(s.apps, s.slices, s.rows[i]);
    }
  }

  predicate PaidTwice(rows: seq<Row>, k: nat)
  {
    exists i, j :: 0 <= i < j < |rows| && Pays(rows[i], k) && Pays(rows[j], k)
  }

  /**
   A claim or a removal, as it goes by what it knows: its own slice, and its own payment of it. No event settles late.
   */
  predicate InGoodFaithIn(s: State, step: Step)
  {
    match step
    case SendPayment(req) => Names(req.purpose) ==> PaysItsSlice(s, req)
    case MarkSettled(id, _, _) => EffectOf(s, step) != Same ==> !RevivesPayment(s.rows[id])
    case AddSlices(wallet, _) => IsJitWallet(s.apps, Some(wallet))
    case UnclaimSlice(k, holder) =>
      k < |s.slices| && s.slices[k].status.Claimed? ==>
        s.slices[k].status == Claimed(holder) && Idle(s.rows, ClaimPayout(k, holder))
    case _ => true
  }

  ghost function InGoodFaith(): (State, Step) -> bool
  {
    (s: State, step: Step) => InGoodFaithIn(s, step)
  }

  /** Two payments of the slice are out or settled, or one is and whoever holds the slice is about to make the other. */
  ghost predicate PaidAgain(s: State, k: nat)
  {
    || PaidTwice(s.rows, k)
    || (HasPayment(s.rows, k) && exists req :: PaysItsSlice(s, req) && req.purpose.slice == k)
  }

  /** What a claimant can see: by good faith alone, the slice comes to be paid once more. */
  ghost predicate DoublyPayable(s: State, k: nat)
  {
    exists steps :: Along(s, steps, InGoodFaith()) && PaidAgain(Run(s, steps), k)
  }

  lemma GoodFaithKeepsSlices(s: State, step: Step)
    requires SlicesSound(s) && InGoodFaithIn(s, step)
    ensures KeepsSlicesIn(s, step)
  {
    hide EffectOf;
    match step
    case UnclaimSlice(k, holder) =>
      if k < |s.slices| && s.slices[k].status.Claimed? {
        IdleSliceHasNoPayment(s, ClaimPayout(k, holder));
      }
    case _ =>
  }

  lemma {:induction false} GoodFaithKeepsSound(s: State, steps: seq<Step>)
    requires SlicesSound(s) && Along(s, steps, InGoodFaith())
    ensures SlicesSound(Run(s, steps))
  {
    if |steps| > 0 {
      hide SlicesSound, KeepsSlicesIn, InGoodFaithIn;
      var init, last := steps[..|steps| - 1], steps[|steps| - 1];
      GoodFaithKeepsSound(s, init);
      GoodFaithKeepsSlices(Run(s, init), last);
      StepKeepsSlicesSound(Run(s, init), last);
    }
  }

  lemma SoundIsNotDoublyPayable(s: State, k: nat)
    requires SlicesSound(s)
    ensures !DoublyPayable(s, k)
  {
    if DoublyPayable(s, k) {
      var steps :| Along(s, steps, InGoodFaith()) && PaidAgain(Run(s, steps), k);
      GoodFaithKeepsSound(s, steps);
      SoundIsNotPaidAgain(Run(s, steps), k);
    }
  }

  lemma SoundIsNotPaidAgain(s: State, k: nat)
    requires SlicesSound(s)
    ensures !PaidAgain(s, k)
  {
    forall i, j | 0 <= i < j < |s.rows| && Pays(s.rows[i], k) ensures !Pays(s.rows[j], k) {
      if Pays(s.rows[j], k) {
        OnePaymentPerSlice(s, i, j, k);
      }
    }
    forall req, i | PaysItsSlice(s, req) && req.purpose.slice == k && 0 <= i < |s.rows| ensures !Pays(s.rows[i], k) {
      assert SliceRow(s.apps, s.slices, s.rows[i]);
    }
  }

  /** Some goroutine has not paid the slice yet. */
  function HolderAbove(rows: seq<Row>): (h: nat)
    ensures forall i :: 0 <= i < |rows| && Names(rows[i].purpose) ==> rows[i].purpose.holder < h
  {
    if |rows| == 0 then 0
    else
      var h, last := HolderAbove(rows[..|rows| - 1]), rows[|rows| - 1];
      if Names(last.purpose) && last.purpose.holder >= h then last.purpose.holder + 1 else h
  }

  function PayoutOf(c: Slice, holder: nat): Request
  {
    Request(Some(c.wallet), 0, c.amount, false, false, ClaimPayout(c.id, holder), 0, 0)
  }

  /** An unclaimed slice with a payment out: the next claim pays it again. */
  lemma UnclaimedIsDoublyPayable(s: State, k: nat)
    requires k < |s.slices| && s.slices[k].id == k && s.slices[k].status == Unclaimed && HasPayment(s.rows, k)
    ensures DoublyPayable(s, k)
  {
    var h := HolderAbove(s.rows);
    var claim := ClaimSlice(k, h);
    var s' := Next(s, claim);
    OneStepRun(s, claim, InGoodFaith());
    assert s'.rows == s.rows && s'.slices == WithStatus(s.slices, k, Claimed(h));
    assert PaysItsSlice(s', PayoutOf(s.slices[k], h));
    assert InGoodFaithIn(s, claim) && PaidAgain(Run(s, [claim]), k);
  }

  /** A claimed slice with a payment of somebody else out: its holder pays it, or gives it back to the next claim. */
  lemma ClaimedIsDoublyPayable(s: State, k: nat, i: nat)
    requires k < |s.slices| && s.slices[k].id == k && s.slices[k].status.Claimed?
    requires i < |s.rows| && Pays(s.rows[i], k) && s.rows[i].purpose != ClaimPayout(k, s.slices[k].status.holder)
    ensures DoublyPayable(s, k)
  {
    var h := s.slices[k].status.holder;
    var p := ClaimPayout(k, h);
    assert s == Run(s, []) && Along(s, [], InGoodFaith());
    if !Used(s.rows, p) {
      assert PaysItsSlice(s, PayoutOf(s.slices[k], h));
    } else if !Idle(s.rows, p) {
      var j :| 0 <= j < |s.rows| && s.rows[j].direction == Outgoing && s.rows[j].purpose == p && Live(s.rows[j]);
      assert Pays(s.rows[j], k) && PaidTwice(s.rows, k);
    } else {
      var back := UnclaimSlice(k, h);
      assert InGoodFaithIn(s, back) && Next(s, back).rows == s.rows;
      UnclaimedIsDoublyPayable(Next(s, back), k);
      DoublyPayableBefore(s, back, k);
    }
  }

  lemma DoublyPayableBefore(s: State, step: Step, k: nat)
    requires InGoodFaithIn(s, step) && DoublyPayable(Next(s, step), k)
    ensures DoublyPayable(s, k)
  {
    hide Next, PaidAgain, InGoodFaithIn, Along, Run;
    var rest :| Along(Next(s, step), rest, InGoodFaith()) && PaidAgain(Run(Next(s, step), rest), k);
    OneStepRun(s, step, InGoodFaith());
    AlongConcat(s, [step], rest, InGoodFaith());
    RunConcat(s, [step], rest);
  }

  /** A removed slice whose one sweep has been tried, and has failed, is never paid again. */
  predicate SweptInVain(s: State, k: nat)
  {
    && k < |s.slices| && s.slices[k].status.Removed?
    && Used(s.rows, SweepBack(k, s.slices[k].status.holder)) && Idle(s.rows, SweepBack(k, s.slices[k].status.holder))
  }

  /** The slice is removed, its one sweep is used up, and only the row `id` pays it. */
  ghost predicate Closed(s: State, k: nat, h: nat, id: nat)
  {
    && k < |s.slices| && s.slices[k].status == Removed(h) && Used(s.rows, SweepBack(k, h))
    && forall j :: 0 <= j < |s.rows| && Pays(s.rows[j], k) ==> j == id
  }

  lemma NoNewPayment(s: State, step: Step, k: nat, h: nat, id: nat, j: nat)
    requires Closed(s, k, h, id) && InGoodFaithIn(s, step) && j < |Next(s, step).rows| && Pays(Next(s, step).rows[j], k)
    ensures j == id
  {
    hide Admit;
    StepEvolves(s, step);
    if j < |s.rows| {
      assert RowEvolves(s.rows[j], Next(s, step).rows[j]);
      assert !Pays(s.rows[j], k) ==> RevivesPayment(s.rows[j]);
    } else if step.SendPayment? {
      SentRow(s, step.req);
    }
  }

  lemma ClosedStays(s: State, step: Step, k: nat, h: nat, id: nat)
    requires Closed(s, k, h, id) && InGoodFaithIn(s, step)
    ensures Closed(Next(s, step), k, h, id)
  {
    hide EffectOf, Pays, InGoodFaithIn;
    var s' := Next(s, step);
    StepEvolves(s, step);
    var u :| 0 <= u < |s.rows| && s.rows[u].direction == Outgoing && s.rows[u].purpose == SweepBack(k, h);
    assert RowEvolves(s.rows[u], s'.rows[u]);
    forall j | 0 <= j < |s'.rows| && Pays(s'.rows[j], k) ensures j == id {
      NoNewPayment(s, step, k, h, id, j);
    }
  }

  lemma {:induction false} ClosedStaysAlong(s: State, steps: seq<Step>, k: nat, h: nat, id: nat)
    requires Closed(s, k, h, id) && Along(s, steps, InGoodFaith())
    ensures Closed(Run(s, steps), k, h, id)
  {
    if |steps| > 0 {
      hide Closed, InGoodFaithIn;
      ClosedStaysAlong(s, steps[..|steps| - 1], k, h, id);
      ClosedStays(Run(s, steps[..|steps| - 1]), steps[|steps| - 1], k, h, id);
    }
  }

  lemma ClosedIsNotPaidAgain(s: State, k: nat, h: nat, id: nat)
    requires Closed(s, k, h, id)
    ensures !PaidAgain(s, k)
  {
    forall req: Request | req.purpose.ClaimPayout? || req.purpose.SweepBack?
      ensures !(PaysItsSlice(s, req) && req.purpose.slice == k)
    {
      if Held(s.slices, req.purpose) && req.purpose.slice == k {
        assert req.purpose == SweepBack(k, h);
      }
    }
  }

  lemma LateAndNotHeld(s: State, id: nat, fee: nat, selfPayment: bool)
    requires SlicesSound(s) && id < |s.rows| && RevivesPayment(s.rows[id]) && !Held(s.slices, s.rows[id].purpose)
    requires EffectOf(s, MarkSettled(id, fee, selfPayment)) != Same
    ensures var k := s.rows[id].purpose.slice;
            DoublyPayable(Next(s, MarkSettled(id, fee, selfPayment)), k) <==> !SweptInVain(s, k)
  {
    hide EffectOf;
    var late, k := Next(s, MarkSettled(id, fee, selfPayment)), s.rows[id].purpose.slice;
    LateSettlementRow(s, id, fee, selfPayment);
    hide Next;
    assert SliceRow(s.apps, s.slices, s.rows[id]) && Pays(late.rows[id], k);
    match s.slices[k].status
    case Unclaimed => UnclaimedIsDoublyPayable(late, k);
    case Claimed(h) => ClaimedIsDoublyPayable(late, k, id);
    case Removed(h) => LateAfterRemoval(s, late, k, h, id);
  }

  /** Besides this row, payments are as they were; at most a receipt is new. */
  predicate OnlyRowChanged(rows: seq<Row>, rows': seq<Row>, id: nat)
  {
    && |rows| <= |rows'|
    && (forall i :: 0 <= i < |rows| && i != id ==> rows'[i] == rows[i])
    && (forall i :: |rows| <= i < |rows'| ==> rows'[i].direction == Incoming)
  }

  lemma RemovedAndIdle(s: State, k: nat, h: nat)
    requires SlicesSound(s) && k < |s.slices| && s.slices[k].status == Removed(h) && Idle(s.rows, SweepBack(k, h))
    ensures !HasPayment(s.rows, k)
  {
    forall j | 0 <= j < |s.rows| ensures !Pays(s.rows[j], k) {
      assert SliceRow(s.apps, s.slices, s.rows[j]);
    }
  }

  lemma LateAfterRemoval(s: State, late: State, k: nat, h: nat, id: nat)
    requires SlicesSound(s) && k < |s.slices| && s.slices[k].status == Removed(h) && late.slices == s.slices
    requires id < |s.rows| && !Live(s.rows[id]) && id < |late.rows| && Pays(late.rows[id], k)
             && late.rows[id].purpose != SweepBack(k, h)
    requires OnlyRowChanged(s.rows, late.rows, id)
    requires Used(late.rows, SweepBack(k, h)) == Used(s.rows, SweepBack(k, h))
    ensures DoublyPayable(late, k) <==> !SweptInVain(s, k)
  {
    var q := SweepBack(k, h);
    assert late == Run(late, []) && Along(late, [], InGoodFaith());
    if !Used(s.rows, q) {
      assert PaysItsSlice(late, Request(Some(s.slices[k].wallet), 0, s.slices[k].amount, true, false, q, 0, 0));
    } else if !Idle(s.rows, q) {
      var j :| 0 <= j < |s.rows| && s.rows[j].direction == Outgoing && s.rows[j].purpose == q && Live(s.rows[j]);
      assert j != id && late.rows[j] == s.rows[j] && Pays(late.rows[j], k);
      assert PaidTwice(late.rows, k) by {
        if j < id { assert Pays(late.rows[j], k) && Pays(late.rows[id], k); }
      }
    } else {
      RemovedAndIdle(s, k, h);
      assert Closed(late, k, h, id);
      if DoublyPayable(late, k) {
        var steps :| Along(late, steps, InGoodFaith()) && PaidAgain(Run(late, steps), k);
        ClosedStaysAlong(late, steps, k, h, id);
        ClosedIsNotPaidAgain(Run(late, steps), k, h, id);
      }
    }
  }

  /**
   A FAILED payment of a slice that settles late keeps the link between slices and payments exactly as long as its slice
   is still held for it. If it is not, the slice comes to be paid twice, unless it has been removed and its sweep has
   failed; and only then.
   */
  lemma LateSettlementIsSafeIff(s: State, id: nat, fee: nat, selfPayment: bool)
    requires SlicesSound(s) && id < |s.rows| && RevivesPayment(s.rows[id])
    requires EffectOf(s, MarkSettled(id, fee, selfPayment)) != Same
    ensures var late := Next(s, MarkSettled(id, fee, selfPayment));
            var p := s.rows[id].purpose;
            && (SlicesSound(late) <==> Held(s.slices, p))
            && (DoublyPayable(late, p.slice) <==> !Held(s.slices, p) && !SweptInVain(s, p.slice))
  {
    var step := MarkSettled(id, fee, selfPayment);
    var late, p := Next(s, step), s.rows[id].purpose;
    assert SliceRow(s.apps, s.slices, s.rows[id]);
    if Held(s.slices, p) {
      StepKeepsSlicesSound(s, step);
      SoundIsNotDoublyPayable(late, p.slice);
    } else {
      assert late.rows[id] == SettledRow(s.rows[id], fee, selfPayment);
      assert !SliceRow(late.apps, late.slices, late.rows[id]);
      LateAndNotHeld(s, id, fee, selfPayment);
    }
  }

  /**
   Without that condition a slice is paid twice: once its first payout, given up and given back, has settled late, the
   next claimer is paid too, if the rest of the wallet still covers it.
   */
  lemma GivenBackSliceIsPaidTwice(s: State, id: nat, fee: nat, req: Request)
    requires SlicesSound(s) && id < |s.rows| && RevivesPayment(s.rows[id])
    requires var k := s.rows[id].purpose.slice;
             k < |s.slices| && s.slices[k].status == Unclaimed && req.purpose.ClaimPayout? && req.purpose.slice == k
             && req.app == Some(s.slices[k].wallet) && req.amount == s.slices[k].amount
    requires !Used(s.rows, req.purpose) && EffectOf(s, MarkSettled(id, fee, false)) != Same
    requires Admit(s.apps, Next(s, MarkSettled(id, fee, false)).rows, req).Ok?
    ensures var late := Next(s, MarkSettled(id, fee, false));
            var k := s.rows[id].purpose.slice;
            var rest := [ClaimSlice(k, req.purpose.holder), SendPayment(req)];
            Along(late, rest, KeepsSlices()) && PaidTwice(Run(late, rest).rows, k)
  {
    hide Admit;
    var late := Next(s, MarkSettled(id, fee, false));
    var k := s.rows[id].purpose.slice;
    var claim, pay := ClaimSlice(k, req.purpose.holder), SendPayment(req);
    var rest := [claim, pay];
    assert rest[..1] == [claim] && [claim][..0] == [];
    assert Run(late, []) == late && Run(late, [claim]) == Next(late, claim);
    LateSettlementRow(s, id, fee, false);
    AdmittedRow(late.apps, late.rows, req);
    var claimed := Next(late, claim);
    assert claimed.rows == late.rows && claimed.apps == late.apps;
    assert Along(late, [claim], KeepsSlices());
    assert claimed.slices == WithStatus(late.slices, k, Claimed(req.purpose.holder));
    assert PaysItsSlice(claimed, req);
    assert Along(late, rest, KeepsSlices());
    var rows' := Run(late, rest).rows;
    assert rows' == late.rows + [Admit(late.apps, late.rows, req).value];
    assert Pays(rows'[id], k) && Pays(rows'[|late.rows|], k);
  }

  lemma LateSettlementRow(s: State, id: nat, fee: nat, selfPayment: bool)
    requires id < |s.rows| && RevivesPayment(s.rows[id]) && EffectOf(s, MarkSettled(id, fee, selfPayment)) != Same
    ensures var late := Next(s, MarkSettled(id, fee, selfPayment));
            && id < |late.rows| && late.rows[id] == SettledRow(s.rows[id], fee, selfPayment) && late.apps == s.apps
            && late.slices == s.slices
            && (forall p :: Names(p) ==> Used(late.rows, p) == Used(s.rows, p))
            && OnlyRowChanged(s.rows, late.rows, id)
  {
    var late := Next(s, MarkSettled(id, fee, selfPayment));
    forall p | Names(p) ensures Used(late.rows, p) == Used(s.rows, p) {
      if Used(s.rows, p) {
        var i :| 0 <= i < |s.rows| && s.rows[i].direction == Outgoing && s.rows[i].purpose == p;
        assert late.rows[i].direction == Outgoing && late.rows[i].purpose == p;
      }
      if Used(late.rows, p) {
        var i :| 0 <= i < |late.rows| && late.rows[i].direction == Outgoing && late.rows[i].purpose == p;
        assert i < |s.rows|;
      }
    }
  }
}
