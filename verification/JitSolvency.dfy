/** What a JIT wallet holds, compared with what its slices ask for: an exact equation, and when a slice can be paid. */
module JitSolvency {
  import opened Wrappers
  import opened Sums
  import opened Fees
  import opened Ledger
  import opened Admission
  import opened Protocol
  import opened Settlement
  import opened JitClaims

  // ---------- the parts of a balance ----------

  ghost function ReceiptsOf(w: AppId): Row -> int
  {
    (r: Row) => if r.app == Some(w) && r.direction == Incoming && r.status == Settled then r.amount else 0
  }

  /** Payouts and sweeps of slices. */
  ghost function PaidOf(w: AppId): Row -> int
  {
    (r: Row) => if r.app == Some(w) && Live(r) && Names(r.purpose) then r.amount else 0
  }

  /** Every other payment of the wallet, such as a reclaim. */
  ghost function OtherPaidOf(w: AppId): Row -> int
  {
    (r: Row) => if r.app == Some(w) && Live(r) && !Names(r.purpose) then r.amount else 0
  }

  ghost function AllPaidOf(w: AppId): Row -> int
  {
    (r: Row) => if r.app == Some(w) && Live(r) then r.amount else 0
  }

  /** Fees paid by the wallet's payments, and the reserves on pending ones. */
  ghost function LeakOf(w: AppId): Row -> int
  {
    (r: Row) => if r.app == Some(w) && Live(r) then r.fee + r.reserve + r.skim else 0
  }

  ghost function SpentSoFar(w: AppId): Row -> int
  {
    (r: Row) => if r.app == Some(w) && Live(r) then Cost(r) else 0
  }

  lemma BalanceParts(rows: seq<Row>, w: AppId)
    ensures IsolatedBalance(rows, w) == Sum(rows, ReceiptsOf(w)) - Sum(rows, SpentSoFar(w))
    ensures Sum(rows, SpentSoFar(w)) == Sum(rows, PaidOf(w)) + Sum(rows, OtherPaidOf(w)) + Sum(rows, LeakOf(w))
  {
    SumSplits(rows, BalanceOf(w), SpentSoFar(w), ReceiptsOf(w));
    SumSplits(rows, PaidOf(w), OtherPaidOf(w), AllPaidOf(w));
    SumSplits(rows, AllPaidOf(w), LeakOf(w), SpentSoFar(w));
  }

  // ---------- the parts of a wallet's slices ----------

  ghost function AmountOf(w: AppId): Slice -> int
  {
    (c: Slice) => if c.wallet == w then c.amount else 0
  }

  ghost function CoveredOf(rows: seq<Row>, w: AppId): Slice -> int
  {
    (c: Slice) => if c.wallet == w && HasPayment(rows, c.id) then c.amount else 0
  }

  ghost function UnclaimedOf(w: AppId): Slice -> int
  {
    (c: Slice) => if c.wallet == w && c.status.Unclaimed? then c.amount else 0
  }

  /** Claimed, but no payout is pending or settled. */
  ghost function UnpaidOf(rows: seq<Row>, w: AppId): Slice -> int
  {
    (c: Slice) => if c.wallet == w && c.status.Claimed? && !HasPayment(rows, c.id) then c.amount else 0
  }

  /** Removed, but not yet swept back to the hub. */
  ghost function UnsweptOf(rows: seq<Row>, w: AppId): Slice -> int
  {
    (c: Slice) => if c.wallet == w && c.status.Removed? && !HasPayment(rows, c.id) then c.amount else 0
  }

  ghost function OpenOf(rows: seq<Row>, w: AppId): Slice -> int
  {
    (c: Slice) => if c.wallet == w && !HasPayment(rows, c.id) then c.amount else 0
  }

  ghost function Outstanding(s: State, w: AppId): int
  {
    Sum(s.slices, UnclaimedOf(w)) + Sum(s.slices, UnpaidOf(s.rows, w)) + Sum(s.slices, UnsweptOf(s.rows, w))
  }

  /** Money received beyond the sum of the slices; 0 from funding on, unless somebody pays into the wallet. */
  ghost function Surplus(s: State, w: AppId): int
  {
    Sum(s.rows, ReceiptsOf(w)) - Sum(s.slices, AmountOf(w))
  }

  ghost function Leak(s: State, w: AppId): int
  {
    Sum(s.rows, LeakOf(w))
  }

  /** Money that left the wallet for something else than a slice. */
  ghost function Diverted(s: State, w: AppId): int
  {
    Sum(s.rows, OtherPaidOf(w))
  }

  lemma OutstandingIsOpen(s: State, w: AppId)
    requires SlicesSound(s)
    ensures Outstanding(s, w) == Sum(s.slices, OpenOf(s.rows, w))
  {
    forall k | 0 <= k < |s.slices| && s.slices[k].status.Unclaimed? ensures !HasPayment(s.rows, s.slices[k].id) {
      UnclaimedIsUnpaid(s, k);
    }
    var h := (c: Slice) => UnclaimedOf(w)(c) + UnpaidOf(s.rows, w)(c);
    SumSplits(s.slices, UnclaimedOf(w), UnpaidOf(s.rows, w), h);
    SumSplits(s.slices, h, UnsweptOf(s.rows, w), OpenOf(s.rows, w));
  }

  lemma UnclaimedIsUnpaid(s: State, k: nat)
    requires SlicesSound(s) && k < |s.slices| && s.slices[k].status.Unclaimed?
    ensures !HasPayment(s.rows, k)
  {
    forall i | 0 <= i < |s.rows| ensures !Pays(s.rows[i], k) {
      assert SliceRow(s.apps, s.slices, s.rows[i]);
    }
  }

  /** The live payments of slices of a JIT wallet are its slices with a payment, one payment a slice. */
  lemma {:induction false} PaidIsCovered(s: State, n: nat, w: AppId)
    requires SlicesSound(s) && n <= |s.rows| && IsJitWallet(s.apps, Some(w))
    ensures Sum(s.rows[..n], PaidOf(w)) == Sum(s.slices, CoveredOf(s.rows[..n], w))
  {
    if n == 0 {
      SumOfZeros(s.slices, CoveredOf([], w));
      assert s.rows[..0] == [];
    } else {
      var init, rows, r := s.rows[..n - 1], s.rows[..n], s.rows[n - 1];
      PaidIsCovered(s, n - 1, w);
      assert rows == init + [r];
      SumSnoc(init, r, PaidOf(w));
      assert SliceRow(s.apps, s.slices, r);
      if Live(r) && Names(r.purpose) {
        OneMoreCovered(s, n - 1, w);
      } else {
        NoMoreCovered(s, n - 1, w);
      }
    }
  }

  lemma NoMoreCovered(s: State, n: nat, w: AppId)
    requires n < |s.rows| && !(Live(s.rows[n]) && Names(s.rows[n].purpose))
    ensures Sum(s.slices, CoveredOf(s.rows[..n + 1], w)) == Sum(s.slices, CoveredOf(s.rows[..n], w))
  {
    forall k: nat ensures HasPayment(s.rows[..n + 1], k) == HasPayment(s.rows[..n], k) {
      PaymentInPrefix(s.rows, n, k);
    }
    SumCongruent(s.slices, CoveredOf(s.rows[..n + 1], w), CoveredOf(s.rows[..n], w));
  }

  lemma PaymentInPrefix(rows: seq<Row>, n: nat, k: nat)
    requires n < |rows|
    ensures HasPayment(rows[..n + 1], k) == (HasPayment(rows[..n], k) || Pays(rows[n], k))
  {
    if HasPayment(rows[..n], k) {
      var i :| 0 <= i < n && Pays(rows[..n][i], k);
      assert Pays(rows[..n + 1][i], k);
    }
    if Pays(rows[n], k) {
      assert Pays(rows[..n + 1][n], k);
    }
    if HasPayment(rows[..n + 1], k) {
      var i :| 0 <= i <= n && Pays(rows[..n + 1][i], k);
      assert i < n ==> Pays(rows[..n][i], k);
    }
  }

  lemma OneMoreCovered(s: State, n: nat, w: AppId)
    requires SlicesSound(s) && n < |s.rows| && Live(s.rows[n]) && Names(s.rows[n].purpose)
    ensures Sum(s.slices, CoveredOf(s.rows[..n + 1], w))
             == Sum(s.slices, CoveredOf(s.rows[..n], w)) + PaidOf(w)(s.rows[n])
  {
    var r := s.rows[n];
    assert SliceRow(s.apps, s.slices, r);
    var k := r.purpose.slice;
    forall i | 0 <= i < n ensures !Pays(s.rows[..n][i], k) {
      if Pays(s.rows[i], k) {
        OnePaymentPerSlice(s, i, n, k);
      }
    }
    forall c: nat ensures HasPayment(s.rows[..n + 1], c) == (HasPayment(s.rows[..n], c) || c == k) {
      PaymentInPrefix(s.rows, n, c);
    }
    SumDiffersAt(s.slices, k, CoveredOf(s.rows[..n], w), CoveredOf(s.rows[..n + 1], w));
  }

  lemma BalanceEquation(s: State, w: AppId)
    requires SlicesSound(s) && IsJitWallet(s.apps, Some(w))
    ensures IsolatedBalance(s.rows, w) + Leak(s, w) + Diverted(s, w) == Outstanding(s, w) + Surplus(s, w)
  {
    BalanceParts(s.rows, w);
    PaidIsCovered(s, |s.rows|, w);
    assert s.rows[..|s.rows|] == s.rows;
    OutstandingIsOpen(s, w);
    SumSplits(s.slices, CoveredOf(s.rows, w), OpenOf(s.rows, w), AmountOf(w));
  }

  /**
   The exact JIT solvency equation, over every interleaving of claims, payouts, failures, give-backs, removals, sweeps
   and reclaims: balance + fees paid + reserves held + other payments of the wallet, such as a reclaim, pending or
   settled == unclaimed + claimed but unpaid + removed but unswept (+ any surplus paid in).
   */
  lemma JitWalletIsSolvent(steps: seq<Step>, w: AppId)
    requires Along(Empty, steps, KeepsSlices()) && IsJitWallet(Run(Empty, steps).apps, Some(w))
    ensures var s := Run(Empty, steps);
            IsolatedBalance(s.rows, w) + Leak(s, w) + Diverted(s, w) == Outstanding(s, w) + Surplus(s, w)
  {
    RunKeepsSlicesSound(Empty, steps);
    BalanceEquation(Run(Empty, steps), w);
  }

  /** No payment of the wallet other than for slices is pending or settled. */
  predicate PaysOnlySlices(rows: seq<Row>, w: AppId)
  {
    forall i :: 0 <= i < |rows| && rows[i].app == Some(w) && Live(rows[i]) ==> Names(rows[i].purpose)
  }

  /**
   While only slices are paid, as long as no reclaim is pending or settled, the wallet holds exactly what they ask for.
   */
  lemma UnreclaimedWalletIsSolvent(steps: seq<Step>, w: AppId)
    requires Along(Empty, steps, KeepsSlices()) && IsJitWallet(Run(Empty, steps).apps, Some(w))
    requires PaysOnlySlices(Run(Empty, steps).rows, w)
    ensures var s := Run(Empty, steps);
            IsolatedBalance(s.rows, w) + Leak(s, w) == Outstanding(s, w) + Surplus(s, w)
  {
    JitWalletIsSolvent(steps, w);
    SumOfZeros(Run(Empty, steps).rows, OtherPaidOf(w));
  }

  lemma ReceiptsOnlyGrow(apps: Apps, rows: seq<Row>, e: Effect, w: AppId)
    requires Fits(rows, e) && Allowed(apps, rows, e)
    ensures Delta(rows, e, ReceiptsOf(w)) >= 0
  {
  }

  predicate AddsSlicesTo(step: Step, w: AppId)
  {
    step.AddSlices? && step.wallet == w
  }

  ghost function NoMoreSlices(w: AppId): (State, Step) -> bool
  {
    (s: State, step: Step) => !AddsSlicesTo(step, w)
  }

  lemma SliceAmountsStay(slices: seq<Slice>, step: Step, w: AppId)
    requires !AddsSlicesTo(step, w)
    ensures Sum(SlicesAfter(slices, step), AmountOf(w)) == Sum(slices, AmountOf(w))
  {
    match step
    case AddSlices(wallet, shares) =>
      var all := WithShares(slices, wallet, shares);
      var added := all[|slices|..];
      assert all == slices + added;
      SumConcat(slices, added, AmountOf(w));
      SumOfZeros(added, AmountOf(w));
    case ClaimSlice(k, holder) =>
      if k < |slices| { SumUpdate(slices, k, slices[k].(status := Claimed(holder)), AmountOf(w)); }
    case UnclaimSlice(k, holder) =>
      if k < |slices| { SumUpdate(slices, k, slices[k].(status := Unclaimed), AmountOf(w)); }
    case RemoveSlice(k, holder) =>
      if k < |slices| { SumUpdate(slices, k, slices[k].(status := Removed(holder)), AmountOf(w)); }
    case _ =>
  }

  /** Once its slices exist, a wallet's surplus never shrinks: a wallet that is funded stays funded. */
  lemma {:induction false} FundedStaysFunded(s: State, steps: seq<Step>, w: AppId)
    requires Along(s, steps, NoMoreSlices(w))
    ensures Surplus(Run(s, steps), w) >= Surplus(s, w)
  {
    if |steps| > 0 {
      hide EffectOf, Allowed, SlicesAfter;
      var init, last := steps[..|steps| - 1], steps[|steps| - 1];
      FundedStaysFunded(s, init, w);
      var before := Run(s, init);
      StepAllowed(before, last);
      SumApply(before.rows, EffectOf(before, last), ReceiptsOf(w));
      ReceiptsOnlyGrow(before.apps, before.rows, EffectOf(before, last), w);
      SliceAmountsStay(before.slices, last, w);
    }
  }

  /** The step brings the wallet no money. */
  ghost function NoReceipts(w: AppId): (State, Step) -> bool
  {
    (s: State, step: Step) => Sum(Next(s, step).rows, ReceiptsOf(w)) == Sum(s.rows, ReceiptsOf(w))
  }

  lemma {:induction false} SurplusStays(s: State, steps: seq<Step>, w: AppId)
    requires Along(s, steps, NoMoreSlices(w)) && Along(s, steps, NoReceipts(w))
    ensures Surplus(Run(s, steps), w) == Surplus(s, w)
  {
    if |steps| > 0 {
      hide SlicesAfter, EffectOf;
      var init, last := steps[..|steps| - 1], steps[|steps| - 1];
      SurplusStays(s, init, w);
      SliceAmountsStay(Run(s, init).slices, last, w);
    }
  }

  /**
   End to end: from a created wallet, which holds exactly its slices, along any run that keeps the slices and brings the
   wallet neither slices nor money, its balance, the fees, the reserves and what was diverted are at every moment
   exactly what its slices still ask for.
   */
  lemma CreatedWalletIsSolvent(s: State, steps: seq<Step>, w: AppId)
    requires SlicesSound(s) && IsJitWallet(s.apps, Some(w)) && Surplus(s, w) == 0
    requires Along(s, steps, KeepsSlices()) && Along(s, steps, NoMoreSlices(w)) && Along(s, steps, NoReceipts(w))
    ensures var s' := Run(s, steps);
            IsolatedBalance(s'.rows, w) + Leak(s', w) + Diverted(s', w) == Outstanding(s', w)
  {
    hide SlicesSound, Outstanding, Surplus;
    RunKeepsSlicesSound(s, steps);
    JitWalletStays(s, steps, w);
    SurplusStays(s, steps, w);
    BalanceEquation(Run(s, steps), w);
  }

  lemma {:induction false} JitWalletStays(s: State, steps: seq<Step>, w: AppId)
    requires IsJitWallet(s.apps, Some(w))
    ensures IsJitWallet(Run(s, steps).apps, Some(w))
  {
    if |steps| > 0 {
      JitWalletStays(s, steps[..|steps| - 1], w);
    }
  }

  // ---------- every slice stays payable ----------

  /** Flooring to loki is superadditive, so payouts that add up to at most the funding pass a cap of its floor. */
  lemma FloorsAddUp(amount: nat, paid: nat, total: nat)
    requires amount + paid <= total
    ensures amount / 1000 + paid / 1000 <= total / 1000
  {
  }

  lemma OpenSliceIsOutstanding(s: State, w: AppId, k: nat)
    requires SlicesSound(s) && k < |s.slices| && s.slices[k].wallet == w && !HasPayment(s.rows, k)
    ensures s.slices[k].amount <= Outstanding(s, w)
  {
    OutstandingIsOpen(s, w);
    SumBoundsMember(s.slices, k, OpenOf(s.rows, w));
  }

  /** The holder's slice has no payment yet. */
  lemma FirstPaymentIsDue(s: State, req: Request)
    requires SlicesSound(s) && PaysItsSlice(s, req)
    ensures !HasPayment(s.rows, req.purpose.slice)
  {
    forall i | 0 <= i < |s.rows| ensures !Pays(s.rows[i], req.purpose.slice) {
      assert SliceRow(s.apps, s.slices, s.rows[i]);
    }
  }

  /** A JIT wallet as Commit creates it: its cap is the sum of its slices in whole loki. */
  predicate CappedAt(s: State, w: AppId, total: nat)
  {
    IsJitWallet(s.apps, Some(w)) && s.apps[w].maxAmountLoki == total / 1000 && s.apps[w].hasPayScope
  }

  /**
   A payout or sweep of a held slice passes the balance check exactly when the leak, and whatever left the wallet for
   other purposes, is covered by the other slices and the surplus.
   */
  lemma SliceIsCoveredIff(s: State, req: Request)
    requires SlicesSound(s) && PaysItsSlice(s, req) && req.amount <= MAX_INT64
    requires req.purpose.SweepBack? ==> req.selfPayment
    ensures var w := s.slices[req.purpose.slice].wallet;
            IsJitWallet(s.apps, Some(w)) && Need(s.apps, s.apps[w], req) == req.amount
            && (req.amount <= IsolatedBalance(s.rows, w) <==>
                  Leak(s, w) + Diverted(s, w) <= Outstanding(s, w) - req.amount + Surplus(s, w))
  {
    BalanceEquation(s, s.slices[req.purpose.slice].wallet);
  }

  /**
   Every slice stays payable: while earlier payments of the funded wallet were for slices, cost no fee and none is
   pending, a holder's payout passes the balance check, the budget cap and the full-drain rule, however many were paid
   before.
   */
  lemma EverySliceIsPayable(s: State, req: Request)
    requires SlicesSound(s) && PaysItsSlice(s, req) && req.purpose.ClaimPayout? && MayBePaid(s.rows, req.hash)
    requires var w := s.slices[req.purpose.slice].wallet;
             var total := Sum(s.slices, AmountOf(w));
             0 <= total <= MAX_INT64 && CappedAt(s, w, total) && Leak(s, w) == 0 && Diverted(s, w) == 0
               && Surplus(s, w) >= 0
    ensures Admit(s.apps, s.rows, req) == Ok(OutgoingRow(req, 0))
  {
    hide Outstanding, Admit, ValidateCanPay, HasPayment, Used, HasSettled, HasPendingOutgoing;
    var k := req.purpose.slice;
    var w := s.slices[k].wallet;
    FirstPaymentIsDue(s, req);
    OpenSliceIsOutstanding(s, w, k);
    AmountWithinTotal(s, w, k);
    SliceIsCoveredIff(s, req);
    PaidPlusOpen(s, w, k);
    UsageAtMostSpent(s.rows, w, req.budgetStart);
    BalanceParts(s.rows, w);
    FloorsAddUp(req.amount, Sum(s.rows, SpentSoFar(w)), Sum(s.slices, AmountOf(w)));
    ClearedIff(s.apps, s.rows, req);
    ClearedPayoutAdmitted(s, req);
  }

  /**
   So does every sweep of a removed slice back to the hub, without any condition on cap or scope: the money of a removed
   recipient never gets stuck behind the budget.
   */
  lemma EveryRemovedSliceIsSweepable(s: State, req: Request)
    requires SlicesSound(s) && PaysItsSlice(s, req) && req.purpose.SweepBack? && req.selfPayment
             && MayBePaid(s.rows, req.hash)
    requires var w := s.slices[req.purpose.slice].wallet;
             0 < req.amount <= MAX_INT64 && Leak(s, w) == 0 && Diverted(s, w) == 0 && Surplus(s, w) >= 0
    ensures Admit(s.apps, s.rows, req) == Ok(OutgoingRow(req, 0))
  {
    hide Outstanding, Admit, ValidateCanPay, HasPayment, Used;
    var k := req.purpose.slice;
    FirstPaymentIsDue(s, req);
    OpenSliceIsOutstanding(s, s.slices[k].wallet, k);
    SliceIsCoveredIff(s, req);
    ReclaimAlwaysAdmitted(s.apps, s.rows, req);
  }

  lemma AmountWithinTotal(s: State, w: AppId, k: nat)
    requires k < |s.slices| && s.slices[k].wallet == w
    ensures s.slices[k].amount <= Sum(s.slices, AmountOf(w))
  {
    SumBoundsMember(s.slices, k, AmountOf(w));
  }

  /** What has been paid and one open slice fit in the wallet's total. */
  lemma PaidPlusOpen(s: State, w: AppId, k: nat)
    requires SlicesSound(s) && IsJitWallet(s.apps, Some(w))
    requires k < |s.slices| && s.slices[k].wallet == w && !HasPayment(s.rows, k)
    ensures 0 <= Sum(s.rows, PaidOf(w)) <= Sum(s.slices, AmountOf(w)) - s.slices[k].amount
  {
    PaidIsCovered(s, |s.rows|, w);
    assert s.rows[..|s.rows|] == s.rows;
    SumSplits(s.slices, CoveredOf(s.rows, w), OpenOf(s.rows, w), AmountOf(w));
    SumBoundsMember(s.slices, k, OpenOf(s.rows, w));
    SumNonNegative(s.rows, PaidOf(w));
  }

  lemma UsageAtMostSpent(rows: seq<Row>, w: AppId, since: int)
    ensures BudgetUsageLoki(rows, w, since) <= Sum(rows, SpentSoFar(w)) / 1000
    ensures Sum(rows, SpentSoFar(w)) >= 0
  {
    SumAtMost(rows, SpentOf(w, since), SpentSoFar(w));
    SumNonNegative(rows, SpentSoFar(w));
  }

  lemma ClearedPayoutAdmitted(s: State, req: Request)
    requires req.purpose.ClaimPayout? && IsJitWallet(s.apps, req.app) && MayBePaid(s.rows, req.hash)
    requires ValidateCanPay(s.apps, s.rows, req).Ok?
    ensures Admit(s.apps, s.rows, req) == Ok(OutgoingRow(req, 0))
  {
  }
}
