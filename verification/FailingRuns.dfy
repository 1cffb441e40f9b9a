/**
 Runs from an empty database in which a promise fails, one for each condition that the theorems name. Every step is one
 the code takes; the step that breaks a rule is named with the run.
 */
module FailingRuns {
  import opened Wrappers
  import opened Sums
  import opened Fees
  import opened Ledger
  import opened Admission
  import opened Protocol
  import opened Settlement
  import opened Conservation
  import opened Solvency
  import opened JitClaims

  function Payment(app: Option<AppId>, hash: nat, amount: nat, selfPayment: bool, keysend: bool,
                   purpose: Purpose): Request
  {
    Request(app, hash, amount, selfPayment, keysend, purpose, 1, 0)
  }

  function Sending(app: Option<AppId>, hash: nat, amount: nat, selfPayment: bool, keysend: bool, purpose: Purpose): Row
  {
    OutgoingRow(Payment(app, hash, amount, selfPayment, keysend, purpose), 0)
  }

  function Invoiced(hash: nat, amount: nat, hold: bool, selfPayment: bool): Row
  {
    Row(None, Incoming, Pending, amount, 0, 0, 0, Invoice(hash), selfPayment, hold, true, Ordinary, 1)
  }

  function Received(app: AppId, hash: nat, amount: nat): Row
  {
    Row(Some(app), Incoming, Settled, amount, 0, 0, 0, Invoice(hash), false, false, true, Ordinary, 1)
  }

  // ---------- one step at a time ----------

  lemma Onward(steps: seq<Step>, k: nat, s: State)
    requires k < |steps| && (if k == 0 then s == Empty else Run(Empty, steps[..k]) == s)
    ensures Run(Empty, steps[..k + 1]) == Next(s, steps[k])
  {
    assert steps[..k + 1][..k] == steps[..k];
  }

  lemma InvoiceMade(s: State, hash: nat, amount: nat, hold: bool, selfPayment: bool)
    ensures Next(s, MakeInvoice(None, hash, amount, hold, true, selfPayment, 1))
         == s.(rows := s.rows + [Invoiced(hash, amount, hold, selfPayment)])
  {
  }

  lemma ReceiptBooked(s: State, app: AppId, hash: nat, amount: nat)
    requires !HasIncoming(s.rows, Invoice(hash))
    ensures Next(s, ReceiveUnknown(Some(app), hash, amount, 0, 1))
         == s.(rows := s.rows + [Received(app, hash, amount)], owed := s.owed + {RowSettled(|s.rows|)})
  {
  }

  predicate HashUnused(rows: seq<Row>, hash: nat)
  {
    forall i :: 0 <= i < |rows| && rows[i].direction == Outgoing ==> rows[i].hash != Invoice(hash)
  }

  lemma UnownedAdmitted(s: State, req: Request)
    requires req.app.None? && (req.keysend || HashUnused(s.rows, req.hash))
    ensures Next(s, SendPayment(req)) == s.(rows := s.rows + [OutgoingRow(req, 0)])
  {
  }

  function Asked(req: Request): nat
  {
    req.amount + (if ReserveCharged(req) then CalculateFeeReserveMloki(req.amount) else 0)
  }

  /** A payment of an isolated wallet without a budget whose balance covers it. */
  lemma IsolatedAdmitted(s: State, req: Request)
    requires req.app.Some? && req.app.value in s.apps && HashUnused(s.rows, req.hash)
    requires var app := s.apps[req.app.value];
             && IsIsolatedKind(app.kind) && app.kind != CircleWallet && app.hasPayScope && app.maxAmountLoki == 0
             && (app.parentKind == JITParent ==> req.IsClaimPayout())
             && Asked(req) <= MAX_INT64 && Asked(req) <= IsolatedBalance(s.rows, req.app.value)
    ensures Next(s, SendPayment(req)) == s.(rows := s.rows + [OutgoingRow(req, 0)])
  {
    assert Need(s.apps, s.apps[req.app.value], req) == Asked(req);
    HeadroomIsNeed(s.apps, s.apps[req.app.value], req);
  }

  /** A first settlement of a row that earns no hub a credit. */
  lemma PlainSettlement(s: State, id: nat, fee: nat, selfPayment: bool)
    requires id < |s.rows| && s.rows[id].skim == 0
    requires forall i :: 0 <= i < |s.rows| ==> !IsSettled(s.rows[i], s.rows[id].direction, s.rows[id].hash)
    ensures Next(s, MarkSettled(id, fee, selfPayment))
         == s.(rows := s.rows[id := SettledRow(s.rows[id], fee, selfPayment)], owed := s.owed + {RowSettled(id)})
  {
    var r := s.rows[id];
    assert !HasSettled(s.rows, r.direction, r.hash);
    hide HasSettled;
  }

  /** The hash is settled in this direction already. */
  lemma RepeatedSettlement(s: State, id: nat, i: nat, fee: nat, selfPayment: bool)
    requires id < |s.rows| && i < |s.rows| && IsSettled(s.rows[i], s.rows[id].direction, s.rows[id].hash)
    ensures Next(s, MarkSettled(id, fee, selfPayment)) == s
  {
  }

  // ---------- conservation ----------

  /** A settled self-payment of two different amounts, whatever else is pending. */
  lemma PairUnbalanced(rows: seq<Row>, received: nat, paid: nat)
    requires received < |rows| && paid < |rows| && SelfReceived(rows[received], rows[paid].hash)
    requires rows[paid].direction == Outgoing && rows[paid].status == Settled && rows[paid].selfPayment
    requires rows[paid].fee == 0 && rows[paid].skim == 0 && rows[paid].amount != rows[received].amount
    requires forall i :: 0 <= i < |rows| && i != received && i != paid ==> rows[i].status == Pending
    ensures !Balanced(rows)
  {
    assert IsSettled(rows[paid], Outgoing, rows[received].hash);
    SumOfZeros(rows, External());
    SumOfZeros(rows, InFlight(rows));
    TwoWeights(rows, received, paid, Net());
  }

  lemma TwoWeights<T>(xs: seq<T>, i: nat, j: nat, f: T -> int)
    requires i < |xs| && j < |xs| && i != j && forall k :: 0 <= k < |xs| && k != i && k != j ==> f(xs[k]) == 0
    ensures Sum(xs, f) == f(xs[i]) + f(xs[j])
  {
    if i > j {
      TwoWeights(xs, j, i, f);
    } else {
      SumConcat(xs[..j], xs[j..], f);
      assert xs[..j] + xs[j..] == xs;
      OneWeight(xs[..j], i, f);
      OneWeight(xs[j..], 0, f);
    }
  }

  lemma OneWeight<T>(xs: seq<T>, i: nat, f: T -> int)
    requires i < |xs| && forall k :: 0 <= k < |xs| && k != i ==> f(xs[k]) == 0
    ensures Sum(xs, f) == f(xs[i])
  {
    var zero := (_: T) => 0;
    SumDiffersAt(xs, i, zero, f);
    SumOfZeros(xs, zero);
  }

  /** An invoice without an amount, paid from this instance with an override of `amount`. */
  function OverrideRun(amount: nat): seq<Step>
  {
    [MakeInvoice(None, 0, 0, false, true, false, 1),
     SendPayment(Payment(None, 0, amount, true, false, Ordinary)),
     MarkSettled(0, 0, true),
     MarkSettled(1, 0, true)]
  }

  /** The payer has paid the override, the recipient holds nothing, and the books do not balance. */
  lemma OverrideUnbalances(amount: nat)
    requires amount > 0
    ensures var rows := Run(Empty, OverrideRun(amount)).rows;
            && |rows| == 2 && rows[0].status == Settled && rows[0].amount == 0
            && rows[1].status == Settled && rows[1].amount == amount && !Balanced(rows)
  {
    hide Next, Run, Balanced, HasSettled, Sum;
    var steps := OverrideRun(amount);
    InvoiceMade(Empty, 0, 0, false, false);
    var s1 := Next(Empty, steps[0]);
    Onward(steps, 0, Empty);
    UnownedAdmitted(s1, steps[1].req);
    var s2 := Next(s1, steps[1]);
    Onward(steps, 1, s1);
    PlainSettlement(s2, 0, 0, true);
    var s3 := Next(s2, steps[2]);
    Onward(steps, 2, s2);
    PlainSettlement(s3, 1, 0, true);
    var s4 := Next(s3, steps[3]);
    Onward(steps, 3, s3);
    PairUnbalanced(s4.rows, 0, 1);
    assert steps[..4] == steps;
  }

  /** Two keysends to this instance with one preimage, the second received before the first has settled its own row. */
  function ReuseRun(first: nat, second: nat): seq<Step>
  {
    [SendPayment(Payment(None, 0, first, true, true, Ordinary)),
     MakeInvoice(None, 0, first, false, true, true, 1),
     MarkSettled(1, 0, true),
     SendPayment(Payment(None, 0, second, true, true, Ordinary)),
     MakeInvoice(None, 0, second, false, true, true, 1),
     MarkSettled(3, 0, true),
     MarkSettled(2, 0, true),
     MarkSettled(0, 0, true)]
  }

  /**
   The second amount has left its payer, the first has reached the recipient, and neither of the other rows settles.
   */
  lemma PreimageReuseUnbalances(first: nat, second: nat)
    requires first != second
    ensures var rows := Run(Empty, ReuseRun(first, second)).rows;
            && |rows| == 4 && rows[0].status == Pending && rows[3].status == Pending
            && rows[1].status == Settled && rows[1].amount == first
            && rows[2].status == Settled && rows[2].amount == second && !Balanced(rows)
  {
    hide Next, Run, Balanced, HasSettled, Sum;
    var steps := ReuseRun(first, second);
    UnownedAdmitted(Empty, steps[0].req);
    var s1 := Next(Empty, steps[0]);
    Onward(steps, 0, Empty);
    InvoiceMade(s1, 0, first, false, true);
    var s2 := Next(s1, steps[1]);
    Onward(steps, 1, s1);
    PlainSettlement(s2, 1, 0, true);
    var s3 := Next(s2, steps[2]);
    Onward(steps, 2, s2);
    UnownedAdmitted(s3, steps[3].req);
    var s4 := Next(s3, steps[3]);
    Onward(steps, 3, s3);
    InvoiceMade(s4, 0, second, false, true);
    var s5 := Next(s4, steps[4]);
    Onward(steps, 4, s4);
    RepeatedSettlement(s5, 3, 1, 0, true);
    var s6 := Next(s5, steps[5]);
    Onward(steps, 5, s5);
    PlainSettlement(s6, 2, 0, true);
    var s7 := Next(s6, steps[6]);
    Onward(steps, 6, s6);
    RepeatedSettlement(s7, 0, 2, 0, true);
    var s8 := Next(s7, steps[7]);
    Onward(steps, 7, s7);
    PairUnbalanced(s8.rows, 1, 2);
    assert steps[..8] == steps;
  }

  /** A hold invoice that a wallet here has accepted to pay is paid through the node, and the waiting payer is woken. */
  function OutsideReceiptRun(amount: nat): seq<Step>
  {
    [MakeInvoice(None, 0, amount, true, true, false, 1),
     SendPayment(Payment(None, 0, amount, true, false, Ordinary)),
     AcceptHold(0, true),
     MarkSettled(0, 0, false),
     Publish(RowSettled(0)),
     MarkSettled(1, 0, true)]
  }

  /** The payer's money is gone, and nothing but the money from outside has arrived. */
  lemma OutsideReceiptUnbalances(amount: nat)
    requires amount > 0
    ensures var s := Run(Empty, OutsideReceiptRun(amount));
            && |s.rows| == 2 && s.rows[0].status == Settled && !s.rows[0].selfPayment
            && s.rows[1].status == Settled && s.rows[1].selfPayment && RowSettled(0) in s.log && !Balanced(s.rows)
  {
    hide Next, Run, Balanced, HasSettled, Sum;
    var steps := OutsideReceiptRun(amount);
    InvoiceMade(Empty, 0, amount, true, false);
    var s1 := Next(Empty, steps[0]);
    Onward(steps, 0, Empty);
    UnownedAdmitted(s1, steps[1].req);
    var s2 := Next(s1, steps[1]);
    Onward(steps, 1, s1);
    HoldAccepted(s2, 0);
    var s3 := Next(s2, steps[2]);
    Onward(steps, 2, s2);
    PlainSettlement(s3, 0, 0, false);
    var s4 := Next(s3, steps[3]);
    Onward(steps, 3, s3);
    Published(s4, RowSettled(0));
    var s5 := Next(s4, steps[4]);
    Onward(steps, 4, s4);
    PlainSettlement(s5, 1, 0, true);
    var s6 := Next(s5, steps[5]);
    Onward(steps, 5, s5);
    DebitUnbalanced(s6.rows[0], s6.rows[1]);
    assert s6.rows == [s6.rows[0], s6.rows[1]];
    assert steps[..6] == steps;
  }

  lemma HoldAccepted(s: State, id: nat)
    requires id < |s.rows| && s.rows[id].direction == Incoming && s.rows[id].status == Pending
    ensures Next(s, AcceptHold(id, true))
             == s.(rows := s.rows[id := s.rows[id].(status := Accepted, selfPayment := true)])
  {
  }

  lemma Published(s: State, e: Event)
    requires e in s.owed
    ensures Next(s, Publish(e)) == s.(owed := s.owed - {e}, log := s.log + [e])
  {
  }

  /** A settled self-payment whose recipient was paid from outside. */
  lemma DebitUnbalanced(received: Row, paid: Row)
    requires received.direction == Incoming && received.status == Settled && !received.selfPayment
    requires paid.direction == Outgoing && paid.status == Settled && paid.selfPayment && paid.amount > 0
    ensures !Balanced([received, paid])
  {
    var rows := [received, paid];
    SumOfTwo(received, paid, Net());
    SumOfTwo(received, paid, External());
    SumOfTwo(received, paid, InFlight(rows));
  }

  // ---------- late settlements ----------

  lemma OneReceipt(rows: seq<Row>, i: nat, app: AppId)
    requires i < |rows| && rows[i].app == Some(app) && rows[i].direction == Incoming && rows[i].status == Settled
    requires forall k :: 0 <= k < |rows| && k != i ==> rows[k].status == Failed
    ensures IsolatedBalance(rows, app) == rows[i].amount
  {
    OneWeight(rows, i, BalanceOf(app));
  }

  /** An isolated wallet that has received what one payment of `amount` needs. */
  function RetryRun(amount: nat): seq<Step>
  {
    [ChangeApps(map[0 := App(Isolated, None, NoParent, true, 0, 0)]),
     ReceiveUnknown(Some(0), 0, amount + CalculateFeeReserveMloki(amount), 0, 1),
     SendPayment(Payment(Some(0), 1, amount, false, false, Ordinary)),
     MarkFailed(1),
     SendPayment(Payment(Some(0), 2, amount, false, false, Ordinary)),
     MarkSettled(2, 0, false),
     MarkSettled(1, 0, false)]
  }

  /** The first payment has been reported failed, and the wallet shows its whole balance again. */
  lemma FirstTryFails(amount: nat)
    requires amount + CalculateFeeReserveMloki(amount) <= MAX_INT64
    ensures var s := Run(Empty, RetryRun(amount)[..4]);
            && s.rows == [Received(0, 0, amount + CalculateFeeReserveMloki(amount)),
                          Sending(Some(0), 1, amount, false, false, Ordinary).(status := Failed, reserve := 0)]
            && s.apps == RetryRun(amount)[0].newApps
  {
    hide Next, Run, CalculateFeeReserveMloki, IsolatedBalance;
    var steps, reserve := RetryRun(amount), CalculateFeeReserveMloki(amount);
    AppsChanged(Empty, steps[0].newApps);
    var s1 := Next(Empty, steps[0]);
    Onward(steps, 0, Empty);
    ReceiptBooked(s1, 0, 0, amount + reserve);
    var s2 := Next(s1, steps[1]);
    Onward(steps, 1, s1);
    assert s2.rows == [Received(0, 0, amount + reserve)];
    OneReceipt(s2.rows, 0, 0);
    IsolatedAdmitted(s2, steps[2].req);
    var s3 := Next(s2, steps[2]);
    Onward(steps, 2, s2);
    PaymentFailed(s3, 1);
    Onward(steps, 3, s3);
  }

  /** A payment that was reported failed, was made again with success and then settled late has overdrawn its wallet. */
  lemma LateSettlementOverdraws(amount: nat)
    requires MIN_FEE_RESERVE < amount && amount + CalculateFeeReserveMloki(amount) <= MAX_INT64
    ensures Committed(Run(Empty, RetryRun(amount)), 0) == CalculateFeeReserveMloki(amount) - amount < 0
  {
    hide Next, Run, CalculateFeeReserveMloki, IsolatedBalance;
    var steps, second := RetryRun(amount), Sending(Some(0), 2, amount, false, false, Ordinary);
    FirstTryFails(amount);
    var s4 := Run(Empty, steps[..4]);
    OneReceipt(s4.rows, 0, 0);
    IsolatedAdmitted(s4, steps[4].req);
    var s5 := Next(s4, steps[4]);
    Onward(steps, 4, s4);
    PlainSettlement(s5, 2, 0, false);
    var s6 := Next(s5, steps[5]);
    Onward(steps, 5, s5);
    PlainSettlement(s6, 1, 0, false);
    var s7 := Next(s6, steps[6]);
    Onward(steps, 6, s6);
    var late, paid := SettledRow(s4.rows[1], 0, false), SettledRow(second, 0, false);
    assert s7.rows == [s4.rows[0], late, paid];
    SumOfThree(s4.rows[0], late, paid, CommittedOf(0));
    assert steps[..7] == steps;
    ReserveBelow(amount);
  }

  lemma ReserveBelow(amount: nat)
    requires MIN_FEE_RESERVE < amount
    ensures CalculateFeeReserveMloki(amount) < amount
  {
  }

  lemma AppsChanged(s: State, apps: Apps)
    requires s.apps == map[]
    ensures Next(s, ChangeApps(apps)) == s.(apps := apps)
  {
  }

  lemma PaymentFailed(s: State, id: nat)
    requires id < |s.rows| && (s.rows[id].status == Pending || s.rows[id].status == Accepted)
    ensures Next(s, MarkFailed(id)) == s.(rows := s.rows[id := s.rows[id].(status := Failed, reserve := 0)])
  {
  }

  // ---------- a slice given back too early ----------

  function Payout(holder: nat, amount: nat): Request
  {
    Payment(Some(1), holder, amount, false, false, ClaimPayout(0, holder))
  }

  /**
   A JIT wallet funded with exactly its two slices. The node reports the first payout of the first slice as sent, but
   without a preimage: the payer is told of an error and gives the slice back, and another claim takes it.
   */
  function GiveBackRun(identity: Identity, other: Identity, amount: nat): seq<Step>
  {
    var rest := amount + CalculateFeeReserveMloki(amount);
    [ChangeApps(map[0 := App(JITHub, None, NoParent, true, 0, 0), 1 := App(JITWallet, Some(0), JITParent, true, 0, 0)]),
     ReceiveUnknown(Some(1), 0, amount + rest, 0, 1),
     AddSlices(1, [Share(identity, amount), Share(other, rest)]),
     ClaimSlice(0, 1),
     SendPayment(Payout(1, amount)),
     UnclaimSlice(0, 1),
     ClaimSlice(0, 2),
     SendPayment(Payout(2, amount))]
  }

  function FundedWallet(amount: nat): Row
  {
    Received(1, 0, 2 * amount + CalculateFeeReserveMloki(amount))
  }

  lemma SliceIsClaimed(identity: Identity, other: Identity, amount: nat)
    requires identity != other
    ensures var steps := GiveBackRun(identity, other, amount);
            var s := Run(Empty, steps[..4]);
            && s.apps == steps[0].newApps && s.rows == [FundedWallet(amount)]
            && s.slices == [Slice(0, 1, identity, amount, Claimed(1)),
                            Slice(1, 1, other, amount + CalculateFeeReserveMloki(amount), Unclaimed)]
  {
    hide Next, Run, CalculateFeeReserveMloki, UniqueKeys;
    var steps, rest := GiveBackRun(identity, other, amount), amount + CalculateFeeReserveMloki(amount);
    AppsChanged(Empty, steps[0].newApps);
    var s1 := Next(Empty, steps[0]);
    Onward(steps, 0, Empty);
    ReceiptBooked(s1, 1, 0, amount + rest);
    var s2 := Next(s1, steps[1]);
    Onward(steps, 1, s1);
    TwoSlicesAdded(s2, identity, amount, other, rest);
    var s3 := Next(s2, steps[2]);
    Onward(steps, 2, s2);
    SliceTaken(s3, 0, 1);
    Onward(steps, 3, s3);
  }

  /** The slice is up for a claim again while its payout is still PENDING. */
  lemma SliceIsGivenBack(identity: Identity, other: Identity, amount: nat)
    requires identity != other && 2 * amount + CalculateFeeReserveMloki(amount) <= MAX_INT64
    ensures var steps := GiveBackRun(identity, other, amount);
            var s := Run(Empty, steps[..6]);
            && s.apps == steps[0].newApps && s.rows == [FundedWallet(amount), OutgoingRow(Payout(1, amount), 0)]
            && |s.slices| == 2 && s.slices[0] == Slice(0, 1, identity, amount, Unclaimed)
  {
    hide Next, Run, CalculateFeeReserveMloki, IsolatedBalance;
    var steps := GiveBackRun(identity, other, amount);
    SliceIsClaimed(identity, other, amount);
    var s4 := Run(Empty, steps[..4]);
    OneReceipt(s4.rows, 0, 1);
    IsolatedAdmitted(s4, steps[4].req);
    var s5 := Next(s4, steps[4]);
    Onward(steps, 4, s4);
    SliceGivenBack(s5, 0, 1);
    Onward(steps, 5, s5);
  }

  /** It is claimed, and now two payouts of one slice are out. */
  lemma GivenBackSliceIsClaimedAgain(identity: Identity, other: Identity, amount: nat)
    requires identity != other && 2 * amount + CalculateFeeReserveMloki(amount) <= MAX_INT64
    ensures var given := Run(Empty, GiveBackRun(identity, other, amount)[..6]);
            && |given.rows| == 2 && given.rows[1].status == Pending && Pays(given.rows[1], 0)
            && |given.slices| == 2 && given.slices[0].status == Unclaimed
    ensures PaidTwice(Run(Empty, GiveBackRun(identity, other, amount)).rows, 0)
  {
    hide Next, Run, CalculateFeeReserveMloki, IsolatedBalance;
    var steps := GiveBackRun(identity, other, amount);
    SliceIsGivenBack(identity, other, amount);
    var s6 := Run(Empty, steps[..6]);
    SliceTaken(s6, 0, 2);
    var s7 := Next(s6, steps[6]);
    Onward(steps, 6, s6);
    BalanceAfterPayout(amount);
    IsolatedAdmitted(s7, steps[7].req);
    var s8 := Next(s7, steps[7]);
    Onward(steps, 7, s7);
    assert steps[..8] == steps;
    assert s8.rows == s6.rows + [OutgoingRow(Payout(2, amount), 0)];
    assert Pays(s8.rows[1], 0) && Pays(s8.rows[2], 0);
  }

  lemma BalanceAfterPayout(amount: nat)
    ensures IsolatedBalance([FundedWallet(amount), OutgoingRow(Payout(1, amount), 0)], 1) == amount
  {
    SumOfTwo(FundedWallet(amount), OutgoingRow(Payout(1, amount), 0), BalanceOf(1));
  }

  lemma TwoSlicesAdded(s: State, a: Identity, first: nat, b: Identity, second: nat)
    requires s.slices == [] && a != b
    ensures Next(s, AddSlices(1, [Share(a, first), Share(b, second)]))
         == s.(slices := [Slice(0, 1, a, first, Unclaimed), Slice(1, 1, b, second, Unclaimed)])
  {
    assert WithShares([], 1, [Share(a, first), Share(b, second)])
        == [Slice(0, 1, a, first, Unclaimed), Slice(1, 1, b, second, Unclaimed)];
  }

  lemma SliceTaken(s: State, k: nat, holder: nat)
    requires k < |s.slices| && s.slices[k].status == Unclaimed
    ensures Next(s, ClaimSlice(k, holder)) == s.(slices := WithStatus(s.slices, k, Claimed(holder)))
  {
  }

  lemma SliceGivenBack(s: State, k: nat, holder: nat)
    requires k < |s.slices| && s.slices[k].status.Claimed?
    ensures Next(s, UnclaimSlice(k, holder)) == s.(slices := WithStatus(s.slices, k, Unclaimed))
  {
  }
}
