/**
 An internal transfer: an invoice for the receiving wallet, paid at once by the sending one. Transfers between wallets,
 the funding of a JIT wallet and the reclaim of a child's balance all move money this way.
 */
module InternalTransfer {
  import opened Wrappers
  import opened Sums
  import opened Fees
  import opened Ledger
  import opened Admission
  import opened Protocol
  import opened Settlement
  import opened Conservation
  import opened Threads
  import opened TransactionsService

  // ---------- the rows of one invoice ----------

  /** Nobody else has the invoice: others neither add nor change a row of its hash. */
  predicate IsPrivate(s: State, step: Step, hash: PaymentHash)
  {
    forall i :: 0 <= i < |Next(s, step).rows| && Next(s, step).rows[i].hash == hash ==>
      i < |s.rows| && s.rows[i] == Next(s, step).rows[i]
  }

  ghost function Private(hash: PaymentHash): (State, Step) -> bool
  {
    (s: State, step: Step) => IsPrivate(s, step, hash)
  }

  predicate IsUnused(rows: seq<Row>, hash: PaymentHash)
  {
    forall i :: 0 <= i < |rows| ==> rows[i].hash != hash
  }

  predicate IsOffer(r: Row, to: Option<AppId>, hash: PaymentHash, amount: nat)
  {
    r.direction == Incoming && r.hash == hash && r.amount == amount && r.app == to
  }

  /** The only row of the hash is an unpaid invoice for the recipient. */
  predicate Offered(rows: seq<Row>, j: nat, to: Option<AppId>, hash: PaymentHash, amount: nat)
  {
    && j < |rows| && IsOffer(rows[j], to, hash, amount) && rows[j].status == Pending && !rows[j].hold
    && forall i :: 0 <= i < |rows| && rows[i].hash == hash ==> i == j
  }

  predicate IsPayment(r: Row, from: Option<AppId>, hash: PaymentHash, amount: nat)
  {
    r.direction == Outgoing && r.hash == hash && r.amount == amount && r.app == from
  }

  predicate PlainReceipt(r: Row, amount: nat)
  {
    r.amount == amount && !r.hold && (r.status == Settled ==> r.selfPayment)
  }

  /** The hash has one payer, and plain invoices of one amount that are paid by it alone. */
  predicate UnderWay(rows: seq<Row>, j: nat, id: nat, from: Option<AppId>, to: Option<AppId>, hash: PaymentHash,
                     amount: nat)
  {
    && j < |rows| && IsOffer(rows[j], to, hash, amount) && id < |rows| && IsPayment(rows[id], from, hash, amount)
    && forall i :: 0 <= i < |rows| && rows[i].hash == hash ==>
         if rows[i].direction == Outgoing then i == id else PlainReceipt(rows[i], amount)
  }

  /** The amount has left the sender and reached the recipient, and nothing else bears the hash. */
  predicate Transferred(rows: seq<Row>, from: Option<AppId>, to: Option<AppId>, hash: PaymentHash, amount: nat)
  {
    exists j, id :: 0 <= j < |rows| && 0 <= id < |rows| && Completes(rows, j, id, from, to, hash, amount)
  }

  predicate Completes(rows: seq<Row>, j: nat, id: nat, from: Option<AppId>, to: Option<AppId>, hash: PaymentHash,
                      amount: nat)
    requires j < |rows| && id < |rows|
  {
    && IsOffer(rows[j], to, hash, amount) && rows[j].status == Settled
    && IsPayment(rows[id], from, hash, amount) && rows[id].status == Settled
    && rows[id].fee == 0 && rows[id].reserve == 0 && rows[id].skim == 0
    && forall i :: 0 <= i < |rows| && rows[i].hash == hash ==> i == j || i == id
  }

  /** No row of the hash counts for anybody. */
  predicate Untouched(rows: seq<Row>, hash: PaymentHash)
  {
    forall i :: 0 <= i < |rows| && rows[i].hash == hash ==>
      if rows[i].direction == Incoming then rows[i].status != Settled else !Live(rows[i])
  }

  ghost function OfHash(hash: PaymentHash, f: Row -> int): Row -> int
  {
    (r: Row) => if r.hash == hash then f(r) else 0
  }

  ghost function Nothing(): Row -> int
  {
    (r: Row) => 0
  }

  /** The two rows of a completed transfer are the only ones of its hash. */
  lemma CompletedWeighs(rows: seq<Row>, j: nat, id: nat, from: Option<AppId>, to: Option<AppId>, hash: PaymentHash,
                        amount: nat, f: Row -> int)
    requires j < |rows| && id < |rows| && Completes(rows, j, id, from, to, hash, amount)
    ensures Sum(rows, OfHash(hash, f)) == f(rows[j]) + f(rows[id])
  {
    var h := OfHash(hash, f);
    var g := (r: Row) => if r == rows[id] then 0 else h(r);
    SumOfZeros(rows, Nothing());
    forall k | 0 <= k < |rows| && k != j ensures Nothing()(rows[k]) == g(rows[k]) {
      assert rows[k].hash == hash ==> k == id;
    }
    SumDiffersAt(rows, j, Nothing(), g);
    forall k | 0 <= k < |rows| && k != id ensures g(rows[k]) == h(rows[k]) {
      assert rows[k] != rows[id];
    }
    SumDiffersAt(rows, id, g, h);
  }

  /** What a transfer is worth to each wallet: minus the amount, plus the amount, nothing. */
  function MoveOf(from: Option<AppId>, to: Option<AppId>, amount: nat, a: AppId): int
  {
    (if to == Some(a) then amount else 0) - (if from == Some(a) then amount else 0)
  }

  lemma TransferMovesAmount(rows: seq<Row>, from: Option<AppId>, to: Option<AppId>, hash: PaymentHash, amount: nat,
                            a: AppId)
    requires Transferred(rows, from, to, hash, amount)
    ensures Sum(rows, OfHash(hash, BalanceOf(a))) == MoveOf(from, to, amount, a)
  {
    var j, id :| 0 <= j < |rows| && 0 <= id < |rows| && Completes(rows, j, id, from, to, hash, amount);
    CompletedWeighs(rows, j, id, from, to, hash, amount, BalanceOf(a));
  }

  lemma UntouchedMovesNothing(rows: seq<Row>, hash: PaymentHash, a: AppId)
    requires Untouched(rows, hash)
    ensures Sum(rows, OfHash(hash, BalanceOf(a))) == 0
  {
    SumOfZeros(rows, OfHash(hash, BalanceOf(a)));
  }

  // ---------- runs in which the invoice is private ----------

  lemma {:induction false} PrivateGap(s: State, gap: seq<Move>, hash: PaymentHash)
    requires AllOthers(gap) && Keeps(s, gap, false, Private(hash))
    ensures forall i :: 0 <= i < |After(s, gap).rows| && After(s, gap).rows[i].hash == hash ==>
              i < |s.rows| && s.rows[i] == After(s, gap).rows[i]
  {
    if |gap| > 0 {
      PrivateGap(s, gap[..|gap| - 1], hash);
    }
  }

  lemma OfferStays(s: State, gap: seq<Move>, j: nat, to: Option<AppId>, hash: PaymentHash, amount: nat)
    requires AllOthers(gap) && Keeps(s, gap, false, Private(hash)) && Offered(s.rows, j, to, hash, amount)
    ensures Offered(After(s, gap).rows, j, to, hash, amount)
  {
    PrivateGap(s, gap, hash);
    AfterFacts(s, gap);
    assert RowEvolves(s.rows[j], After(s, gap).rows[j]);
  }

  lemma PayerStepUnderWay(s: State, step: Step, j: nat, id: nat, from: Option<AppId>, to: Option<AppId>,
                          hash: PaymentHash, amount: nat)
    requires UnderWay(s.rows, j, id, from, to, hash, amount) && hash.Invoice?
    requires PayerStep(s, step, id) || IsPrivate(s, step, hash)
    ensures UnderWay(Next(s, step).rows, j, id, from, to, hash, amount)
  {
    hide Admit;
    var rows' := Next(s, step).rows;
    StepEvolves(s, step);
    assert RowEvolves(s.rows[j], rows'[j]) && RowEvolves(s.rows[id], rows'[id]);
    forall i | 0 <= i < |rows'| && rows'[i].hash == hash
      ensures if rows'[i].direction == Outgoing then i == id else PlainReceipt(rows'[i], amount)
    {
      if i < |s.rows| {
        assert RowEvolves(s.rows[i], rows'[i]);
      }
    }
  }

  lemma {:induction false} StaysUnderWay(s: State, trace: seq<Move>, j: nat, id: nat, from: Option<AppId>,
                                         to: Option<AppId>, hash: PaymentHash, amount: nat)
    requires UnderWay(s.rows, j, id, from, to, hash, amount) && hash.Invoice?
    requires OwnPayerSteps(s, trace, id) && Keeps(s, trace, false, Private(hash))
    ensures UnderWay(After(s, trace).rows, j, id, from, to, hash, amount)
  {
    if |trace| > 0 {
      hide UnderWay, IsPrivate, PayerStep, Next;
      StaysUnderWay(s, trace[..|trace| - 1], j, id, from, to, hash, amount);
      PayerStepUnderWay(After(s, trace[..|trace| - 1]), trace[|trace| - 1].step, j, id, from, to, hash, amount);
    }
  }

  predicate NoneReceived(rows: seq<Row>, hash: PaymentHash)
  {
    forall i :: 0 <= i < |rows| && rows[i].hash == hash && rows[i].direction == Incoming ==> rows[i].status != Settled
  }

  lemma {:induction false} NoneReceivedWithoutSettlement(s: State, trace: seq<Move>, id: nat, hash: PaymentHash)
    requires NoneReceived(s.rows, hash) && hash.Invoice? && NoOwnSettlement(trace)
    requires OwnPayerSteps(s, trace, id) && Keeps(s, trace, false, Private(hash))
    ensures NoneReceived(After(s, trace).rows, hash)
  {
    if |trace| > 0 {
      var init, last := trace[..|trace| - 1], trace[|trace| - 1];
      NoneReceivedWithoutSettlement(s, init, id, hash);
      StepReceivesNone(After(s, init), last.step, id, hash);
    }
  }

  lemma StepReceivesNone(s: State, step: Step, id: nat, hash: PaymentHash)
    requires NoneReceived(s.rows, hash) && (IsPrivate(s, step, hash) || (PayerStep(s, step, id) && !step.MarkSettled?))
    ensures NoneReceived(Next(s, step).rows, hash)
  {
    hide Admit;
  }

  // ---------- everything else stays as it was ----------

  /** The step changes and adds rows of this hash only. */
  predicate OnlyTouches(rows: seq<Row>, e: Effect, hash: PaymentHash)
    requires Fits(rows, e)
  {
    match e
    case Same => true
    case Insert(row) => row.hash == hash
    case Update(id, after) => rows[id].hash == hash && after.hash == hash
    case UpdateAndInsert(_, _, _) => false
  }

  ghost function TouchesOnly(hash: PaymentHash): (State, Step) -> bool
  {
    (s: State, step: Step) => Fits(s.rows, EffectOf(s, step)) && OnlyTouches(s.rows, EffectOf(s, step), hash)
  }

  lemma PayerStepTouchesOnly(s: State, step: Step, id: nat)
    requires id < |s.rows| && s.rows[id].direction == Outgoing && s.rows[id].skim == 0 && PayerStep(s, step, id)
    ensures TouchesOnly(s.rows[id].hash)(s, step)
  {
    hide Admit;
    EffectFits(s, step);
  }

  /** A payer without a skim writes rows of its own hash only. */
  lemma {:induction false} PayerTouchesOnly(s: State, trace: seq<Move>, id: nat)
    requires id < |s.rows| && s.rows[id].direction == Outgoing && s.rows[id].skim == 0 && OwnPayerSteps(s, trace, id)
    ensures Keeps(s, trace, true, TouchesOnly(s.rows[id].hash))
  {
    if |trace| > 0 {
      hide PayerStep, Next, TouchesOnly;
      var init, last := trace[..|trace| - 1], trace[|trace| - 1];
      PayerTouchesOnly(s, init, id);
      AfterFacts(s, init);
      assert RowEvolves(s.rows[id], After(s, init).rows[id]);
      if last.own {
        PayerStepTouchesOnly(After(s, init), last.step, id);
      }
    }
  }

  lemma CallTouchesOnly(s: State, call: Call, out: Outcome, node: Reply)
    requires AllOthers(call.before) && Concluded(After(s, call.before), call, out, After(s, call.Trace()).rows, node)
    requires call.req.selfPayment
    ensures Keeps(s, call.Trace(), true, TouchesOnly(Invoice(call.req.hash)))
  {
    hide EffectOf, Next, PayerStep, Admit, OnlyTouches;
    var rule := TouchesOnly(Invoice(call.req.hash));
    var pay := Move(true, SendPayment(call.req));
    var s1 := After(s, call.before);
    OthersKeepOwnRule(s, call.before, rule);
    KeepsSnoc(s, call.before, pay, true, rule);
    KeepsConcat(s, call.before + [pay], call.after, true, rule);
    SendTouchesOnly(s1, call.req);
    if Admit(s1.apps, s1.rows, call.req).Ok? {
      InsertedRow(s1, call.req);
      AdmittedRow(s1.apps, s1.rows, call.req);
      PayerTouchesOnly(Next(s1, SendPayment(call.req)), call.after, |s1.rows|);
    }
  }

  lemma SendTouchesOnly(s: State, req: Request)
    ensures TouchesOnly(Invoice(req.hash))(s, SendPayment(req))
  {
    hide Admit;
    SentRow(s, req);
  }

  /** Others leave this sum over the rows as it is. */
  ghost function Steady(f: Row -> int): (State, Step) -> bool
  {
    (s: State, step: Step) => Sum(Next(s, step).rows, f) == Sum(s.rows, f)
  }

  /** Others neither pay nor credit the wallet meanwhile. */
  ghost function Quiet(a: AppId): (State, Step) -> bool
  {
    Steady(BalanceOf(a))
  }

  /** A sum without the rows of one hash. */
  ghost function RestOf(rows: seq<Row>, f: Row -> int, hash: PaymentHash): int
  {
    Sum(rows, f) - Sum(rows, OfHash(hash, f))
  }

  lemma TouchingKeepsRest(rows: seq<Row>, e: Effect, f: Row -> int, hash: PaymentHash)
    requires Fits(rows, e) && OnlyTouches(rows, e, hash)
    ensures RestOf(Apply(rows, e), f, hash) == RestOf(rows, f, hash)
  {
    SumApply(rows, e, f);
    SumApply(rows, e, OfHash(hash, f));
  }

  lemma PrivateKeepsHash(s: State, step: Step, f: Row -> int, hash: PaymentHash)
    requires IsPrivate(s, step, hash)
    ensures Sum(Next(s, step).rows, OfHash(hash, f)) == Sum(s.rows, OfHash(hash, f))
  {
    hide EffectOf, RowEvolves, Sum;
    StepEvolves(s, step);
    OnlyOldRowsOfHash(s.rows, Next(s, step).rows, f, hash);
  }

  lemma OnlyOldRowsOfHash(rows: seq<Row>, rows': seq<Row>, f: Row -> int, hash: PaymentHash)
    requires Evolves(rows, rows')
    requires forall i :: 0 <= i < |rows'| && rows'[i].hash == hash ==> i < |rows| && rows[i] == rows'[i]
    ensures Sum(rows', OfHash(hash, f)) == Sum(rows, OfHash(hash, f))
  {
    hide Sum;
    var g := OfHash(hash, f);
    var kept, added := rows'[..|rows|], rows'[|rows|..];
    assert rows' == kept + added;
    SumConcat(kept, added, g);
    forall k | 0 <= k < |rows| ensures g(rows[k]) == g(kept[k]) {
      assert RowEvolves(rows[k], rows'[k]);
    }
    SumPointwise(rows, kept, g);
    forall k | 0 <= k < |added| ensures g(added[k]) == 0 {
      assert added[k] == rows'[|rows| + k];
    }
    SumOfZeros(added, g);
  }

  /** While others leave a sum alone, such as a wallet's balance, it changes by the rows of the transfer alone. */
  lemma {:induction false} RestStays(s: State, trace: seq<Move>, f: Row -> int, hash: PaymentHash)
    requires Keeps(s, trace, true, TouchesOnly(hash))
    requires Keeps(s, trace, false, Private(hash)) && Keeps(s, trace, false, Steady(f))
    ensures RestOf(After(s, trace).rows, f, hash) == RestOf(s.rows, f, hash)
  {
    if |trace| > 0 {
      hide EffectOf, OnlyTouches, IsPrivate;
      var init, last := trace[..|trace| - 1], trace[|trace| - 1];
      RestStays(s, init, f, hash);
      var before := After(s, init);
      if last.own {
        TouchingKeepsRest(before.rows, EffectOf(before, last.step), f, hash);
      } else {
        PrivateKeepsHash(before, last.step, f, hash);
      }
    }
  }

  lemma {:induction false} SteadyGap(s: State, gap: seq<Move>, f: Row -> int)
    requires AllOthers(gap) && Keeps(s, gap, false, Steady(f))
    ensures Sum(After(s, gap).rows, f) == Sum(s.rows, f)
  {
    if |gap| > 0 {
      SteadyGap(s, gap[..|gap| - 1], f);
    }
  }

  lemma QuietGap(s: State, gap: seq<Move>, a: AppId)
    requires AllOthers(gap) && Keeps(s, gap, false, Quiet(a))
    ensures IsolatedBalance(After(s, gap).rows, a) == IsolatedBalance(s.rows, a)
  {
    SteadyGap(s, gap, BalanceOf(a));
  }

  lemma UnusedIsNothing(rows: seq<Row>, f: Row -> int, hash: PaymentHash)
    requires IsUnused(rows, hash)
    ensures RestOf(rows, f, hash) == Sum(rows, f)
  {
    SumOfZeros(rows, OfHash(hash, f));
  }

  /**
   Against the start of the trace, every wallet that others leave alone has moved by exactly this transfer: the sender
   has lost the amount, the recipient has gained it, and nobody else's balance has changed. `gone` are the deleted
   wallets.
   */
  ghost predicate Moved(s: State, trace: seq<Move>, rows: seq<Row>, from: Option<AppId>, to: Option<AppId>, amount: nat,
                        gone: set<AppId>)
  {
    forall a: AppId :: a !in gone && Keeps(s, trace, false, Quiet(a)) ==>
      IsolatedBalance(rows, a) == IsolatedBalance(s.rows, a) + MoveOf(from, to, amount, a)
  }

  lemma TransferMoves(s: State, trace: seq<Move>, from: Option<AppId>, to: Option<AppId>, hash: PaymentHash,
                      amount: nat)
    requires IsUnused(s.rows, hash)
    requires Keeps(s, trace, true, TouchesOnly(hash)) && Keeps(s, trace, false, Private(hash))
    ensures Transferred(After(s, trace).rows, from, to, hash, amount) ==>
              Moved(s, trace, After(s, trace).rows, from, to, amount, {})
    ensures Untouched(After(s, trace).rows, hash) ==> Moved(s, trace, After(s, trace).rows, from, to, 0, {})
  {
    hide Keeps, TouchesOnly, Private, Steady, Transferred, Untouched, Sum;
    var rows' := After(s, trace).rows;
    forall a: AppId | Keeps(s, trace, false, Quiet(a))
      ensures Transferred(rows', from, to, hash, amount) ==>
                IsolatedBalance(rows', a) == IsolatedBalance(s.rows, a) + MoveOf(from, to, amount, a)
      ensures Untouched(rows', hash) ==> IsolatedBalance(rows', a) == IsolatedBalance(s.rows, a)
    {
      UnusedIsNothing(s.rows, BalanceOf(a), hash);
      RestStays(s, trace, BalanceOf(a), hash);
      if Transferred(rows', from, to, hash, amount) {
        TransferMovesAmount(rows', from, to, hash, amount, a);
      }
      if Untouched(rows', hash) {
        UntouchedMovesNothing(rows', hash, a);
      }
    }
  }

  // ---------- the transfer ----------

  datatype TransferOutcome = NoInvoice | NotPaid | Done | Open

  /** What the transfer amounts to, if others keep the books and leave the invoice alone. */
  predicate TransferAnswer(rows: seq<Row>, out: TransferOutcome, from: Option<AppId>, to: Option<AppId>,
                           hash: PaymentHash, amount: nat)
  {
    match out
    case NoInvoice => Untouched(rows, hash)
    case NotPaid => Untouched(rows, hash)
    case Done => Transferred(rows, from, to, hash, amount)
    case Open => false
  }

  /** What the transfer relies on: the books are in order, the invoice is new and is nobody else's business. */
  ghost predicate Undisturbed(s: State, trace: seq<Move>, hash: PaymentHash)
  {
    Books(s) && IsUnused(s.rows, hash) && Keeps(s, trace, false, KeepsBooks()) && Keeps(s, trace, false, Private(hash))
  }

  /** The own payment of a private invoice. */
  lemma PaymentOfOffer(s: State, call: Call, out: Outcome, node: Reply, j: nat, to: Option<AppId>, amount: nat)
    requires var hash := Invoice(call.req.hash);
             && Offered(s.rows, j, to, hash, amount) && Books(s)
             && AllOthers(call.before) && Keeps(s, call.Trace(), false, Private(hash))
             && call.req.selfPayment && !call.req.keysend && call.req.amount == amount
             && Concluded(After(s, call.before), call, out, After(s, call.Trace()).rows, node)
    ensures var hash := Invoice(call.req.hash);
            && FairCall(After(s, call.before), call, After(s, call.Trace()).rows)
            && (out.Paid? ==> out.row == |After(s, call.before).rows|
                              && UnderWay(After(s, call.Trace()).rows, j, out.row, call.req.app, to, hash, amount)
                              && IsSettled(After(s, call.Trace()).rows[out.row], Outgoing, hash))
            && (out.Refused? || out.Errored? ==> Untouched(After(s, call.Trace()).rows, hash))
            && (out.Errored? ==> !s.rows[j].preimage)
            && !HasHold(After(s, call.Trace()).rows, hash)
            && (out.Refused? ==> Admit(After(s, call.before).apps, After(s, call.before).rows, call.req).Err?)
  {
    hide KeepsBooks, Books, PayerStep, IsPrivate, Admit, EffectOf, Next;
    var hash := Invoice(call.req.hash);
    var pay := Move(true, SendPayment(call.req));
    var head := call.before + [pay];
    var s1 := After(s, call.before);
    KeepsConcat(s, head, call.after, false, Private(hash));
    KeepsSnoc(s, call.before, pay, false, Private(hash));
    AfterConcat(s, head, call.after);
    OfferStays(s, call.before, j, to, hash, amount);
    PrivateGap(s, call.before, hash);
    if Admit(s1.apps, s1.rows, call.req).Ok? {
      PaymentUnderWay(s1, call, out, node, j, to, amount);
      NoHold(After(s, call.Trace()).rows, j, |s1.rows|, call.req.app, to, hash, amount);
    } else {
      RefusedLeavesRows(s1, call.req);
      assert After(Next(s1, SendPayment(call.req)), call.after).rows == s1.rows;
    }
  }

  lemma RefusedLeavesRows(s: State, req: Request)
    requires Admit(s.apps, s.rows, req).Err?
    ensures Next(s, SendPayment(req)).rows == s.rows
  {
  }

  lemma PaymentUnderWay(s1: State, call: Call, out: Outcome, node: Reply, j: nat, to: Option<AppId>, amount: nat)
    requires var hash := Invoice(call.req.hash);
             var s2 := Next(s1, SendPayment(call.req));
             && Offered(s1.rows, j, to, hash, amount) && Admit(s1.apps, s1.rows, call.req).Ok?
             && Keeps(s2, call.after, false, Private(hash)) && call.req.selfPayment && !call.req.keysend
             && call.req.amount == amount
             && Concluded(s1, call, out, After(s2, call.after).rows, node)
    ensures var hash := Invoice(call.req.hash);
            var rows' := After(Next(s1, SendPayment(call.req)), call.after).rows;
            && UnderWay(rows', j, |s1.rows|, call.req.app, to, hash, amount)
            && (out.Paid? ==> out.row == |s1.rows|)
            && (out.Errored? ==> Untouched(rows', hash) && !s1.rows[j].preimage)
  {
    hide PayerStep, IsPrivate, Admit, EffectOf, Next, RowEvolves;
    var hash, id := Invoice(call.req.hash), |s1.rows|;
    var s2 := Next(s1, SendPayment(call.req));
    InsertedRow(s1, call.req);
    assert UnderWay(s2.rows, j, id, call.req.app, to, hash, amount);
    StaysUnderWay(s2, call.after, j, id, call.req.app, to, hash, amount);
    if out.Errored? {
      NoneReceivedWithoutSettlement(s2, call.after, id, hash);
      if s1.rows[j].preimage {
        NeverBlocked(s2, call.after, j, hash);
      }
    }
  }

  /** A plain invoice with a known preimage that others leave alone can be paid at any moment before the payer acts. */
  lemma NeverBlocked(s: State, trace: seq<Move>, j: nat, hash: PaymentHash)
    requires j < |s.rows| && IsPendingInvoice(s.rows[j]) && s.rows[j].hash == hash && !s.rows[j].hold
             && s.rows[j].preimage
    requires forall i :: 0 <= i < |s.rows| && s.rows[i].direction == Incoming && s.rows[i].hash == hash ==> i == j
    requires Keeps(s, trace, false, Private(hash))
    ensures !Blocked(s, trace, hash)
  {
    hide Payable, Private, After, Keeps, AllOthers;
    forall k | 0 <= k <= |trace| && AllOthers(trace[..k]) ensures Payable(After(s, trace[..k]).rows, hash) {
      assert trace == trace[..k] + trace[k..];
      KeepsConcat(s, trace[..k], trace[k..], false, Private(hash));
      StaysPayable(s, trace[..k], j, hash);
    }
  }

  lemma StaysPayable(s: State, gap: seq<Move>, j: nat, hash: PaymentHash)
    requires j < |s.rows| && IsPendingInvoice(s.rows[j]) && s.rows[j].hash == hash && !s.rows[j].hold
             && s.rows[j].preimage
    requires forall i :: 0 <= i < |s.rows| && s.rows[i].direction == Incoming && s.rows[i].hash == hash ==> i == j
    requires AllOthers(gap) && Keeps(s, gap, false, Private(hash))
    ensures Payable(After(s, gap).rows, hash)
  {
    hide Private, Keeps;
    PrivateGap(s, gap, hash);
    AfterFacts(s, gap);
    assert RowEvolves(s.rows[j], After(s, gap).rows[j]);
  }

  /** No hold invoice bears the hash, so nobody waits for its owner. */
  lemma NoHold(rows: seq<Row>, j: nat, id: nat, from: Option<AppId>, to: Option<AppId>, hash: PaymentHash, amount: nat)
    requires UnderWay(rows, j, id, from, to, hash, amount)
    ensures !HasHold(rows, hash)
  {
  }

  /** The payer's row is settled with the flag it was inserted with. */
  lemma PaidAsSelfPayment(s: State, call: Call, out: Outcome, node: Reply)
    requires Keeps(s, call.Trace(), true, KeepsBooks()) && Keeps(s, call.Trace(), false, KeepsBooks())
    requires Concluded(After(s, call.before), call, out, After(s, call.Trace()).rows, node)
    requires out.Paid? && out.row == |After(s, call.before).rows| && call.req.selfPayment
    ensures out.row < |After(s, call.Trace()).rows| && After(s, call.Trace()).rows[out.row].selfPayment
  {
    hide KeepsBooks, Admit, EffectOf, PayerStep, Next;
    var pay := Move(true, SendPayment(call.req));
    var head := call.before + [pay];
    var s1 := After(s, call.before);
    AfterConcat(s, head, call.after);
    KeepsSnoc(s, call.before, pay, true, KeepsBooks());
    KeepsConcat(s, head, call.after, true, KeepsBooks());
    KeepsConcat(s, head, call.after, false, KeepsBooks());
    InsertedRow(s1, call.req);
    FlagSurvives(Next(s1, SendPayment(call.req)), call.after, |s1.rows|);
  }

  /** With the books in order, a settled payment under way has reached its recipient. */
  lemma SettledIsTransferred(s: State, j: nat, id: nat, from: Option<AppId>, to: Option<AppId>, hash: PaymentHash,
                             amount: nat)
    requires Books(s) && hash.Invoice? && UnderWay(s.rows, j, id, from, to, hash, amount)
    requires s.rows[id].status == Settled && s.rows[id].selfPayment
    ensures Transferred(s.rows, from, to, hash, amount)
  {
    assert PayerBooked(s.rows, s.rows[id]) && WellFormedRow(s.apps, s.rows[id]);
    var k :| 0 <= k < |s.rows| && SelfReceived(s.rows[k], hash) && s.rows[k].amount == amount;
    assert SameInvoice(s.rows[k], s.rows[j]);
    forall i | 0 <= i < |s.rows| && s.rows[i].hash == hash ensures i == j || i == id {
      assert s.rows[i].direction == Incoming ==> SameInvoice(s.rows[i], s.rows[j]);
    }
    assert Completes(s.rows, j, id, from, to, hash, amount);
  }

  /** The sender can pay, and nobody else moves its money meanwhile. */
  ghost predicate Affordable(s: State, trace: seq<Move>, from: Option<AppId>, amount: nat)
  {
    from.Some? ==>
      && from.value in s.apps && 0 < amount <= MAX_INT64 && amount <= IsolatedBalance(s.rows, from.value)
      && Keeps(s, trace, false, Quiet(from.value))
  }

  /** A transfer that the sender could afford when it started is not refused. */
  lemma AffordableIsAdmitted(s: State, call: Call, j: nat, to: Option<AppId>, hash: PaymentHash, amount: nat)
    requires Offered(s.rows, j, to, hash, amount) && AllOthers(call.before)
             && Keeps(s, call.Trace(), false, Private(hash))
    requires Affordable(s, call.Trace(), call.req.app, amount)
    requires call.req.IsInternal() && call.req.selfPayment && call.req.amount == amount
             && Invoice(call.req.hash) == hash
    ensures Admit(After(s, call.before).apps, After(s, call.before).rows, call.req).Ok?
  {
    hide Admit, Private, Quiet;
    var from := call.req.app;
    var rest := [Move(true, SendPayment(call.req))] + call.after;
    assert call.Trace() == call.before + rest;
    KeepsConcat(s, call.before, rest, false, Private(hash));
    OfferStays(s, call.before, j, to, hash, amount);
    var s1 := After(s, call.before);
    if from.Some? {
      KeepsConcat(s, call.before, rest, false, Quiet(from.value));
      QuietGap(s, call.before, from.value);
      AppsGrow(s, call.before);
      ReclaimAlwaysAdmitted(s1.apps, s1.rows, call.req);
    } else {
      UnownedIsAdmitted(s1, call.req);
    }
  }

  lemma UnownedIsAdmitted(s: State, req: Request)
    requires req.app.None? && forall i :: 0 <= i < |s.rows| && s.rows[i].hash == Invoice(req.hash) ==>
              s.rows[i].direction == Incoming
    ensures Admit(s.apps, s.rows, req).Ok?
  {
  }

  /** What the payment of a made invoice relies on. */
  ghost predicate OfferUndisturbed(s: State, trace: seq<Move>, j: nat, to: Option<AppId>, hash: PaymentHash,
                                   amount: nat)
  {
    Books(s) && Offered(s.rows, j, to, hash, amount) && Keeps(s, trace, false, KeepsBooks())
      && Keeps(s, trace, false, Private(hash))
  }

  function OutcomeOf(paid: Outcome): TransferOutcome
  {
    match paid
    case Paid(_) => Done
    case StillWaiting => Open
    case _ => NotPaid
  }

  /** Pays an invoice of this instance from inside: a transfer, or the sweep of a slice. */
  method PayOffer(db: Store, purpose: Purpose, from: Option<AppId>, to: Option<AppId>, amount: nat, hash: nat, now: int,
                  budgetStart: int, nodeInfoOk: bool, ghost j: nat)
    returns (paid: Outcome, ghost call: Call)
    requires Coherent(db.Abs()) && HasIncoming(db.rows, Invoice(hash))
             && (purpose.InternalTransfer? || purpose.SweepBack?)
    modifies db
    ensures AllOthers(call.before)
    ensures call.req == Request(from, hash, amount, true, false, purpose, now, budgetStart)
    ensures db.Abs() == After(old(db.Abs()), call.Trace()) && Coherent(db.Abs())
    ensures Concluded(After(old(db.Abs()), call.before), call, paid, db.rows, Rejected)
    ensures paid.StillWaiting? ==> HasHold(db.rows, Invoice(hash))
    ensures Keeps(old(db.Abs()), call.Trace(), true, TouchesOnly(Invoice(hash)))
    ensures OfferUndisturbed(old(db.Abs()), call.Trace(), j, to, Invoice(hash), amount) ==>
              && Keeps(old(db.Abs()), call.Trace(), true, KeepsBooks()) && Books(db.Abs())
              && TransferAnswer(db.rows, OutcomeOf(paid), from, to, Invoice(hash), amount)
              && (old(db.rows)[j].preimage && Affordable(old(db.Abs()), call.Trace(), from, amount) ==> paid.Paid?)
  {
    hide EffectOf, Next, Admit, KeepsBooks, PayerStep, Coherent, Books, Concluded, FairCall, Private, TouchesOnly;
    ghost var s0 := db.Abs();
    var wake;
    paid, wake, call := SendPaymentSync(db, PaymentRequest(hash, amount, true), None, purpose, from, now, budgetStart,
                                        Rejected, nodeInfoOk);
    CallTouchesOnly(s0, call, paid, Rejected);
    if OfferUndisturbed(s0, call.Trace(), j, to, Invoice(hash), amount) {
      PaymentOfOffer(s0, call, paid, Rejected, j, to, amount);
      if Affordable(s0, call.Trace(), from, amount) {
        AffordableIsAdmitted(s0, call, j, to, Invoice(hash), amount);
      }
      if paid.Paid? {
        PaidAsSelfPayment(s0, call, paid, Rejected);
        SettledIsTransferred(db.Abs(), j, paid.row, from, to, Invoice(hash), amount);
      }
    }
  }

  method PayInternally(db: Store, from: Option<AppId>, to: Option<AppId>, amount: nat, hash: nat, now: int,
                       budgetStart: int, nodeInfoOk: bool, ghost j: nat)
    returns (out: TransferOutcome, ghost trace: seq<Move>)
    requires Coherent(db.Abs()) && HasIncoming(db.rows, Invoice(hash))
    modifies db
    ensures db.Abs() == After(old(db.Abs()), trace) && Coherent(db.Abs()) && out != NoInvoice
    ensures LedgerOnly(trace) && Keeps(old(db.Abs()), trace, true, TouchesOnly(Invoice(hash)))
    ensures OfferUndisturbed(old(db.Abs()), trace, j, to, Invoice(hash), amount) ==>
              && Keeps(old(db.Abs()), trace, true, KeepsBooks()) && Books(db.Abs())
              && TransferAnswer(db.rows, out, from, to, Invoice(hash), amount)
              && (old(db.rows)[j].preimage && Affordable(old(db.Abs()), trace, from, amount) ==> out == Done)
  {
    hide Coherent, Books, Concluded, TransferAnswer, Affordable, KeepsBooks, TouchesOnly, Keeps;
    ghost var s0 := db.Abs();
    var paid;
    ghost var call;
    paid, call := PayOffer(db, InternalTransfer, from, to, amount, hash, now, budgetStart, nodeInfoOk, j);
    CallIsLedgerOnly(s0, call, paid, Rejected);
    out, trace := OutcomeOf(paid), call.Trace();
  }

  /**
   Makes the invoice and pays it. If others keep the books and leave the invoice alone, so does the transfer: reported
   done, the sender has lost exactly the amount that the recipient has gained; reported failed, neither has moved.
   */
  method Transfer(db: Store, from: Option<AppId>, to: Option<AppId>, amount: nat, hash: nat, invoiceOk: bool,
                  preimage: bool, now: int, budgetStart: int, nodeInfoOk: bool)
    returns (out: TransferOutcome, ghost trace: seq<Move>)
    requires Coherent(db.Abs())
    modifies db
    ensures db.Abs() == After(old(db.Abs()), trace) && Coherent(db.Abs())
    ensures out == NoInvoice <==> !invoiceOk
    ensures out == NoInvoice ==> AllOthers(trace)
    ensures LedgerOnly(trace) && Keeps(old(db.Abs()), trace, true, TouchesOnly(Invoice(hash)))
    ensures Undisturbed(old(db.Abs()), trace, Invoice(hash)) ==>
              && Keeps(old(db.Abs()), trace, true, KeepsBooks()) && Books(db.Abs())
              && TransferAnswer(db.rows, out, from, to, Invoice(hash), amount)
              && Moved(old(db.Abs()), trace, db.rows, from, to, if out == Done then amount else 0, {})
              && (invoiceOk && preimage && Affordable(old(db.Abs()), trace, from, amount) ==> out == Done)
  {
    hide EffectOf, Next, KeepsBooks, Coherent, Books, Private, TouchesOnly, TransferAnswer, LedgerOnly, Moved, IsUnused;
    ghost var s0 := db.Abs();
    ghost var gap := Interference(db);
    AfterFacts(s0, gap);
    OthersKeepOwnRule(s0, gap, KeepsBooks());
    OthersKeepOwnRule(s0, gap, TouchesOnly(Invoice(hash)));
    LedgerOnlyTogether(gap, Step.MakeInvoice(to, hash, amount, false, preimage, false, now), []);
    if !invoiceOk {
      if Undisturbed(s0, gap, Invoice(hash)) {
        BooksAfter(s0, gap);
        StaysUnused(s0, gap, Invoice(hash));
        AnswerMoves(s0, gap, NoInvoice, from, to, Invoice(hash), amount);
      }
      return NoInvoice, gap;
    }
    ghost var make := Step.MakeInvoice(to, hash, amount, false, preimage, false, now);
    ghost var s1 := db.Abs();
    TransactionsService.MakeInvoice(db, to, hash, amount, preimage, now);
    ghost var mint := gap + [Move(true, make)];
    OwnStepFacts(s0, gap, make);
    ghost var s2 := db.Abs();
    OfferedHasIncoming(s1, to, hash, amount, preimage, now);
    ghost var rest;
    out, rest := PayInternally(db, from, to, amount, hash, now, budgetStart, nodeInfoOk, |s1.rows|);
    trace := mint + rest;
    LedgerOnlyTogether(gap, make, rest);
    AfterConcat(s0, mint, rest);
    MintedAnswer(s0, gap, to, hash, amount, preimage, now, rest, out, from);
    if Undisturbed(s0, trace, Invoice(hash)) {
      AnswerMoves(s0, trace, out, from, to, Invoice(hash), amount);
    }
  }

  /** What holds of the payment of a new invoice holds of the invoice and its payment together. */
  lemma MintedAnswer(s0: State, gap: seq<Move>, to: Option<AppId>, hash: nat, amount: nat, preimage: bool, now: int,
                     rest: seq<Move>, out: TransferOutcome, from: Option<AppId>)
    requires AllOthers(gap)
    requires var s1 := After(s0, gap);
             var s2 := Next(s1, Step.MakeInvoice(to, hash, amount, false, preimage, false, now));
             && Keeps(s2, rest, true, TouchesOnly(Invoice(hash)))
             && (OfferUndisturbed(s2, rest, |s1.rows|, to, Invoice(hash), amount) ==>
                   && Keeps(s2, rest, true, KeepsBooks()) && Books(After(s2, rest))
                   && TransferAnswer(After(s2, rest).rows, out, from, to, Invoice(hash), amount)
                   && (s2.rows[|s1.rows|].preimage && Affordable(s2, rest, from, amount) ==> out == Done))
    ensures var make := Move(true, Step.MakeInvoice(to, hash, amount, false, preimage, false, now));
            var trace := gap + [make] + rest;
            && Keeps(s0, trace, true, TouchesOnly(Invoice(hash)))
            && (Undisturbed(s0, trace, Invoice(hash)) ==>
                  && Keeps(s0, trace, true, KeepsBooks()) && Books(After(s0, trace))
                  && TransferAnswer(After(s0, trace).rows, out, from, to, Invoice(hash), amount)
                  && (preimage && Affordable(s0, trace, from, amount) ==> out == Done))
  {
    hide Books, KeepsBooks, Private, TouchesOnly, TransferAnswer, Affordable, Next;
    var make := Step.MakeInvoice(to, hash, amount, false, preimage, false, now);
    var mint := gap + [Move(true, make)];
    AfterConcat(s0, mint, rest);
    OthersKeepOwnRule(s0, gap, KeepsBooks());
    OthersKeepOwnRule(s0, gap, TouchesOnly(Invoice(hash)));
    MintTouchesOnly(After(s0, gap), make, hash);
    KeepsSnoc(s0, gap, Move(true, make), true, TouchesOnly(Invoice(hash)));
    KeepsConcat(s0, mint, rest, true, TouchesOnly(Invoice(hash)));
    if Undisturbed(s0, mint + rest, Invoice(hash)) {
      Combine(s0, gap, make, rest, Invoice(hash));
      FreshInvoice(s0, gap, to, hash, amount, preimage, now);
      if Affordable(s0, mint + rest, from, amount) {
        StillAffordable(s0, gap, make, rest, from, amount);
      }
    }
  }

  lemma AnswerMoves(s: State, trace: seq<Move>, out: TransferOutcome, from: Option<AppId>, to: Option<AppId>,
                    hash: PaymentHash, amount: nat)
    requires Undisturbed(s, trace, hash) && Keeps(s, trace, true, TouchesOnly(hash))
    requires TransferAnswer(After(s, trace).rows, out, from, to, hash, amount)
    ensures Moved(s, trace, After(s, trace).rows, from, to, if out == Done then amount else 0, {})
  {
    hide Books, Keeps, TouchesOnly, Private, Moved, Transferred, Untouched;
    TransferMoves(s, trace, from, to, hash, amount);
  }

  lemma StaysUnused(s: State, gap: seq<Move>, hash: PaymentHash)
    requires AllOthers(gap) && Keeps(s, gap, false, Private(hash)) && IsUnused(s.rows, hash)
    ensures IsUnused(After(s, gap).rows, hash) && Untouched(After(s, gap).rows, hash)
    ensures forall from, to, amount :: TransferAnswer(After(s, gap).rows, NoInvoice, from, to, hash, amount)
  {
    PrivateGap(s, gap, hash);
  }

  /** Steps that write no payment. */
  predicate IsSilent(step: Step)
  {
    step.AddSlices? || step.ChangeApps? || step.RemoveSlice?
  }

  /** Steps that no balance depends on. */
  predicate IsNeutral(step: Step)
  {
    step.MakeInvoice? || IsSilent(step)
  }

  lemma SilentTouchesNothing(s: State, gap: seq<Move>, step: Step, rest: seq<Move>, hash: PaymentHash)
    requires AllOthers(gap) && IsSilent(step)
    ensures Keeps(Next(After(s, gap), step), rest, true, TouchesOnly(hash)) ==>
              Keeps(s, gap + [Move(true, step)] + rest, true, TouchesOnly(hash))
  {
    hide Keeps;
    OthersKeepOwnRule(s, gap, TouchesOnly(hash));
    KeepsSnoc(s, gap, Move(true, step), true, TouchesOnly(hash));
    KeepsConcat(s, gap + [Move(true, step)], rest, true, TouchesOnly(hash));
  }

  /** What a transfer relies on still holds after a step that writes no payment. */
  lemma AfterSilentStep(s: State, gap: seq<Move>, step: Step, rest: seq<Move>, hash: PaymentHash)
    requires AllOthers(gap) && IsSilent(step) && Undisturbed(s, gap + [Move(true, step)] + rest, hash)
    ensures Undisturbed(Next(After(s, gap), step), rest, hash)
    ensures Keeps(Next(After(s, gap), step), rest, true, KeepsBooks()) ==>
              Keeps(s, gap + [Move(true, step)] + rest, true, KeepsBooks())
  {
    hide Books;
    Combine(s, gap, step, rest, hash);
    OthersKeepOwnRule(s, gap, KeepsBooks());
    BooksAfter(s, gap);
    StepKeepsBooks(After(s, gap), step);
    PrivateGap(s, gap, hash);
  }

  /** Making the invoice, and what others do before that, leaves the sender's balance. */
  lemma StillAffordable(s: State, gap: seq<Move>, make: Step, rest: seq<Move>, from: Option<AppId>, amount: nat)
    requires AllOthers(gap) && IsNeutral(make) && Affordable(s, gap + [Move(true, make)] + rest, from, amount)
    ensures Affordable(Next(After(s, gap), make), rest, from, amount)
  {
    hide Quiet, Keeps;
    if from.Some? {
      var mint := gap + [Move(true, make)];
      KeepsConcat(s, mint, rest, false, Quiet(from.value));
      KeepsSnoc(s, gap, Move(true, make), false, Quiet(from.value));
      QuietGap(s, gap, from.value);
      AppsGrow(s, gap);
      NeutralStepCountsNothing(After(s, gap), make, from.value);
    }
  }

  lemma NeutralStepCountsNothing(s: State, make: Step, a: AppId)
    requires IsNeutral(make)
    ensures IsolatedBalance(Next(s, make).rows, a) == IsolatedBalance(s.rows, a)
  {
    EffectFits(s, make);
    SumApply(s.rows, EffectOf(s, make), BalanceOf(a));
  }

  /** The accounts a manual transfer may move between: isolated wallets whose balance no hub accounts for. */
  predicate MayTransfer(apps: Apps, a: Option<AppId>)
  {
    a.Some? ==>
      && a.value in apps && IsIsolatedKind(apps[a.value].kind)
      && apps[a.value].kind != JITWallet && apps[a.value].kind != CircleWallet
  }

  /** A transfer on an administrator's request: refused unless both ends may transfer, and then as Transfer. */
  method TransferFunds(db: Store, from: Option<AppId>, to: Option<AppId>, amount: nat, hash: nat, invoiceOk: bool,
                       preimage: bool, now: int, budgetStart: int, nodeInfoOk: bool)
    returns (out: Option<TransferOutcome>, ghost trace: seq<Move>)
    requires Coherent(db.Abs())
    modifies db
    ensures db.Abs() == After(old(db.Abs()), trace) && LedgerOnly(trace)
    ensures Keeps(old(db.Abs()), trace, true, TouchesOnly(Invoice(hash)))
    ensures out.None? <==>
              exists end <- [from, to] :: end.Some? &&
                (end.value !in old(db.apps)
                 || old(db.apps)[end.value].kind == Standard || old(db.apps)[end.value].kind == JITWallet
                 || old(db.apps)[end.value].kind == CircleWallet)
    ensures out.None? ==> db.Abs() == old(db.Abs())
    ensures out.Some? && Undisturbed(old(db.Abs()), trace, Invoice(hash)) ==>
              && Books(db.Abs()) && TransferAnswer(db.rows, out.value, from, to, Invoice(hash), amount)
              && Moved(old(db.Abs()), trace, db.rows, from, to, if out == Some(Done) then amount else 0, {})
              && (invoiceOk && preimage && Affordable(old(db.Abs()), trace, from, amount) ==> out.value == Done)
  {
    hide Coherent, Books, Undisturbed, TransferAnswer, Moved, TouchesOnly;
    trace := [];
    var ends := [from, to];
    for i := 0 to |ends|
      invariant forall k :: 0 <= k < i ==> MayTransfer(db.apps, ends[k])
      invariant db.Abs() == old(db.Abs())
    {
      if ends[i].Some? {
        var a := ends[i].value;
        if a !in db.apps || !IsIsolatedKind(db.apps[a].kind) {
          return None, [];
        }
        if db.apps[a].kind == JITWallet || db.apps[a].kind == CircleWallet {
          return None, [];
        }
      }
    }
    assert MayTransfer(db.apps, ends[0]) && MayTransfer(db.apps, ends[1]);
    var moved;
    moved, trace := Transfer(db, from, to, amount, hash, invoiceOk, preimage, now, budgetStart, nodeInfoOk);
    out := Some(moved);
  }

  lemma MintTouchesOnly(s: State, make: Step, hash: nat)
    requires make.MakeInvoice? && make.hash == hash
    ensures TouchesOnly(Invoice(hash))(s, make)
  {
  }

  lemma OfferedHasIncoming(s: State, to: Option<AppId>, hash: nat, amount: nat, preimage: bool, now: int)
    ensures HasIncoming(Next(s, Step.MakeInvoice(to, hash, amount, false, preimage, false, now)).rows, Invoice(hash))
  {
    var rows' := Next(s, Step.MakeInvoice(to, hash, amount, false, preimage, false, now)).rows;
    assert rows'[|s.rows|].hash == Invoice(hash) && rows'[|s.rows|].direction == Incoming;
  }

  /** A new invoice is the only row of its hash, and making it keeps the books. */
  lemma FreshInvoice(s0: State, gap: seq<Move>, to: Option<AppId>, hash: nat, amount: nat, preimage: bool, now: int)
    requires Books(s0) && AllOthers(gap) && IsUnused(s0.rows, Invoice(hash))
    requires Keeps(s0, gap, false, KeepsBooks()) && Keeps(s0, gap, false, Private(Invoice(hash)))
    ensures var s1 := After(s0, gap);
            var make := Step.MakeInvoice(to, hash, amount, false, preimage, false, now);
            && KeepsBooksIn(s1, make) && Books(Next(s1, make))
            && Offered(Next(s1, make).rows, |s1.rows|, to, Invoice(hash), amount)
            && Next(s1, make).rows[|s1.rows|].preimage == preimage
  {
    hide KeepsBooks, Private, Books;
    var s1 := After(s0, gap);
    OthersKeepOwnRule(s0, gap, KeepsBooks());
    BooksAfter(s0, gap);
    PrivateGap(s0, gap, Invoice(hash));
    assert IsUnused(s1.rows, Invoice(hash));
    StepKeepsBooks(s1, Step.MakeInvoice(to, hash, amount, false, preimage, false, now));
  }

  /** The others' promises, split at the own step that makes the invoice. */
  lemma Combine(s0: State, gap: seq<Move>, make: Step, rest: seq<Move>, hash: PaymentHash)
    requires var trace := gap + [Move(true, make)] + rest;
             Keeps(s0, trace, false, KeepsBooks()) && Keeps(s0, trace, false, Private(hash))
    ensures Keeps(s0, gap, false, KeepsBooks()) && Keeps(s0, gap, false, Private(hash))
    ensures var s2 := Next(After(s0, gap), make);
            && Keeps(s2, rest, false, KeepsBooks()) && Keeps(s2, rest, false, Private(hash))
            && (Keeps(s0, gap, true, KeepsBooks()) && KeepsBooksIn(After(s0, gap), make)
                && Keeps(s2, rest, true, KeepsBooks()) ==>
                  Keeps(s0, gap + [Move(true, make)] + rest, true, KeepsBooks()))
  {
    var mint := gap + [Move(true, make)];
    KeepsConcat(s0, mint, rest, false, KeepsBooks());
    KeepsConcat(s0, mint, rest, false, Private(hash));
    KeepsConcat(s0, mint, rest, true, KeepsBooks());
    KeepsSnoc(s0, gap, Move(true, make), false, KeepsBooks());
    KeepsSnoc(s0, gap, Move(true, make), false, Private(hash));
    KeepsSnoc(s0, gap, Move(true, make), true, KeepsBooks());
  }
}
