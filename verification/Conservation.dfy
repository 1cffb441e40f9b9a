/**
 Conservation of money: over every run that keeps the books, what all wallets together have received minus what they
 have spent is what the node received minus what it sent, up to self-payments caught between their two settlements.
 */
module Conservation {
  import opened Wrappers
  import opened Sums
  import opened Ledger
  import opened Admission
  import opened Protocol
  import opened Settlement

  ghost function Net(): Row -> int
  {
    (r: Row) =>
      if r.status != Settled then 0
      else if r.direction == Incoming then r.amount else 0 - (r.amount + r.fee + r.skim)
  }

  /** Money that crossed the node: settlements not made by self-payment interception. */
  ghost function External(): Row -> int
  {
    (r: Row) =>
      if r.status != Settled || r.selfPayment then 0
      else if r.direction == Incoming then r.amount else 0 - (r.amount + r.fee)
  }

  predicate SelfReceived(r: Row, hash: PaymentHash)
  {
    IsSettled(r, Incoming, hash) && r.selfPayment && hash.Invoice?
  }

  /** A recipient that has been credited by a payer whose own row is not settled yet. */
  ghost function InFlight(rows: seq<Row>): Row -> int
  {
    (r: Row) => if SelfReceived(r, r.hash) && !HasSettled(rows, Outgoing, r.hash) then r.amount else 0
  }

  ghost predicate Balanced(rows: seq<Row>)
  {
    Sum(rows, Net()) == Sum(rows, External()) + Sum(rows, InFlight(rows))
  }

  predicate SelfPays(r: Row, hash: PaymentHash)
  {
    r.direction == Outgoing && r.hash == hash && r.selfPayment
  }

  /** Somebody on this instance has set out to pay this hash by interception. */
  predicate HasSelfPayer(rows: seq<Row>, hash: PaymentHash)
  {
    exists i :: 0 <= i < |rows| && SelfPays(rows[i], hash)
  }

  /** All payers of a hash agree on whether it is an invoice of this instance. */
  predicate Agrees(rows: seq<Row>, hash: PaymentHash, selfPayment: bool)
  {
    forall i :: 0 <= i < |rows| && rows[i].direction == Outgoing && rows[i].hash == hash ==>
      rows[i].selfPayment == selfPayment
  }

  predicate ReceivedHere(rows: seq<Row>, hash: PaymentHash, amount: nat)
  {
    exists j :: 0 <= j < |rows| && SelfReceived(rows[j], hash) && rows[j].amount == amount
  }

  /**
   The rules of bookkeeping. Invoices have fresh hashes; all payers of a hash agree on whether it is an invoice of this
   instance, and a recipient is credited by interception only if there is such a payer; a payer settles its own row as a
   self-payment only after the recipient's row of the same amount, at no fee. A receipt through the node is always in
   order.
   */
  predicate KeepsBooksIn(s: State, step: Step)
  {
    match step
    case MakeInvoice(_, hash, _, _, _, _, _) => !HasIncoming(s.rows, Invoice(hash))
    case SendPayment(req) => Agrees(s.rows, Invoice(req.hash), req.selfPayment)
    case MarkSettled(id, fee, selfPayment) =>
      EffectOf(s, step) != Same ==>
        var r := s.rows[id];
        if r.direction == Incoming then selfPayment ==> HasSelfPayer(s.rows, r.hash)
        else selfPayment == r.selfPayment && (selfPayment ==> fee == 0 && ReceivedHere(s.rows, r.hash, r.amount))
    case _ => true
  }

  ghost function KeepsBooks(): (State, Step) -> bool
  {
    (s: State, step: Step) => KeepsBooksIn(s, step)
  }

  predicate SameInvoice(a: Row, b: Row)
  {
    a.direction == Incoming && b.direction == Incoming && a.hash == b.hash
  }

  ghost predicate OneInvoicePerHash(rows: seq<Row>)
  {
    forall i, j | 0 <= i < |rows| && 0 <= j < |rows| && SameInvoice(rows[i], rows[j]) :: i == j
  }

  predicate PayerBooked(rows: seq<Row>, r: Row)
  {
    r.direction == Outgoing ==>
      && (r.selfPayment ==> r.skim == 0 && r.fee == 0)
      && (r.status == Settled && r.selfPayment ==> ReceivedHere(rows, r.hash, r.amount))
      && Agrees(rows, r.hash, r.selfPayment)
  }

  predicate RecipientBooked(rows: seq<Row>, r: Row)
  {
    SelfReceived(r, r.hash) ==> HasSelfPayer(rows, r.hash)
  }

  ghost predicate BookedRows(apps: Apps, rows: seq<Row>)
  {
    && CoherentRows(apps, rows)
    && OneInvoicePerHash(rows)
    && (forall i :: 0 <= i < |rows| ==> PayerBooked(rows, rows[i]))
    && (forall i :: 0 <= i < |rows| ==> RecipientBooked(rows, rows[i]))
    && Balanced(rows)
  }

  ghost predicate Books(s: State)
  {
    Coherent(s) && BookedRows(s.apps, s.rows)
  }

  // ---------- the rules, one effect at a time ----------

  predicate BooksSettlement(rows: seq<Row>, id: nat, after: Row)
    requires id < |rows|
  {
    var r := rows[id];
    if r.direction == Incoming then after.selfPayment ==> HasSelfPayer(rows, r.hash)
    else
      && after.selfPayment == r.selfPayment
      && (after.selfPayment ==> after.fee == 0 && ReceivedHere(rows, r.hash, r.amount))
  }

  /** What the rules leave of the effects a step may have. */
  predicate BooksAllowed(rows: seq<Row>, e: Effect)
    requires Fits(rows, e)
  {
    match e
    case Same => true
    case Insert(row) =>
      if row.direction == Incoming then
        !HasIncoming(rows, row.hash)
      else
        row.status == Pending && row.fee == 0 && (row.selfPayment ==> row.skim == 0)
          && Agrees(rows, row.hash, row.selfPayment)
    case Update(id, after) => after.status == Settled ==> BooksSettlement(rows, id, after)
    case UpdateAndInsert(id, after, _) => BooksSettlement(rows, id, after)
  }

  lemma StepBooksAllowed(s: State, step: Step)
    requires KeepsBooksIn(s, step)
    ensures Fits(s.rows, EffectOf(s, step)) && BooksAllowed(s.rows, EffectOf(s, step))
  {
    hide Admit;
    EffectFits(s, step);
    match step
    case SendPayment(req) => SentRow(s, req);
    case _ =>
  }

  // ---------- the row invariants ----------

  lemma KeepsOneInvoice(apps: Apps, rows: seq<Row>, e: Effect)
    requires Fits(rows, e) && Allowed(apps, rows, e) && BooksAllowed(rows, e) && BookedRows(apps, rows)
    ensures OneInvoicePerHash(Apply(rows, e))
  {
    var rows' := Apply(rows, e);
    EffectEvolves(apps, rows, e);
    forall i, j | 0 <= i < j < |rows'| ensures !SameInvoice(rows'[i], rows'[j]) && !SameInvoice(rows'[j], rows'[i]) {
      assert i < |rows| && RowEvolves(rows[i], rows'[i]);
      if j < |rows| {
        assert RowEvolves(rows[j], rows'[j]) && !SameInvoice(rows[i], rows[j]);
      } else if e.UpdateAndInsert? {
        NoCreditYet(apps, rows, rows[e.id].hash);
      }
    }
  }

  lemma ReceivedHereStays(rows: seq<Row>, rows': seq<Row>, hash: PaymentHash, amount: nat)
    requires ReceivedHere(rows, hash, amount) && Evolves(rows, rows')
    ensures ReceivedHere(rows', hash, amount)
  {
    var j :| 0 <= j < |rows| && SelfReceived(rows[j], hash) && rows[j].amount == amount;
    assert RowEvolves(rows[j], rows'[j]);
    assert SelfReceived(rows'[j], hash);
  }

  /** An outgoing row keeps the flag it was admitted with. */
  lemma PayerFlagStays(apps: Apps, rows: seq<Row>, e: Effect, i: nat)
    requires Fits(rows, e) && Allowed(apps, rows, e) && BooksAllowed(rows, e) && i < |rows|
    ensures i < |Apply(rows, e)|
    ensures rows[i].direction == Outgoing ==> Apply(rows, e)[i].selfPayment == rows[i].selfPayment
    ensures rows[i].direction == Outgoing && rows[i].selfPayment && rows[i].fee == 0 ==> Apply(rows, e)[i].fee == 0
  {
  }

  lemma AgreementStays(apps: Apps, rows: seq<Row>, e: Effect, hash: PaymentHash, selfPayment: bool)
    requires Fits(rows, e) && Allowed(apps, rows, e) && BooksAllowed(rows, e)
    requires Agrees(rows, hash, selfPayment)
    requires e.Insert? && e.row.direction == Outgoing && e.row.hash == hash ==> e.row.selfPayment == selfPayment
    ensures Agrees(Apply(rows, e), hash, selfPayment)
  {
    var rows' := Apply(rows, e);
    EffectEvolves(apps, rows, e);
    forall i | 0 <= i < |rows'| && rows'[i].direction == Outgoing && rows'[i].hash == hash
      ensures rows'[i].selfPayment == selfPayment
    {
      if i < |rows| {
        assert RowEvolves(rows[i], rows'[i]);
        PayerFlagStays(apps, rows, e, i);
      }
    }
  }

  lemma KeepsPayersBooked(apps: Apps, rows: seq<Row>, e: Effect)
    requires Fits(rows, e) && Allowed(apps, rows, e) && BooksAllowed(rows, e) && BookedRows(apps, rows)
    ensures forall i :: 0 <= i < |Apply(rows, e)| ==> PayerBooked(Apply(rows, e), Apply(rows, e)[i])
  {
    var rows' := Apply(rows, e);
    forall i | 0 <= i < |rows'| && rows'[i].direction == Outgoing ensures PayerBooked(rows', rows'[i]) {
      if i < |rows| {
        OldPayerBooked(apps, rows, e, i);
      } else {
        AgreementStays(apps, rows, e, e.row.hash, e.row.selfPayment);
      }
    }
  }

  lemma OldPayerBooked(apps: Apps, rows: seq<Row>, e: Effect, i: nat)
    requires Fits(rows, e) && Allowed(apps, rows, e) && BooksAllowed(rows, e) && BookedRows(apps, rows)
    requires i < |rows| && rows[i].direction == Outgoing
    ensures i < |Apply(rows, e)| && PayerBooked(Apply(rows, e), Apply(rows, e)[i])
  {
    var r, rows' := rows[i], Apply(rows, e);
    EffectEvolves(apps, rows, e);
    assert RowEvolves(r, rows'[i]) && PayerBooked(rows, r);
    PayerFlagStays(apps, rows, e, i);
    AgreementStays(apps, rows, e, r.hash, r.selfPayment);
    if r.selfPayment && rows'[i].status == Settled {
      assert ReceivedHere(rows, r.hash, r.amount);
      ReceivedHereStays(rows, rows', r.hash, r.amount);
    }
  }

  lemma SelfPayerStays(apps: Apps, rows: seq<Row>, e: Effect, hash: PaymentHash)
    requires Fits(rows, e) && Allowed(apps, rows, e) && BooksAllowed(rows, e) && HasSelfPayer(rows, hash)
    ensures HasSelfPayer(Apply(rows, e), hash)
  {
    var i :| 0 <= i < |rows| && SelfPays(rows[i], hash);
    EffectEvolves(apps, rows, e);
    assert RowEvolves(rows[i], Apply(rows, e)[i]);
    PayerFlagStays(apps, rows, e, i);
    assert SelfPays(Apply(rows, e)[i], hash);
  }

  lemma KeepsRecipientsBooked(apps: Apps, rows: seq<Row>, e: Effect)
    requires Fits(rows, e) && Allowed(apps, rows, e) && BooksAllowed(rows, e) && BookedRows(apps, rows)
    ensures forall i :: 0 <= i < |Apply(rows, e)| ==> RecipientBooked(Apply(rows, e), Apply(rows, e)[i])
  {
    var rows' := Apply(rows, e);
    EffectEvolves(apps, rows, e);
    forall i | 0 <= i < |rows'| && SelfReceived(rows'[i], rows'[i].hash) ensures HasSelfPayer(rows', rows'[i].hash) {
      assert i < |rows|;
      assert RowEvolves(rows[i], rows'[i]) && RecipientBooked(rows, rows[i]);
      SelfPayerStays(apps, rows, e, rows[i].hash);
    }
  }

  // ---------- the balance ----------

  /** How one transaction moves the three sums, if the settled outgoing hashes stay the same. */
  lemma UnpaidEffectBalanced(apps: Apps, rows: seq<Row>, e: Effect)
    requires Fits(rows, e) && Allowed(apps, rows, e) && Balanced(rows)
    requires forall h :: HasSettled(Apply(rows, e), Outgoing, h) == HasSettled(rows, Outgoing, h)
    requires Delta(rows, e, Net()) == Delta(rows, e, External()) + Delta(rows, e, InFlight(Apply(rows, e)))
    ensures Balanced(Apply(rows, e))
  {
    var rows' := Apply(rows, e);
    SumApply(rows, e, Net());
    SumApply(rows, e, External());
    SumApply(rows, e, InFlight(rows'));
    SumCongruent(rows, InFlight(rows), InFlight(rows'));
  }

  lemma PaidHashesSame(rows: seq<Row>, rows': seq<Row>)
    requires Evolves(rows, rows')
    requires forall i :: 0 <= i < |rows'| && rows'[i].direction == Outgoing && rows'[i].status == Settled ==>
              i < |rows| && rows[i].status == Settled
    ensures forall h :: HasSettled(rows', Outgoing, h) == HasSettled(rows, Outgoing, h)
  {
    forall h ensures HasSettled(rows', Outgoing, h) == HasSettled(rows, Outgoing, h) {
      if HasSettled(rows, Outgoing, h) {
        var i :| 0 <= i < |rows| && IsSettled(rows[i], Outgoing, h);
        assert RowEvolves(rows[i], rows'[i]);
        assert IsSettled(rows'[i], Outgoing, h);
      }
      if HasSettled(rows', Outgoing, h) {
        var i :| 0 <= i < |rows'| && IsSettled(rows'[i], Outgoing, h);
        assert RowEvolves(rows[i], rows'[i]);
        assert IsSettled(rows[i], Outgoing, h);
      }
    }
  }

  predicate PaysOut(rows: seq<Row>, e: Effect)
    requires Fits(rows, e)
  {
    (e.UpdateAndInsert? || (e.Update? && e.after.status == Settled)) && rows[e.id].direction == Outgoing
  }

  /** Inserts, failures and credits to recipients: a recipient's amount comes in from outside or goes into flight. */
  lemma UnpaidBalanced(apps: Apps, rows: seq<Row>, e: Effect)
    requires Fits(rows, e) && Allowed(apps, rows, e) && BooksAllowed(rows, e) && BookedRows(apps, rows)
             && !PaysOut(rows, e)
    ensures Balanced(Apply(rows, e))
  {
    EffectEvolves(apps, rows, e);
    PaidHashesSame(rows, Apply(rows, e));
    if e.Update? {
      assert WellFormedRow(apps, rows[e.id]);
      if e.after.status == Settled && e.after.selfPayment {
        NotPaidBefore(apps, rows, e.id);
      }
    }
    UnpaidEffectBalanced(apps, rows, e);
  }

  lemma PaidMeansReceived(apps: Apps, rows: seq<Row>, i: nat, id: nat)
    requires BookedRows(apps, rows) && i < |rows| && rows[i].direction == Outgoing && rows[i].status == Settled
    requires id < |rows| && rows[id].direction == Incoming && HasSelfPayer(rows, rows[id].hash)
    ensures rows[i].hash == rows[id].hash ==> rows[id].status == Settled
  {
    var r := rows[i];
    assert PayerBooked(rows, r);
    var p :| 0 <= p < |rows| && SelfPays(rows[p], rows[id].hash);
    if r.selfPayment {
      var j :| 0 <= j < |rows| && SelfReceived(rows[j], r.hash) && rows[j].amount == r.amount;
      assert SameInvoice(rows[id], rows[j]) ==> id == j;
    }
  }

  /** A self-paid invoice whose recipient is not credited has not been paid. */
  lemma NotPaidBefore(apps: Apps, rows: seq<Row>, id: nat)
    requires BookedRows(apps, rows) && id < |rows| && rows[id].direction == Incoming && rows[id].status != Settled
    requires HasSelfPayer(rows, rows[id].hash)
    ensures !HasSettled(rows, Outgoing, rows[id].hash)
  {
    forall i | 0 <= i < |rows| && rows[i].direction == Outgoing && rows[i].status == Settled
      ensures rows[i].hash != rows[id].hash
    {
      PaidMeansReceived(apps, rows, i, id);
    }
  }

  lemma OneMoreHashPaid(rows: seq<Row>, rows': seq<Row>, id: nat)
    requires id < |rows| && Evolves(rows, rows') && rows[id].direction == Outgoing && rows'[id].status == Settled
    requires forall i :: 0 <= i < |rows'| && rows'[i].direction == Outgoing && rows'[i].status == Settled && i != id ==>
              i < |rows| && rows[i].status == Settled
    ensures forall h :: HasSettled(rows', Outgoing, h) == (HasSettled(rows, Outgoing, h) || h == rows[id].hash)
  {
    assert RowEvolves(rows[id], rows'[id]);
    forall h ensures HasSettled(rows', Outgoing, h) == (HasSettled(rows, Outgoing, h) || h == rows[id].hash) {
      if HasSettled(rows, Outgoing, h) {
        var i :| 0 <= i < |rows| && IsSettled(rows[i], Outgoing, h);
        assert RowEvolves(rows[i], rows'[i]);
        assert IsSettled(rows'[i], Outgoing, h);
      }
      if h == rows[id].hash {
        assert IsSettled(rows'[id], Outgoing, h);
      }
      if HasSettled(rows', Outgoing, h) && h != rows[id].hash {
        var i :| 0 <= i < |rows'| && IsSettled(rows'[i], Outgoing, h);
        assert RowEvolves(rows[i], rows'[i]);
        assert IsSettled(rows[i], Outgoing, h);
      }
    }
  }

  /** The payer's own settlement takes the recipient's amount out of flight. */
  lemma SelfPayerSettleMoves(apps: Apps, rows: seq<Row>, id: nat, j: nat)
    requires BookedRows(apps, rows) && id < |rows| && rows[id].direction == Outgoing && rows[id].selfPayment
    requires SettlesRow(rows, id, SettledRow(rows[id], 0, true))
    requires j < |rows| && SelfReceived(rows[j], rows[id].hash)
    ensures var rows' := rows[id := SettledRow(rows[id], 0, true)];
            Sum(rows', Net()) - Sum(rows', External()) - Sum(rows', InFlight(rows')) == rows[j].amount - rows[id].amount
  {
    var e := Update(id, SettledRow(rows[id], 0, true));
    var rows' := Apply(rows, e);
    assert PayerBooked(rows, rows[id]);
    SumApply(rows, e, Net());
    SumApply(rows, e, External());
    SumApply(rows, e, InFlight(rows'));
    OneMoreHashPaid(rows, rows', id);
    forall k | 0 <= k < |rows| && k != j ensures InFlight(rows)(rows[k]) == InFlight(rows')(rows[k]) {
      assert SameSettlement(rows[k], rows[j]) ==> k == j;
    }
    SumDiffersAt(rows, j, InFlight(rows), InFlight(rows'));
  }

  /**
   A completed self-payment balances the books exactly when payer and recipient rows hold the same amount. An amount
   override on a zero-amount invoice, or a keysend preimage used twice for different amounts, makes them differ.
   */
  lemma SelfPaymentBalancesIff(apps: Apps, rows: seq<Row>, id: nat, j: nat)
    requires BookedRows(apps, rows) && id < |rows| && rows[id].direction == Outgoing && rows[id].selfPayment
    requires SettlesRow(rows, id, SettledRow(rows[id], 0, true))
    requires j < |rows| && SelfReceived(rows[j], rows[id].hash)
    ensures Balanced(rows[id := SettledRow(rows[id], 0, true)]) == (rows[j].amount == rows[id].amount)
  {
    SelfPayerSettleMoves(apps, rows, id, j);
  }

  /**
   A receipt of the same invoice through the node, while its payer here waits for it, unbalances the books when the
   payer then settles as a self-payment, unless nothing was paid: the money has come in from outside and leaves the
   payer's wallet, but nothing has gone out.
   */
  lemma OutsideReceiptBalancesIff(apps: Apps, rows: seq<Row>, id: nat, j: nat)
    requires BookedRows(apps, rows) && id < |rows| && rows[id].direction == Outgoing && rows[id].selfPayment
    requires SettlesRow(rows, id, SettledRow(rows[id], 0, true))
    requires j < |rows| && IsSettled(rows[j], Incoming, rows[id].hash) && !rows[j].selfPayment
    ensures Balanced(rows[id := SettledRow(rows[id], 0, true)]) == (rows[id].amount == 0)
  {
    var e := Update(id, SettledRow(rows[id], 0, true));
    var rows' := Apply(rows, e);
    assert PayerBooked(rows, rows[id]);
    SumApply(rows, e, Net());
    SumApply(rows, e, External());
    SumApply(rows, e, InFlight(rows'));
    OneMoreHashPaid(rows, rows', id);
    forall k | 0 <= k < |rows| ensures InFlight(rows)(rows[k]) == InFlight(rows')(rows[k]) {
      assert SameSettlement(rows[k], rows[j]) ==> k == j;
    }
    SumCongruent(rows, InFlight(rows), InFlight(rows'));
  }

  /** A payment that left through the node, with the skim credited to the hub. */
  lemma OutsidePayerSettleBalanced(apps: Apps, rows: seq<Row>, e: Effect)
    requires Fits(rows, e) && Allowed(apps, rows, e) && BooksAllowed(rows, e) && BookedRows(apps, rows)
    requires PaysOut(rows, e) && !rows[e.id].selfPayment
    ensures Balanced(Apply(rows, e))
  {
    var rows', r := Apply(rows, e), rows[e.id];
    assert PayerBooked(rows, r) && WellFormedRow(apps, r);
    EffectEvolves(apps, rows, e);
    OneMoreHashPaid(rows, rows', e.id);
    SumApply(rows, e, Net());
    SumApply(rows, e, External());
    SumApply(rows, e, InFlight(rows'));
    forall k | 0 <= k < |rows| ensures InFlight(rows)(rows[k]) == InFlight(rows')(rows[k]) {
      assert RecipientBooked(rows, rows[k]);
      assert HasSelfPayer(rows, rows[k].hash) ==> rows[k].hash != r.hash;
    }
    SumCongruent(rows, InFlight(rows), InFlight(rows'));
  }

  lemma KeepsBalanced(apps: Apps, rows: seq<Row>, e: Effect)
    requires Fits(rows, e) && Allowed(apps, rows, e) && BooksAllowed(rows, e) && BookedRows(apps, rows)
    ensures Balanced(Apply(rows, e))
  {
    if !PaysOut(rows, e) {
      UnpaidBalanced(apps, rows, e);
    } else if rows[e.id].selfPayment {
      var r := rows[e.id];
      assert PayerBooked(rows, r);
      assert e == Update(e.id, SettledRow(r, 0, true));
      var j :| 0 <= j < |rows| && SelfReceived(rows[j], r.hash) && rows[j].amount == r.amount;
      SelfPaymentBalancesIff(apps, rows, e.id, j);
    } else {
      OutsidePayerSettleBalanced(apps, rows, e);
    }
  }

  lemma StepKeepsBooks(s: State, step: Step)
    requires Books(s) && KeepsBooksIn(s, step)
    ensures Books(Next(s, step))
  {
    hide EffectOf, Allowed, BooksAllowed, KeepsBooksIn;
    StepKeepsCoherent(s, step);
    StepAllowed(s, step);
    StepBooksAllowed(s, step);
    var e := EffectOf(s, step);
    KeepsOneInvoice(s.apps, s.rows, e);
    KeepsPayersBooked(s.apps, s.rows, e);
    KeepsRecipientsBooked(s.apps, s.rows, e);
    KeepsBalanced(s.apps, s.rows, e);
  }

  /** Conservation over any run that keeps the books. */
  lemma {:induction false} BooksStayBalanced(s: State, steps: seq<Step>)
    requires Books(s) && Along(s, steps, KeepsBooks())
    ensures Books(Run(s, steps))
  {
    if |steps| > 0 {
      BooksStayBalanced(s, steps[..|steps| - 1]);
      StepKeepsBooks(Run(s, steps[..|steps| - 1]), steps[|steps| - 1]);
    }
  }

  /** Every recipient credited by interception has been debited to its payer. */
  ghost predicate NothingInFlight(rows: seq<Row>)
  {
    forall i :: 0 <= i < |rows| && SelfReceived(rows[i], rows[i].hash) ==> HasSettled(rows, Outgoing, rows[i].hash)
  }

  ghost function NetOf(owner: Option<AppId>): Row -> int
  {
    (r: Row) => if r.app == owner then Net()(r) else 0
  }

  ghost function NetOverRows(rows: seq<Row>): Option<AppId> -> int
  {
    (owner: Option<AppId>) => Sum(rows, NetOf(owner))
  }

  /** The wallets, and the bucket of rows without an app, each listed once. */
  ghost predicate ListsOwners(owners: seq<Option<AppId>>, rows: seq<Row>)
  {
    && (forall i, j :: 0 <= i < j < |owners| ==> owners[i] != owners[j])
    && (forall i :: 0 <= i < |rows| ==> rows[i].app in owners)
  }

  lemma {:induction false} NetIsSumOverWallets(owners: seq<Option<AppId>>, rows: seq<Row>)
    requires ListsOwners(owners, rows)
    ensures Sum(owners, NetOverRows(rows)) == Sum(rows, Net())
  {
    if |rows| == 0 {
      SumOfZeros(owners, NetOverRows(rows));
    } else {
      var init, last := rows[..|rows| - 1], rows[|rows| - 1];
      NetIsSumOverWallets(owners, init);
      assert last.app in owners;
      var k :| 0 <= k < |owners| && owners[k] == last.app;
      SumDiffersAt(owners, k, NetOverRows(init), NetOverRows(rows));
    }
  }

  /** With no self-payment in flight, all wallets together hold exactly what crossed the node. */
  lemma MoneyIsConserved(steps: seq<Step>, owners: seq<Option<AppId>>)
    requires Along(Empty, steps, KeepsBooks())
    requires NothingInFlight(Run(Empty, steps).rows) && ListsOwners(owners, Run(Empty, steps).rows)
    ensures var rows := Run(Empty, steps).rows;
            Sum(owners, NetOverRows(rows)) == Sum(rows, External())
  {
    BooksStayBalanced(Empty, steps);
    var rows := Run(Empty, steps).rows;
    SumOfZeros(rows, InFlight(rows));
    NetIsSumOverWallets(owners, rows);
  }

  /** A wallet with no pending payment shows its net holdings as its balance. */
  lemma IdleBalanceIsNet(s: State, app: AppId)
    requires Coherent(s)
    requires forall i :: 0 <= i < |s.rows| && s.rows[i].app == Some(app) ==>
              s.rows[i].status != Pending || s.rows[i].direction == Incoming
    ensures IsolatedBalance(s.rows, app) == Sum(s.rows, NetOf(Some(app)))
  {
    forall i | 0 <= i < |s.rows| ensures BalanceOf(app)(s.rows[i]) == NetOf(Some(app))(s.rows[i]) {
      var r := s.rows[i];
      assert WellFormedRow(s.apps, r);
      assert NetOf(Some(app))(r) == if r.app == Some(app) then Net()(r) else 0;
      assert r.app == Some(app) && Live(r) ==> r.status == Settled;
    }
    SumCongruent(s.rows, BalanceOf(app), NetOf(Some(app)));
  }
}
