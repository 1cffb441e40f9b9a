/**
 Hold invoices paid from inside this instance: the payer waits until the owner settles or cancels. Their two rows end
 in agreement when settling and cancelling do not overlap, and exactly then.
 */
module HoldInvoice {
  import opened Wrappers
  import opened Ledger
  import opened Admission
  import opened Protocol
  import opened Settlement
  import opened Threads
  import opened TransactionsService

  /**
   What everybody but the payer keeps for the hash: a settlement finds the recipient's row still ACCEPTED, so it does
   not overlap a cancellation; nobody else settles, fails or sweeps the payer's row; nothing arrives through the node.
   */
  predicate DisciplineIn(s: State, step: Step, hash: PaymentHash)
  {
    match step
    case MarkSettled(i, _, _) =>
      EffectOf(s, step) != Same && s.rows[i].hash == hash ==>
        s.rows[i].direction == Incoming && s.rows[i].status == Accepted
    case MarkFailed(i) => i < |s.rows| && s.rows[i].hash == hash ==> EffectOf(s, step) == Same
    case SweepStale(i) => i < |s.rows| && s.rows[i].hash == hash ==> EffectOf(s, step) == Same
    case ReceiveUnknown(_, h, _, _, _) => Invoice(h) != hash
    case _ => true
  }

  ghost function Discipline(hash: PaymentHash): (State, Step) -> bool
  {
    (s: State, step: Step) => DisciplineIn(s, step, hash)
  }

  /** A committed cancellation stands: its row is FAILED. */
  ghost predicate CancellationsStand(s: State, hash: PaymentHash)
  {
    forall e | Announced(s, e) && e.HoldCanceled? && e.row < |s.rows| && s.rows[e.row].hash == hash ::
      s.rows[e.row].status == Failed
  }

  /** The hash has no settled payer but this one. */
  predicate OnlyPayer(s: State, id: nat, hash: PaymentHash)
  {
    && id < |s.rows| && s.rows[id].direction == Outgoing && s.rows[id].hash == hash
    && forall i :: 0 <= i < |s.rows| && IsSettled(s.rows[i], Outgoing, hash) ==> i == id
  }

  ghost predicate HoldSound(s: State, id: nat, hash: PaymentHash)
  {
    Coherent(s) && hash.Invoice? && OnlyPayer(s, id, hash) && CancellationsStand(s, hash)
  }

  lemma CancellationStands(s: State, step: Step, hash: PaymentHash)
    requires Coherent(s) && CancellationsStand(s, hash)
    requires step.MarkSettled? && EffectOf(s, step) != Same && s.rows[step.id].hash == hash
             && s.rows[step.id].direction == Incoming ==>
               s.rows[step.id].status != Failed
    ensures CancellationsStand(Next(s, step), hash)
  {
    hide Admit, CoherentRows;
    var s' := Next(s, step);
    StepEvolves(s, step);
    forall e | Announced(s', e) && e.HoldCanceled? && e.row < |s'.rows| && s'.rows[e.row].hash == hash
      ensures s'.rows[e.row].status == Failed
    {
      if Announced(s, e) {
        assert EventFits(s.rows, e);
        assert RowEvolves(s.rows[e.row], s'.rows[e.row]);
      } else {
        assert e in Owes(s, step);
      }
    }
  }

  lemma PayerStaysOnly(s: State, step: Step, id: nat, hash: PaymentHash)
    requires OnlyPayer(s, id, hash) && hash.Invoice?
    requires step.MarkSettled? && EffectOf(s, step) != Same && s.rows[step.id].hash == hash ==>
               step.id == id || s.rows[step.id].direction == Incoming
    ensures OnlyPayer(Next(s, step), id, hash)
  {
    hide Admit;
    var s' := Next(s, step);
    StepEvolves(s, step);
    StepAllowed(s, step);
    assert RowEvolves(s.rows[id], s'.rows[id]);
    forall i | 0 <= i < |s'.rows| && IsSettled(s'.rows[i], Outgoing, hash) ensures i == id {
      if i < |s.rows| {
        assert RowEvolves(s.rows[i], s'.rows[i]);
        assert IsSettled(s.rows[i], Outgoing, hash) ==> i == id;
      }
    }
  }

  /** The payer's own part of the discipline. */
  predicate SettlesItself(step: Step, id: nat)
  {
    step.MarkSettled? ==> step.id == id
  }

  lemma StepKeepsHoldSound(s: State, step: Step, id: nat, hash: PaymentHash)
    requires HoldSound(s, id, hash) && (SettlesItself(step, id) || DisciplineIn(s, step, hash))
    ensures HoldSound(Next(s, step), id, hash)
  {
    hide EffectOf, Next, Coherent, CancellationsStand;
    StepKeepsCoherent(s, step);
    CancellationStands(s, step, hash);
    PayerStaysOnly(s, step, id, hash);
  }

  lemma {:induction false} HoldStaysSound(s: State, trace: seq<Move>, id: nat, hash: PaymentHash)
    requires HoldSound(s, id, hash) && SettlesOnly(trace, id) && Keeps(s, trace, false, Discipline(hash))
    ensures HoldSound(After(s, trace), id, hash)
  {
    if |trace| > 0 {
      hide HoldSound, Next, DisciplineIn;
      HoldStaysSound(s, trace[..|trace| - 1], id, hash);
      StepKeepsHoldSound(After(s, trace[..|trace| - 1]), trace[|trace| - 1].step, id, hash);
    }
  }

  /** A payer that settles nothing is settled by nobody. */
  lemma {:induction false} StaysUnsettled(s: State, trace: seq<Move>, id: nat, hash: PaymentHash)
    requires hash.Invoice? && OnlyPayer(s, id, hash) && s.rows[id].status != Settled
    requires Keeps(s, trace, false, Discipline(hash)) && NoOwnSettlement(trace)
    ensures id < |After(s, trace).rows| && After(s, trace).rows[id].hash == hash
            && After(s, trace).rows[id].direction == Outgoing
    ensures After(s, trace).rows[id].status != Settled
  {
    if |trace| > 0 {
      var init, last := trace[..|trace| - 1], trace[|trace| - 1];
      StaysUnsettled(s, init, id, hash);
      StepLeavesUnsettled(After(s, init), last.step, id);
    }
  }

  lemma StepLeavesUnsettled(s: State, step: Step, id: nat)
    requires id < |s.rows| && s.rows[id].direction == Outgoing && s.rows[id].status != Settled
    requires !step.MarkSettled? || DisciplineIn(s, step, s.rows[id].hash)
    ensures id < |Next(s, step).rows| && Next(s, step).rows[id].status != Settled
    ensures Next(s, step).rows[id].hash == s.rows[id].hash && Next(s, step).rows[id].direction == Outgoing
  {
    hide Admit;
    StepEvolves(s, step);
    assert RowEvolves(s.rows[id], Next(s, step).rows[id]);
  }

  predicate Woken(wake: Wakeup)
  {
    wake.WokenBySettle? || wake.WokenByCancel?
  }

  /** Payer and recipient of the hash ended the same way. */
  predicate Agree(rows: seq<Row>, id: nat, j: nat, hash: PaymentHash)
  {
    && id < |rows| && j < |rows| && rows[j].direction == Incoming && rows[j].hash == hash
    && ((rows[id].status == Settled && rows[j].status == Settled)
        || (rows[id].status == Failed && rows[j].status == Failed))
  }

  /**
   Agreement: once a payer that waited on a hold invoice has its answer, it is SETTLED exactly when the recipient is and
   FAILED exactly when the recipient's row was cancelled. The premises are what SendPaymentSync promises for the call.
   */
  lemma PayerAndRecipientAgree(s: State, call: Call, out: Outcome, wake: Wakeup, node: Reply)
    requires var hash := Invoice(call.req.hash);
             var s' := After(Next(s, SendPayment(call.req)), call.after);
             && Concluded(s, call, out, s'.rows, node) && Told(s', wake, out, hash, call.after, |s.rows|)
             && Coherent(s) && CancellationsStand(s, hash)
             && Keeps(Next(s, SendPayment(call.req)), call.after, false, Discipline(hash))
    requires !call.req.keysend && call.req.selfPayment && Woken(wake)
    ensures var s' := After(Next(s, SendPayment(call.req)), call.after);
            && Agree(s'.rows, |s.rows|, wake.row, Invoice(call.req.hash))
            && (s'.rows[|s.rows|].status == Settled <==> wake.WokenBySettle?)
  {
    hide EffectOf, Discipline, PayerRule, PayerStep, CancellationsStand, CoherentRows, ValidateCanPay, BreaksFullDrain;
    var hash, id := Invoice(call.req.hash), |s.rows|;
    var s1 := Next(s, SendPayment(call.req));
    var s' := After(s1, call.after);
    PaymentStarts(s, call.req);
    HoldStaysSound(s1, call.after, id, hash);
    match wake {
      case WokenBySettle(j) =>
        assert EventFits(s'.rows, RowSettled(j));
      case WokenByCancel(j) =>
        CancelledIsFailed(s', j, hash);
        StaysUnsettled(s1, call.after, id, hash);
        NobodyPaid(s', id, hash);
    }
  }

  lemma NobodyPaid(s: State, id: nat, hash: PaymentHash)
    requires OnlyPayer(s, id, hash) && s.rows[id].status != Settled
    ensures forall i :: 0 <= i < |s.rows| ==> !IsSettled(s.rows[i], Outgoing, hash)
  {
  }

  lemma CancelledIsFailed(s: State, j: nat, hash: PaymentHash)
    requires CancellationsStand(s, hash) && HoldCanceled(j) in s.log && Wakes(s.rows, HoldCanceled(j), hash)
    ensures s.rows[j].status == Failed
  {
    assert Announced(s, HoldCanceled(j));
  }

  lemma PaymentStarts(s: State, req: Request)
    requires Admit(s.apps, s.rows, req).Ok? && !req.keysend && Coherent(s) && CancellationsStand(s, Invoice(req.hash))
    ensures var s1 := Next(s, SendPayment(req));
            HoldSound(s1, |s.rows|, Invoice(req.hash)) && s1.rows[|s.rows|].status == Pending
  {
    hide Coherent, CancellationsStand, EffectOf, ValidateCanPay, BreaksFullDrain;
    StepKeepsCoherent(s, SendPayment(req));
    CancellationStands(s, SendPayment(req), Invoice(req.hash));
    InsertedRow(s, req);
    forall i | 0 <= i < |s.rows| ensures !IsSettled(s.rows[i], Outgoing, Invoice(req.hash)) {
    }
  }

  // ---------- settling and cancelling that overlap ----------

  /**
   What the agreement rests on survives a settlement of the recipient's row exactly when no cancellation of it is
   committed.
   */
  lemma CancellationsStandIff(s: State, id: nat, hash: PaymentHash, j: nat, fee: nat, selfPayment: bool)
    requires HoldSound(s, id, hash) && EffectOf(s, MarkSettled(j, fee, selfPayment)) != Same
    requires s.rows[j].direction == Incoming && s.rows[j].hash == hash
    ensures HoldSound(Next(s, MarkSettled(j, fee, selfPayment)), id, hash) <==> !Announced(s, HoldCanceled(j))
  {
    hide Coherent, Admit;
    var step := MarkSettled(j, fee, selfPayment);
    var s' := Next(s, step);
    StepKeepsCoherent(s, step);
    PayerStaysOnly(s, step, id, hash);
    assert s'.rows[j].status == Settled && s'.rows[j].hash == hash;
    if Announced(s, HoldCanceled(j)) {
      assert Announced(s', HoldCanceled(j));
    } else {
      OtherCancellationsStand(s, step, hash);
    }
  }

  lemma OtherCancellationsStand(s: State, step: Step, hash: PaymentHash)
    requires Coherent(s) && CancellationsStand(s, hash) && step.MarkSettled? && EffectOf(s, step) != Same
    requires s.rows[step.id].direction == Incoming && !Announced(s, HoldCanceled(step.id))
    ensures CancellationsStand(Next(s, step), hash)
  {
    var s' := Next(s, step);
    forall e | Announced(s', e) && e.HoldCanceled? && e.row < |s'.rows| && s'.rows[e.row].hash == hash
      ensures s'.rows[e.row].status == Failed
    {
      assert Announced(s, e) && EventFits(s.rows, e);
    }
  }

  /**
   Its owner cancels while a settlement is under way: the payer is told of the cancellation, the recipient is paid.
   */
  lemma OverlapDisagrees(s: State, id: nat, j: nat)
    requires id < |s.rows| && s.rows[id].direction == Outgoing && s.rows[id].status == Pending && s.rows[id].selfPayment
    requires j < |s.rows| && s.rows[j].direction == Incoming && s.rows[j].status == Accepted
             && s.rows[j].hash == s.rows[id].hash
    requires !HasSettled(s.rows, Incoming, s.rows[j].hash)
    ensures var steps := [CancelHold(j), Publish(HoldCanceled(j)), MarkFailed(id), MarkSettled(j, 0, true)];
            var rows' := Run(s, steps).rows;
            |rows'| == |s.rows| && rows'[id].status == Failed && rows'[j].status == Settled
              && rows'[j].amount == s.rows[j].amount
  {
    hide Next;
    RunOfFour(s, CancelHold(j), Publish(HoldCanceled(j)), MarkFailed(id), MarkSettled(j, 0, true));
    var s1 := Next(Next(s, CancelHold(j)), Publish(HoldCanceled(j)));
    RowCancelled(s, j);
    var s2 := Next(s1, MarkFailed(id));
    RowFailed(s1, id);
    forall i | 0 <= i < |s2.rows| ensures !IsSettled(s2.rows[i], Incoming, s.rows[j].hash) {
      assert i != id && i != j ==> !IsSettled(s.rows[i], Incoming, s.rows[j].hash);
    }
    RowSettles(s2, j);
  }

  lemma RunOfFour(s: State, a: Step, b: Step, c: Step, d: Step)
    ensures Run(s, [a, b, c, d]) == Next(Next(Next(Next(s, a), b), c), d)
  {
    hide Next;
    assert [a, b, c, d][..3] == [a, b, c] && [a, b, c][..2] == [a, b] && [a, b][..1] == [a] && [a][..0] == [];
    assert Run(s, [a]) == Next(s, a);
    assert Run(s, [a, b]) == Next(Next(s, a), b);
    assert Run(s, [a, b, c]) == Next(Next(Next(s, a), b), c);
  }

  lemma RowCancelled(s: State, j: nat)
    requires j < |s.rows| && s.rows[j].direction == Incoming && s.rows[j].status == Accepted
    ensures Next(Next(s, CancelHold(j)), Publish(HoldCanceled(j))).rows
             == s.rows[j := s.rows[j].(status := Failed, reserve := 0)]
  {
  }

  lemma RowFailed(s: State, id: nat)
    requires id < |s.rows| && s.rows[id].status == Pending
    ensures Next(s, MarkFailed(id)).rows == s.rows[id := s.rows[id].(status := Failed, reserve := 0)]
  {
  }

  /** Settling does not look at the status the row has in the meantime. */
  lemma RowSettles(s: State, j: nat)
    requires j < |s.rows| && s.rows[j].direction == Incoming && !HasSettled(s.rows, Incoming, s.rows[j].hash)
    ensures Next(s, MarkSettled(j, 0, true)).rows == s.rows[j := SettledRow(s.rows[j], 0, true)]
  {
  }

  // ---------- the owner ----------

  datatype OwnerOutcome = NotAccepted | NodeFailed | NotDone | Done(row: nat)

  /** Others neither cancel nor settle the hash: settling and cancelling are serialised. */
  ghost function LeavesAccepted(hash: PaymentHash): (State, Step) -> bool
  {
    (s: State, step: Step) =>
      forall i :: 0 <= i < |s.rows| && IsAccepted(s.rows[i], hash) ==>
        i < |Next(s, step).rows| && Next(s, step).rows[i] == s.rows[i]
  }

  predicate IsAccepted(r: Row, hash: PaymentHash)
  {
    r.direction == Incoming && r.status == Accepted && r.hash == hash
  }

  /** An accepted hold invoice of the hash that was paid through the node, or inside this instance. */
  predicate HasAccepted(rows: seq<Row>, hash: PaymentHash, selfPayment: bool)
  {
    exists i :: 0 <= i < |rows| && IsAccepted(rows[i], hash) && rows[i].selfPayment == selfPayment
  }

  /**
   The node is asked about an invoice that was paid through it, and its refusal is the only reason to stop there: the
   owner is told so exactly if it refused, as far as the accepted invoices of the hash are of one kind.
   */
  predicate NodeHeeded(rows: seq<Row>, out: OwnerOutcome, hash: PaymentHash, nodeOk: bool)
  {
    && (out == NodeFailed ==> !nodeOk && HasAccepted(rows, hash, false))
    && (!nodeOk && HasAccepted(rows, hash, false) && !HasAccepted(rows, hash, true) ==> out == NodeFailed)
  }

  lemma Heeded(rows: seq<Row>, j: nat, out: OwnerOutcome, hash: PaymentHash, nodeOk: bool)
    requires j < |rows| && IsAccepted(rows[j], hash)
    requires out == NodeFailed <==> !rows[j].selfPayment && !nodeOk
    ensures NodeHeeded(rows, out, hash, nodeOk)
  {
    if rows[j].selfPayment {
      assert HasAccepted(rows, hash, true);
    } else {
      assert HasAccepted(rows, hash, false);
    }
  }

  lemma NobodyToHeed(rows: seq<Row>, hash: PaymentHash, nodeOk: bool)
    requires forall i :: 0 <= i < |rows| ==> !IsAccepted(rows[i], hash)
    ensures NodeHeeded(rows, NotAccepted, hash, nodeOk)
  {
  }

  /** A receipt has no credit to book, so it settles unless its hash is settled. */
  lemma ReceiptSettles(s: State, j: nat, selfPayment: bool)
    requires j < |s.rows| && s.rows[j].direction == Incoming
    ensures EffectOf(s, MarkSettled(j, 0, selfPayment)) == Same <==> HasSettled(s.rows, Incoming, s.rows[j].hash)
  {
  }

  lemma {:induction false} AcceptedStays(s: State, gap: seq<Move>, j: nat, hash: PaymentHash)
    requires AllOthers(gap) && Keeps(s, gap, false, LeavesAccepted(hash)) && j < |s.rows| && IsAccepted(s.rows[j], hash)
    ensures j < |After(s, gap).rows| && After(s, gap).rows[j] == s.rows[j]
  {
    if |gap| > 0 {
      AcceptedStays(s, gap[..|gap| - 1], j, hash);
    }
  }

  lemma OwnStep(s: State, trace: seq<Move>, step: Step, hash: PaymentHash)
    ensures After(s, trace + [Move(true, step)]) == Next(After(s, trace), step)
    ensures Keeps(s, trace + [Move(true, step)], true, Discipline(hash)) ==
              (Keeps(s, trace, true, Discipline(hash)) && DisciplineIn(After(s, trace), step, hash))
    ensures Keeps(s, trace + [Move(true, step)], false, LeavesAccepted(hash))
             == Keeps(s, trace, false, LeavesAccepted(hash))
    ensures Keeps(s, trace, true, About(hash)) && Concerns(After(s, trace), step, hash) ==>
              Keeps(s, trace + [Move(true, step)], true, About(hash))
  {
    KeepsSnoc(s, trace, Move(true, step), true, About(hash));
    KeepsSnoc(s, trace, Move(true, step), true, Discipline(hash));
    KeepsSnoc(s, trace, Move(true, step), false, LeavesAccepted(hash));
  }

  lemma Gap(s: State, trace: seq<Move>, gap: seq<Move>, hash: PaymentHash)
    requires AllOthers(gap)
    ensures After(s, trace + gap) == After(After(s, trace), gap)
    ensures Keeps(s, trace + gap, true, Discipline(hash)) == Keeps(s, trace, true, Discipline(hash))
    ensures Keeps(s, trace + gap, false, LeavesAccepted(hash)) ==> Keeps(s, trace, false, LeavesAccepted(hash))
    ensures Keeps(s, trace, true, About(hash)) ==> Keeps(s, trace + gap, true, About(hash))
  {
    GapKeeps(s, trace, gap, About(hash));
    AfterConcat(s, trace, gap);
    KeepsConcat(s, trace, gap, true, Discipline(hash));
    KeepsConcat(s, trace, gap, false, LeavesAccepted(hash));
    OthersKeepOwnRule(After(s, trace), gap, Discipline(hash));
  }

  lemma InvoiceStays(rows: seq<Row>, rows': seq<Row>, j: nat)
    requires Evolves(rows, rows') && j < |rows|
    ensures j < |rows'| && rows'[j].direction == rows[j].direction && rows'[j].hash == rows[j].hash
    ensures rows[j].status == Settled ==> rows'[j] == rows[j]
  {
    assert RowEvolves(rows[j], rows'[j]);
  }

  lemma NothingYet(s: State, hash: PaymentHash)
    ensures After(s, []) == s && Keeps(s, [], true, About(hash)) && Keeps(s, [], true, Discipline(hash))
  {
  }

  /** Tells the subscribers, after the transaction. */
  method Tell(db: Store, e: Event, hash: PaymentHash, ghost s0: State, ghost trace0: seq<Move>)
    returns (ghost trace: seq<Move>)
    requires db.Abs() == After(s0, trace0)
    modifies db
    ensures db.Abs() == After(s0, trace) && Evolves(old(db.rows), db.rows)
    ensures Announced(old(db.Abs()), e) ==> e in db.log
    ensures Keeps(s0, trace0, true, Discipline(hash)) ==> Keeps(s0, trace, true, Discipline(hash))
    ensures Keeps(s0, trace, false, LeavesAccepted(hash)) ==> Keeps(s0, trace0, false, LeavesAccepted(hash))
    ensures LedgerOnly(trace0) ==> LedgerOnly(trace)
    ensures Keeps(s0, trace0, true, About(hash)) ==> Keeps(s0, trace, true, About(hash))
  {
    hide About, Discipline, LeavesAccepted, EffectOf, Next;
    ghost var before := db.Abs();
    ghost var gap := Interference(db);
    Gap(s0, trace0, gap, hash);
    OwnStep(s0, trace0 + gap, Publish(e), hash);
    AfterFacts(before, gap);
    StepEvolves(db.Abs(), Publish(e));
    ghost var now := db.rows;
    if Announced(before, e) {
      StaysAnnounced(before, gap, e);
      PublishedIsLogged(db.Abs(), e);
    }
    PublishEvent(db, e);
    EvolvesTransitive(before.rows, now, db.rows);
    trace := trace0 + gap + [Move(true, Publish(e))];
  }

  /**
   Settles the accepted hold invoice: look it up, ask the node unless it is a self-payment, then book it. As long as
   nobody cancels or settles it in between, the settlement keeps the discipline.
   */
  method SettleHoldInvoice(db: Store, hash: nat, nodeOk: bool) returns (out: OwnerOutcome, ghost trace: seq<Move>)
    requires Coherent(db.Abs())
    modifies db
    ensures db.Abs() == After(old(db.Abs()), trace) && LedgerOnly(trace)
    ensures Keeps(old(db.Abs()), trace, true, About(Invoice(hash)))
    ensures Keeps(old(db.Abs()), trace, false, LeavesAccepted(Invoice(hash))) ==>
              Keeps(old(db.Abs()), trace, true, Discipline(Invoice(hash)))
    ensures out.Done? ==>
              && out.row < |old(db.rows)| && IsAccepted(old(db.rows)[out.row], Invoice(hash))
              && out.row < |db.rows| && IsSettled(db.rows[out.row], Incoming, Invoice(hash))
              && db.rows[out.row].fee == 0 && db.rows[out.row].selfPayment == old(db.rows)[out.row].selfPayment
              && RowSettled(out.row) in db.log
    ensures out == NotAccepted <==> forall i :: 0 <= i < |old(db.rows)| ==> !IsAccepted(old(db.rows)[i], Invoice(hash))
    ensures NodeHeeded(old(db.rows), out, Invoice(hash), nodeOk)
    ensures out == NotDone ==>
              && 0 < |trace| && AllOthers(trace[..|trace| - 1])
              && HasSettled(After(old(db.Abs()), trace[..|trace| - 1]).rows, Incoming, Invoice(hash))
  {
    hide Discipline, LeavesAccepted, EffectOf, Next, Coherent, LedgerOnly, NodeHeeded, HasSettled, About, Keeps,
      Evolves, AllOthers;
    ghost var s0 := db.Abs();
    LedgerOnlyAround([], []);
    var found := FindRow(db, Incoming, Accepted, Invoice(hash));
    if found.None? {
      NobodyToHeed(db.rows, Invoice(hash), nodeOk);
      NothingYet(s0, Invoice(hash));
      return NotAccepted, [];
    }
    var j, selfPayment := found.value, db.rows[found.value].selfPayment;
    ghost var gap := Interference(db);
    assert [] + gap == gap;
    NothingYet(s0, Invoice(hash));
    Gap(s0, [], gap, Invoice(hash));
    AfterFacts(s0, gap);
    InvoiceStays(s0.rows, db.rows, j);
    LedgerOnlyAround(gap, []);
    if !selfPayment && !nodeOk {
      Heeded(s0.rows, j, NodeFailed, Invoice(hash), nodeOk);
      return NodeFailed, gap;
    }
    Heeded(s0.rows, j, NotDone, Invoice(hash), nodeOk);
    Heeded(s0.rows, j, Done(j), Invoice(hash), nodeOk);
    if Keeps(s0, gap, false, LeavesAccepted(Invoice(hash))) {
      AcceptedStays(s0, gap, j, Invoice(hash));
      AcceptedMaySettle(db.Abs(), j, selfPayment);
    }
    out, trace := BookReceipt(db, j, selfPayment, Invoice(hash), s0, gap);
    if out == NotDone {
      assert trace[..|gap|] == gap;
    }
  }

  /** The settling transaction, and its announcement if it has settled the row. */
  method BookReceipt(db: Store, j: nat, selfPayment: bool, hash: PaymentHash, ghost s0: State, ghost trace0: seq<Move>)
    returns (out: OwnerOutcome, ghost trace: seq<Move>)
    requires Coherent(db.Abs()) && db.Abs() == After(s0, trace0) && AllOthers(trace0)
    requires j < |db.rows| && db.rows[j].direction == Incoming && db.rows[j].hash == hash
    modifies db
    ensures db.Abs() == After(s0, trace) && LedgerOnly(trace)
    ensures Keeps(s0, trace0, true, About(hash)) ==> Keeps(s0, trace, true, About(hash))
    ensures Keeps(s0, trace, false, LeavesAccepted(hash)) ==> Keeps(s0, trace0, false, LeavesAccepted(hash))
    ensures Keeps(s0, trace0, true, Discipline(hash))
            && DisciplineIn(old(db.Abs()), MarkSettled(j, 0, selfPayment), hash) ==>
              Keeps(s0, trace, true, Discipline(hash))
    ensures out == Done(j) || out == NotDone
    ensures out == NotDone ==>
              HasSettled(old(db.rows), Incoming, hash) && trace == trace0 + [Move(true, MarkSettled(j, 0, selfPayment))]
    ensures out == Done(j) ==>
              && j < |db.rows| && IsSettled(db.rows[j], Incoming, hash) && RowSettled(j) in db.log
              && db.rows[j].fee == 0 && db.rows[j].selfPayment == selfPayment
  {
    hide Discipline, LeavesAccepted, EffectOf, Next, Coherent, LedgerOnly, HasSettled, About, Keeps, Evolves, AllOthers;
    ghost var step := MarkSettled(j, 0, selfPayment);
    LedgerOnlyAround([], []);
    LedgerOnlyTogether(trace0, step, []);
    OwnStep(s0, trace0, step, hash);
    ReceiptSettles(db.Abs(), j, selfPayment);
    SettlementIsOwed(db.Abs(), step);
    var r := MarkTransactionSettled(db, j, true, 0, selfPayment);
    ghost var booked := db.rows;
    trace := trace0 + [Move(true, step)];
    assert trace + [] == trace;
    if r != NowSettled {
      return NotDone, trace;
    }
    trace := Tell(db, RowSettled(j), hash, s0, trace);
    InvoiceStays(booked, db.rows, j);
    out := Done(j);
  }

  lemma SettlementIsOwed(s: State, step: Step)
    requires step.MarkSettled?
    ensures EffectOf(s, step) != Same ==> Announced(Next(s, step), RowSettled(step.id))
  {
  }

  lemma AcceptedMaySettle(s: State, j: nat, selfPayment: bool)
    requires j < |s.rows| && IsAccepted(s.rows[j], s.rows[j].hash)
    ensures DisciplineIn(s, MarkSettled(j, 0, selfPayment), s.rows[j].hash)
  {
  }

  /** Cancels the accepted hold invoice. The row is looked up again in the transaction that fails it. */
  method CancelHoldInvoice(db: Store, hash: nat, nodeOk: bool) returns (out: OwnerOutcome, ghost trace: seq<Move>)
    modifies db
    ensures db.Abs() == After(old(db.Abs()), trace) && LedgerOnly(trace)
    ensures Keeps(old(db.Abs()), trace, true, About(Invoice(hash)))
    ensures Keeps(old(db.Abs()), trace, true, Discipline(Invoice(hash)))
    ensures out.Done? ==>
              out.row < |db.rows| && db.rows[out.row].direction == Incoming && db.rows[out.row].hash == Invoice(hash)
                          && HoldCanceled(out.row) in db.log
    ensures out.Done? && CancellationsStand(db.Abs(), Invoice(hash)) ==> db.rows[out.row].status == Failed
    ensures NodeHeeded(old(db.rows), out, Invoice(hash), nodeOk) && out != NotDone
    ensures (forall i :: 0 <= i < |old(db.rows)| ==> !IsAccepted(old(db.rows)[i], Invoice(hash))) ==> out == NotAccepted
    ensures out == NotAccepted && Keeps(old(db.Abs()), trace, false, LeavesAccepted(Invoice(hash))) ==>
              forall i :: 0 <= i < |old(db.rows)| ==> !IsAccepted(old(db.rows)[i], Invoice(hash))
  {
    hide Discipline, LeavesAccepted, EffectOf, Next, About, LedgerOnly, NodeHeeded, Keeps, HasAccepted;
    ghost var s0 := db.Abs();
    LedgerOnlyAround([], []);
    var found := FindRow(db, Incoming, Accepted, Invoice(hash));
    if found.None? {
      NobodyToHeed(db.rows, Invoice(hash), nodeOk);
      NothingYet(s0, Invoice(hash));
      return NotAccepted, [];
    }
    var selfPayment := db.rows[found.value].selfPayment;
    ghost var gap := Interference(db);
    assert [] + gap == gap;
    NothingYet(s0, Invoice(hash));
    Gap(s0, [], gap, Invoice(hash));
    LedgerOnlyAround(gap, []);
    if !selfPayment && !nodeOk {
      Heeded(s0.rows, found.value, NodeFailed, Invoice(hash), nodeOk);
      return NodeFailed, gap;
    }
    ghost var first := found.value;
    Heeded(s0.rows, first, NotAccepted, Invoice(hash), nodeOk);
    found := FindRow(db, Incoming, Accepted, Invoice(hash));
    if found.None? {
      if Keeps(s0, gap, false, LeavesAccepted(Invoice(hash))) {
        AcceptedStays(s0, gap, first, Invoice(hash));
      }
      return NotAccepted, gap;
    }
    var j := found.value;
    OwnStep(s0, gap, CancelHold(j), Invoice(hash));
    CancelIsFail(db.Abs(), j, Invoice(hash));
    LedgerOnlyTogether(gap, CancelHold(j), []);
    assert gap + [Move(true, CancelHold(j))] + [] == gap + [Move(true, CancelHold(j))];
    db.rows := db.rows[j := db.rows[j].(status := Failed, reserve := 0)];
    db.owed := db.owed + {HoldCanceled(j)};
    ghost var cancelled := db.rows;
    trace := Tell(db, HoldCanceled(j), Invoice(hash), s0, gap + [Move(true, CancelHold(j))]);
    assert RowEvolves(cancelled[j], db.rows[j]);
    assert Announced(db.Abs(), HoldCanceled(j));
    Heeded(s0.rows, first, Done(j), Invoice(hash), nodeOk);
    out := Done(j);
  }

  lemma CancelIsFail(s: State, j: nat, hash: PaymentHash)
    requires j < |s.rows| && IsAccepted(s.rows[j], hash)
    ensures Next(s, CancelHold(j))
             == s.(rows := s.rows[j := s.rows[j].(status := Failed, reserve := 0)], owed := s.owed + {HoldCanceled(j)})
    ensures DisciplineIn(s, CancelHold(j), hash)
  {
  }
}
