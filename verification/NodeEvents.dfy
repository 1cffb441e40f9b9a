/** ConsumeEvent: what the node reports about payments, while their payers are at work on the same rows. */
module NodeEvents {
  import opened Wrappers
  import opened Ledger
  import opened Admission
  import opened Protocol
  import opened Settlement
  import opened Threads
  import opened TransactionsService

  datatype NodeEvent =
    | PaymentReceived(hash: nat, amount: nat, fee: nat, preimage: bool, app: Option<AppId>, now: int)
    | PaymentSent(hash: nat, fee: nat, preimage: bool)
    | PaymentFailed(hash: nat)
    | HoldInvoiceAccepted(hash: nat, hasDeadline: bool)

  predicate HasRow(rows: seq<Row>, direction: Direction, status: Status, hash: PaymentHash)
  {
    exists i :: 0 <= i < |rows| && rows[i].direction == direction && rows[i].status == status && rows[i].hash == hash
  }

  predicate HasUnsettled(rows: seq<Row>, hash: PaymentHash)
  {
    HasRow(rows, Outgoing, Pending, hash) || HasRow(rows, Outgoing, Failed, hash)
  }

  /** The row j of the hash has been settled as the node reported it, and as nothing else. */
  predicate SettledAsReported(rows: seq<Row>, rows': seq<Row>, j: nat, direction: Direction, hash: PaymentHash,
                              fee: nat)
  {
    && j < |rows| && j < |rows'| && rows[j].direction == direction && rows[j].hash == hash
    && rows[j].status != Settled
    && rows'[j] == rows[j].(status := Settled, fee := fee, reserve := 0, preimage := true, selfPayment := false)
  }

  /**
   A receipt with a preimage settles an invoice of its hash that had none settled, or is booked as reported if there is
   no invoice; without a preimage it changes nothing.
   */
  predicate ReceiptAnswer(s: State, s': State, e: NodeEvent)
    requires e.PaymentReceived?
  {
    var hash := Invoice(e.hash);
    && (!e.preimage ==> s' == s)
    && (e.preimage && !HasIncoming(s.rows, hash) ==>
          && |s.rows| < |s'.rows|
          && s'.rows[|s.rows|]
             == Row(e.app, Incoming, Settled, e.amount, e.fee, 0, 0, hash, false, false, true, Ordinary, e.now))
    && (e.preimage && HasIncoming(s.rows, hash) && !HasSettled(s.rows, Incoming, hash) ==>
          exists j :: 0 <= j < |s.rows| && SettledAsReported(s.rows, s'.rows, j, Incoming, hash, e.fee))
    && (e.preimage ==> HasSettled(s'.rows, Incoming, hash))
  }

  /** A sent payment settles this row: a PENDING one of its hash, or a FAILED one if none is pending. */
  predicate BookedLate(rows: seq<Row>, rows': seq<Row>, e: NodeEvent, j: nat)
    requires e.PaymentSent?
  {
    && SettledAsReported(rows, rows', j, Outgoing, Invoice(e.hash), e.fee)
    && (rows[j].status == Pending
        || (rows[j].status == Failed && !HasRow(rows, Outgoing, Pending, Invoice(e.hash))))
  }

  /**
   A sent payment with a preimage settles a row exactly when there is one to settle and the hash is not settled yet;
   without a preimage it changes nothing.
   */
  predicate SentAnswer(s: State, s': State, e: NodeEvent, booked: Option<nat>)
    requires e.PaymentSent?
  {
    var hash := Invoice(e.hash);
    && (booked.Some? <==> e.preimage && HasUnsettled(s.rows, hash) && !HasSettled(s.rows, Outgoing, hash))
    && (booked.Some? ==> BookedLate(s.rows, s'.rows, e, booked.value))
    && (!e.preimage || !HasUnsettled(s.rows, hash) ==> s' == s)
    && (e.preimage && HasUnsettled(s.rows, hash) ==> HasSettled(s'.rows, Outgoing, hash))
  }

  predicate IsPendingPayment(r: Row, hash: PaymentHash)
  {
    r.direction == Outgoing && r.status == Pending && r.hash == hash
  }

  /** Nobody settles this row. */
  predicate LeftUnsettled(trace: seq<Move>, id: nat)
  {
    forall m <- trace :: m.step.MarkSettled? ==> m.step.id != id
  }

  /**
   A failed payment settles nothing. A PENDING row of the hash ends FAILED, unless somebody settles it meanwhile;
   without one nothing happens.
   */
  predicate FailureAnswer(s: State, s': State, e: NodeEvent, trace: seq<Move>)
    requires e.PaymentFailed?
  {
    && NoOwnSettlement(trace)
    && ((exists i :: 0 <= i < |s.rows| && IsPendingPayment(s.rows[i], Invoice(e.hash))) ==>
          exists i :: 0 <= i < |s.rows| && IsPendingPayment(s.rows[i], Invoice(e.hash))
            && i < |s'.rows| && (s'.rows[i].status == Failed || s'.rows[i].status == Settled)
            && (LeftUnsettled(trace, i) ==> s'.rows[i].status == Failed))
    && ((forall i :: 0 <= i < |s.rows| ==> !IsPendingPayment(s.rows[i], Invoice(e.hash))) ==> s' == s)
  }

  /** One pending invoice of the hash is accepted if the node names a deadline, and none otherwise. */
  predicate AcceptanceAnswer(s: State, s': State, e: NodeEvent)
    requires e.HoldInvoiceAccepted?
  {
    var hash := Invoice(e.hash);
    if e.hasDeadline && exists j :: 0 <= j < |s.rows| && IsPendingInvoice(s.rows[j]) && s.rows[j].hash == hash then
      exists j :: 0 <= j < |s.rows| && IsPendingInvoice(s.rows[j]) && s.rows[j].hash == hash
        && s'.rows == s.rows[j := s.rows[j].(status := Accepted, selfPayment := false)]
    else s' == s
  }

  /** The consumer writes payments of this hash only, no claim and no app. */
  ghost predicate StaysOn(s: State, trace: seq<Move>, hash: PaymentHash)
  {
    LedgerOnly(trace) && Keeps(s, trace, true, About(hash))
  }

  /** One transaction of the consumer, and the announcement of what it settled. */
  method SettleAndAnnounce(db: Store, id: nat, preimage: bool, fee: nat)
    returns (r: SettleOutcome, ghost trace: seq<Move>)
    requires Coherent(db.Abs()) && id < |db.rows|
    modifies db
    ensures db.Abs() == After(old(db.Abs()), trace) && Evolves(old(db.rows), db.rows)
    ensures StaysOn(old(db.Abs()), trace, old(db.rows[id]).hash)
    ensures preimage ==> HasSettled(db.rows, old(db.rows[id]).direction, old(db.rows[id]).hash)
    ensures preimage ==> 0 < |trace| && trace[0] == Move(true, MarkSettled(id, fee, false))
    ensures !preimage ==> trace == []
    ensures AnnouncesAll(old(db.Abs()), trace)
    ensures r == NowSettled <==>
              preimage && !HasSettled(old(db.rows), old(db.rows[id]).direction, old(db.rows[id]).hash)
    ensures r == NowSettled ==>
              SettledAsReported(old(db.rows), db.rows, id, old(db.rows[id]).direction, old(db.rows[id]).hash, fee)
    ensures !preimage ==> db.Abs() == old(db.Abs())
  {
    hide EffectOf, Next, Coherent, Admit, RowEvolves, Keeps;
    ghost var s0 := db.Abs();
    r := MarkTransactionSettled(db, id, preimage, fee, false);
    if !preimage {
      trace := [];
      EvolvesReflexive(db.rows);
      NoOwnStep(s0);
      return;
    }
    ghost var step := MarkSettled(id, fee, false);
    trace := [Move(true, step)];
    OneOwnStep(s0, step, s0.rows[id].hash);
    assert StaysOn(s0, trace, s0.rows[id].hash);
    SettlementStands(s0, id, fee, false);
    SettlesUnlessSettled(s0, id, fee);
    OneEvent(s0, step, RowSettled(id));
    ghost var now := db.rows;
    if r == NowSettled {
      ghost var first := trace;
      trace := Announce(db, id, s0, first);
      assert Continues(s0, first, trace, id);
      EvolvesTransitive(s0.rows, now, db.rows);
      SettledStays(now, db.rows, s0.rows[id].direction, s0.rows[id].hash);
      SettledRowStays(now, db.rows, id);
    }
  }

  /** A settlement takes effect exactly when the hash is not settled yet: a coherent state can book the credit. */
  lemma SettlesUnlessSettled(s: State, id: nat, fee: nat)
    requires Coherent(s) && id < |s.rows|
    ensures EffectOf(s, MarkSettled(id, fee, false)) != Same
            <==> !HasSettled(s.rows, s.rows[id].direction, s.rows[id].hash)
    ensures !HasSettled(s.rows, s.rows[id].direction, s.rows[id].hash) ==> s.rows[id].status != Settled
  {
    assert WellFormedRow(s.apps, s.rows[id]);
    assert s.rows[id].status == Settled ==> IsSettled(s.rows[id], s.rows[id].direction, s.rows[id].hash);
  }

  lemma NoOwnStep(s: State)
    ensures forall hash :: StaysOn(s, [], hash)
    ensures AnnouncesAll(s, [])
  {
  }

  lemma OneEvent(s: State, step: Step, e: Event)
    requires !step.Publish?
    ensures Owes(s, step) == {e} ==> OwesAtMost(s, [Move(true, step)], e)
    ensures Owes(s, step) == {} ==> AnnouncesAll(s, [Move(true, step)])
  {
    hide Owes, Next;
    NothingAnnounced(s, []);
    AnnouncedAfterStep(s, [], step);
    assert [] + [Move(true, step)] == [Move(true, step)];
  }

  lemma OneOwnStep(s: State, step: Step, hash: PaymentHash)
    ensures After(s, [Move(true, step)]) == Next(s, step) && Evolves(s.rows, Next(s, step).rows)
    ensures Coherent(s) ==> Coherent(Next(s, step))
    ensures IsLedgerStep(step) && Concerns(s, step, hash) ==> StaysOn(s, [Move(true, step)], hash)
  {
    hide Next, Coherent, Evolves, EffectOf, IsLedgerStep, Concerns;
    assert [] + [Move(true, step)] == [Move(true, step)];
    KeepsSnoc(s, [], Move(true, step), true, About(hash));
    StepEvolves(s, step);
    if Coherent(s) {
      StepKeepsCoherent(s, step);
    }
  }

  lemma SettledRowStays(rows: seq<Row>, rows': seq<Row>, id: nat)
    requires Evolves(rows, rows') && id < |rows| && rows[id].status == Settled
    ensures id < |rows'| && rows'[id] == rows[id]
  {
    assert RowEvolves(rows[id], rows'[id]);
  }

  /** A receipt settles the first invoice of its hash, or is booked as a new row if there is none. */
  method OnPaymentReceived(db: Store, e: NodeEvent) returns (ghost trace: seq<Move>)
    requires e.PaymentReceived? && Coherent(db.Abs())
    modifies db
    ensures db.Abs() == After(old(db.Abs()), trace) && Evolves(old(db.rows), db.rows)
    ensures StaysOn(old(db.Abs()), trace, Invoice(e.hash))
    ensures ReceiptAnswer(old(db.Abs()), db.Abs(), e) && AnnouncesAll(old(db.Abs()), trace)
  {
    hide EffectOf, Next, Coherent, RowEvolves, Keeps;
    ghost var s0 := db.Abs();
    var invoice := Invoice(e.hash);
    var found := FindIncoming(db, invoice);
    if found.Some? {
      var r;
      r, trace := SettleAndAnnounce(db, found.value, e.preimage, e.fee);
      return;
    }
    if !e.preimage {
      EvolvesReflexive(db.rows);
      NoOwnStep(s0);
      return [];
    }
    ghost var step := ReceiveUnknown(e.app, e.hash, e.amount, e.fee, e.now);
    ReceiptStep(s0, step);
    var id := |db.rows|;
    db.rows := db.rows + [Row(e.app, Incoming, Settled, e.amount, e.fee, 0, 0, invoice, false, false, true, Ordinary,
                              e.now)];
    db.owed := db.owed + {RowSettled(id)};
    ghost var first := [Move(true, step)];
    OneOwnStep(s0, step, invoice);
    OneEvent(s0, step, RowSettled(id));
    assert Owes(s0, step) == {RowSettled(id)} by { UnknownIsBooked(s0, step); }
    assert StaysOn(s0, first, invoice);
    ghost var now := db.rows;
    assert IsSettled(now[id], Incoming, invoice);
    trace := Announce(db, id, s0, first);
    assert Continues(s0, first, trace, id);
    EvolvesTransitive(s0.rows, now, db.rows);
    SettledStays(now, db.rows, Incoming, invoice);
    SettledRowStays(now, db.rows, id);
  }

  method FindIncoming(db: Store, hash: PaymentHash) returns (r: Option<nat>)
    ensures r.Some? ==> r.value < |db.rows| && db.rows[r.value].direction == Incoming && db.rows[r.value].hash == hash
    ensures r.None? <==> !HasIncoming(db.rows, hash)
  {
    for i := 0 to |db.rows|
      invariant forall k :: 0 <= k < i ==> !(db.rows[k].direction == Incoming && db.rows[k].hash == hash)
    {
      if db.rows[i].direction == Incoming && db.rows[i].hash == hash {
        return Some(i);
      }
    }
    r := None;
  }

  lemma UnknownIsBooked(s: State, step: Step)
    requires step.ReceiveUnknown? && !HasIncoming(s.rows, Invoice(step.hash))
    ensures Owes(s, step) == {RowSettled(|s.rows|)}
  {
  }

  lemma ReceiptStep(s: State, step: Step)
    requires step.ReceiveUnknown? && !HasIncoming(s.rows, Invoice(step.hash))
    ensures Next(s, step)
             == s.(rows := s.rows + [Row(step.app, Incoming, Settled, step.amount, step.fee, 0, 0, Invoice(step.hash),
                                                   false, false, true, Ordinary, step.now)],
                                owed := s.owed + {RowSettled(|s.rows|)})
  {
  }

  /**
   A sent payment settles a PENDING row of its hash; only without one does it settle a FAILED row late. Either way the
   hash is settled afterwards, unless the node sent no preimage or no row bears the hash.
   */
  method OnPaymentSent(db: Store, e: NodeEvent) returns (booked: Option<nat>, ghost trace: seq<Move>)
    requires e.PaymentSent? && Coherent(db.Abs())
    modifies db
    ensures db.Abs() == After(old(db.Abs()), trace) && Evolves(old(db.rows), db.rows)
    ensures StaysOn(old(db.Abs()), trace, Invoice(e.hash))
    ensures SentAnswer(old(db.Abs()), db.Abs(), e, booked) && AnnouncesAll(old(db.Abs()), trace)
  {
    hide EffectOf, Next, Coherent;
    var found := FindRow(db, Outgoing, Pending, Invoice(e.hash));
    if found.None? {
      found := FindRow(db, Outgoing, Failed, Invoice(e.hash));
    }
    booked, trace := None, [];
    EvolvesReflexive(db.rows);
    if found.None? {
      return;
    }
    var r;
    r, trace := SettleAndAnnounce(db, found.value, e.preimage, e.fee);
    if r == NowSettled {
      booked := found;
    }
  }

  /**
   A failed payment: the row is looked up before the transaction, so it may have been settled in between. It is failed
   only if it was not.
   */
  method OnPaymentFailed(db: Store, e: NodeEvent) returns (ghost trace: seq<Move>)
    requires e.PaymentFailed? && Coherent(db.Abs())
    modifies db
    ensures db.Abs() == After(old(db.Abs()), trace) && Evolves(old(db.rows), db.rows)
    ensures StaysOn(old(db.Abs()), trace, Invoice(e.hash))
    ensures FailureAnswer(old(db.Abs()), db.Abs(), e, trace) && AnnouncesAll(old(db.Abs()), trace)
  {
    hide EffectOf, Next, Coherent;
    ghost var s0 := db.Abs();
    var found := FindRow(db, Outgoing, Pending, Invoice(e.hash));
    if found.None? {
      return [];
    }
    var id := found.value;
    ghost var gap := Interference(db);
    AfterFacts(s0, gap);
    assert RowEvolves(s0.rows[id], db.rows[id]);
    ghost var now := db.rows;
    OwnStepFacts(s0, gap, MarkFailed(id));
    trace := gap + [Move(true, MarkFailed(id))];
    FailureStaysOn(s0, gap, id, Invoice(e.hash));
    NothingAnnounced(s0, gap);
    var marked := MarkPaymentFailed(db, id);
    EvolvesTransitive(s0.rows, now, db.rows);
    if LeftUnsettled(trace, id) {
      assert forall m <- gap :: m in trace;
      UnsettledStays(s0, gap, id);
    }
    assert IsPendingPayment(s0.rows[id], Invoice(e.hash));
  }

  /** Only a settlement of the row itself settles it. */
  lemma {:induction false} UnsettledStays(s: State, gap: seq<Move>, id: nat)
    requires id < |s.rows| && s.rows[id].status != Settled && LeftUnsettled(gap, id)
    ensures id < |After(s, gap).rows| && After(s, gap).rows[id].status != Settled
  {
    if |gap| > 0 {
      var init, last := gap[..|gap| - 1], gap[|gap| - 1];
      assert last in gap && forall m <- init :: m in gap;
      UnsettledStays(s, init, id);
      StepLeavesOpen(After(s, init), last.step, id);
    }
  }

  lemma StepLeavesOpen(s: State, step: Step, id: nat)
    requires id < |s.rows| && s.rows[id].status != Settled && (step.MarkSettled? ==> step.id != id)
    ensures id < |Next(s, step).rows| && Next(s, step).rows[id].status != Settled
  {
    hide Admit;
    StepEvolves(s, step);
  }

  lemma FailureStaysOn(s: State, gap: seq<Move>, id: nat, hash: PaymentHash)
    requires AllOthers(gap) && id < |After(s, gap).rows| && After(s, gap).rows[id].hash == hash
    ensures StaysOn(s, gap + [Move(true, MarkFailed(id))], hash)
  {
    OthersKeepOwnRule(s, gap, About(hash));
    KeepsSnoc(s, gap, Move(true, MarkFailed(id)), true, About(hash));
  }

  method OnHoldInvoiceAccepted(db: Store, e: NodeEvent) returns (ghost trace: seq<Move>)
    requires e.HoldInvoiceAccepted? && Coherent(db.Abs())
    modifies db
    ensures db.Abs() == After(old(db.Abs()), trace) && Evolves(old(db.rows), db.rows)
    ensures StaysOn(old(db.Abs()), trace, Invoice(e.hash))
    ensures AcceptanceAnswer(old(db.Abs()), db.Abs(), e) && AnnouncesAll(old(db.Abs()), trace)
  {
    trace := [];
    EvolvesReflexive(db.rows);
    if !e.hasDeadline {
      return;
    }
    ghost var s0 := db.Abs();
    var found := FindRow(db, Incoming, Pending, Invoice(e.hash));
    if found.None? {
      return;
    }
    var j := found.value;
    AcceptedByNode(s0, j);
    db.rows := db.rows[j := db.rows[j].(status := Accepted, selfPayment := false)];
    trace := [Move(true, AcceptHold(j, false))];
    assert trace[..0] == [];
    StepEvolves(s0, AcceptHold(j, false));
  }

  lemma AcceptedByNode(s: State, j: nat)
    requires j < |s.rows| && IsPendingInvoice(s.rows[j])
    ensures Next(s, AcceptHold(j, false))
             == s.(rows := s.rows[j := s.rows[j].(status := Accepted, selfPayment := false)])
  {
  }

  /**
   Every event leads along steps of the protocol and is answered in its own way; rows only evolve, and SETTLED is final
   whatever the node says.
   */
  method ConsumeEvent(db: Store, e: NodeEvent) returns (booked: Option<nat>, ghost trace: seq<Move>)
    requires Coherent(db.Abs())
    modifies db
    ensures db.Abs() == After(old(db.Abs()), trace) && Evolves(old(db.rows), db.rows) && Coherent(db.Abs())
    ensures StaysOn(old(db.Abs()), trace, Invoice(e.hash)) && AnnouncesAll(old(db.Abs()), trace)
    ensures e.PaymentReceived? ==> ReceiptAnswer(old(db.Abs()), db.Abs(), e)
    ensures e.PaymentSent? ==> SentAnswer(old(db.Abs()), db.Abs(), e, booked)
    ensures e.PaymentFailed? ==> FailureAnswer(old(db.Abs()), db.Abs(), e, trace)
    ensures e.HoldInvoiceAccepted? ==> AcceptanceAnswer(old(db.Abs()), db.Abs(), e)
  {
    hide EffectOf, Next, Coherent, ReceiptAnswer, SentAnswer, FailureAnswer, AcceptanceAnswer;
    ghost var s0 := db.Abs();
    booked := None;
    match e {
      case PaymentReceived(_, _, _, _, _, _) => trace := OnPaymentReceived(db, e);
      case HoldInvoiceAccepted(_, _) => trace := OnHoldInvoiceAccepted(db, e);
      case PaymentSent(_, _, _) => booked, trace := OnPaymentSent(db, e);
      case PaymentFailed(_) => trace := OnPaymentFailed(db, e);
    }
    AfterFacts(s0, trace);
  }
}
