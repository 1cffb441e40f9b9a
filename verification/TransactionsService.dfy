/**
 The payment path of transactions_service.go on the shared database, one method per db.Transaction body and the two
 payment calls built from them, with arbitrary interference between any two bodies.
 */
module TransactionsService {
  import opened Wrappers
  import opened Ledger
  import opened Admission
  import opened Protocol
  import opened Settlement
  import opened Conservation
  import opened Threads

  /** What the node, or the interception of a self-payment, answers. A success may lack a preimage. */
  datatype Reply = Sent(preimage: bool, fee: nat) | Rejected

  datatype SettleOutcome = NowSettled | AlreadySettled | NoPreimage | CreditFailed

  /** `Paid(row)` returns the settled row of the hash, which another payer may own. */
  datatype Outcome = Refused(why: Refusal) | Errored | Paid(row: nat) | StillWaiting

  /** A decoded bolt11 invoice; msat 0 leaves the amount to the payer. */
  datatype PaymentRequest = PaymentRequest(hash: nat, msat: nat, payeeIsUs: bool)

  function PaymentAmount(invoice: PaymentRequest, amount: Option<nat>): nat
  {
    if amount.Some? && invoice.msat == 0 then amount.value else invoice.msat
  }

  // ---------- transaction bodies ----------

  method InsertOutgoing(db: Store, req: Request) returns (r: Result<nat, Refusal>)
    modifies db
    ensures db.Abs() == Next(old(db.Abs()), SendPayment(req))
    ensures r == match Admit(old(db.apps), old(db.rows), req) case Ok(_) => Ok(|old(db.rows)|) case Err(why) => Err(why)
    ensures forall why :: Order(why) <= 3 || FitsUint64(old(db.apps), old(db.rows), req) ==>
              (r == Err(why) <==> FirstStop(old(db.apps), old(db.rows), req, why))
  {
    JustRefusals(db.apps, db.rows, req);
    hide FitsUint64, FirstStop;
    match Admit(db.apps, db.rows, req)
    case Err(why) =>
      r := Err(why);
    case Ok(row) =>
      r := Ok(|db.rows|);
      db.rows := db.rows + [row];
  }

  /** MakeInvoice without a liquidity hint: the recipient's pending row for the invoice the node returned. */
  method MakeInvoice(db: Store, app: Option<AppId>, hash: nat, amount: nat, preimage: bool, now: int)
    modifies db`rows
    ensures db.Abs() == Next(old(db.Abs()), Step.MakeInvoice(app, hash, amount, false, preimage, false, now))
  {
    db.rows := db.rows + [Row(app, Incoming, Pending, amount, 0, 0, 0, Invoice(hash), false, false, preimage, Ordinary,
                              now)];
  }

  method MarkTransactionSettled(db: Store, id: nat, preimage: bool, fee: nat, selfPayment: bool)
    returns (r: SettleOutcome)
    requires id < |db.rows|
    modifies db
    ensures preimage ==> db.Abs() == Next(old(db.Abs()), MarkSettled(id, fee, selfPayment))
    ensures !preimage ==> db.Abs() == old(db.Abs())
    ensures r == NoPreimage <==> !preimage
    ensures r == AlreadySettled ==> HasSettled(old(db.rows), old(db.rows[id]).direction, old(db.rows[id]).hash)
    ensures r == NowSettled <==> preimage && EffectOf(old(db.Abs()), MarkSettled(id, fee, selfPayment)) != Same
    ensures r == NowSettled ==> id < |db.rows| && db.rows[id] == SettledRow(old(db.rows[id]), fee, selfPayment)
  {
    hide Admit;
    if !preimage {
      return NoPreimage;
    }
    var tx := db.rows[id];
    if HasSettled(db.rows, tx.direction, tx.hash) {
      return AlreadySettled;
    }
    var before := db.rows;
    db.rows := db.rows[id := SettledRow(tx, fee, selfPayment)];
    if tx.direction == Outgoing && tx.skim > 0 {
      var credited := CreditCircleHubFeeSkim(db, tx);
      if !credited {
        db.rows := before;
        return CreditFailed;
      }
    }
    db.owed := db.owed + {RowSettled(id)};
    r := NowSettled;
  }

  /**
   Fails, and rolls the settlement back, when the paying app is gone; an app without a parent earns nobody a credit.
   */
  method CreditCircleHubFeeSkim(db: Store, tx: Row) returns (ok: bool)
    modifies db`rows
    ensures ok <==> tx.app.Some? && tx.app.value in db.apps
    ensures db.rows == old(db.rows) +
              (if ok && db.apps[tx.app.value].parent.Some? then
                 [Row(db.apps[tx.app.value].parent, Incoming, Settled, tx.skim, 0, 0, 0, FeeSkimOf(tx.hash), true,
                      false, false, Ordinary, tx.createdAt)]
               else [])
  {
    if tx.app.None? || tx.app.value !in db.apps {
      return false;
    }
    var parent := db.apps[tx.app.value].parent;
    if parent.Some? {
      db.rows := db.rows + [FeeCredit(parent.value, tx)];
    }
    ok := true;
  }

  method MarkPaymentFailed(db: Store, id: nat) returns (marked: bool)
    requires id < |db.rows|
    modifies db
    ensures db.Abs() == Next(old(db.Abs()), MarkFailed(id))
    ensures marked <==> old(db.rows[id]).status != Failed && old(db.rows[id]).status != Settled
    ensures id < |db.rows| && db.rows[id].direction == old(db.rows[id]).direction
            && db.rows[id].hash == old(db.rows[id]).hash
    ensures db.rows[id].status == (if marked then Failed else old(db.rows[id]).status)
  {
    var status := db.rows[id].status;
    if status == Failed || status == Settled {
      return false;
    }
    db.rows := db.rows[id := db.rows[id].(status := Failed, reserve := 0)];
    marked := true;
  }

  method PublishEvent(db: Store, e: Event)
    modifies db
    ensures db.Abs() == Next(old(db.Abs()), Publish(e))
  {
    if e in db.owed {
      db.log := db.log + [e];
      db.owed := db.owed - {e};
    }
  }

  /** The first row a query for these columns returns. */
  method FindRow(db: Store, direction: Direction, status: Status, hash: PaymentHash) returns (r: Option<nat>)
    ensures r.Some? ==> r.value < |db.rows| && db.rows[r.value].direction == direction
                        && db.rows[r.value].status == status && db.rows[r.value].hash == hash
    ensures r.None? ==> forall i :: 0 <= i < |db.rows| ==>
              !(db.rows[i].direction == direction && db.rows[i].status == status && db.rows[i].hash == hash)
  {
    for i := 0 to |db.rows|
      invariant forall k :: 0 <= k < i ==>
                  !(db.rows[k].direction == direction && db.rows[k].status == status && db.rows[k].hash == hash)
    {
      var row := db.rows[i];
      if row.direction == direction && row.status == status && row.hash == hash {
        return Some(i);
      }
    }
    r := None;
  }

  // ---------- what survives interference ----------

  predicate IsPendingInvoice(r: Row)
  {
    r.direction == Incoming && r.status == Pending
  }

  predicate IsPlainInvoice(r: Row)
  {
    r.direction == Incoming && !r.hold
  }

  predicate OfOneHash(rows: seq<Row>, i: nat, j: nat)
  {
    i < |rows| && j < |rows| && rows[i].hash == rows[j].hash
  }

  predicate OwnsHash(rows: seq<Row>, payer: nat, hash: PaymentHash)
  {
    payer < |rows| && rows[payer].hash == hash
  }

  /** The steps a payer takes on its own behalf once its row exists. */
  predicate PayerStep(s: State, step: Step, id: nat)
  {
    match step
    case MarkSettled(i, fee, selfPayment) =>
      i == id || (OfOneHash(s.rows, i, id) && IsPlainInvoice(s.rows[i]) && fee == 0 && selfPayment)
    case MarkFailed(i) => i == id
    case Publish(_) => true
    case AcceptHold(i, selfPayment) => OfOneHash(s.rows, i, id) && selfPayment
    case MakeInvoice(_, hash, amount, hold, _, _, _) =>
      id < |s.rows| && s.rows[id].hash == Invoice(hash) && s.rows[id].amount == amount && !hold
    case _ => false
  }

  /** No row is settled by this goroutine. */
  predicate NoOwnSettlement(trace: seq<Move>)
  {
    forall m <- trace :: m.own ==> !m.step.MarkSettled?
  }

  /** This goroutine settles no row but its own. */
  predicate SettlesOnly(trace: seq<Move>, id: nat)
  {
    forall m <- trace :: m.own && m.step.MarkSettled? ==> m.step.id == id
  }

  /** Whenever this goroutine settles this row, it books this fee and this flag. */
  predicate BooksAs(trace: seq<Move>, id: nat, fee: nat, selfPayment: bool)
  {
    forall m <- trace :: m.own && m.step.MarkSettled? && m.step.id == id ==> m.step == MarkSettled(id, fee, selfPayment)
  }

  /** The fee that the node reported is the one that is booked; an intercepted payment costs none. */
  predicate BookedAsReported(trace: seq<Move>, id: nat, selfPayment: bool, node: Reply)
  {
    if selfPayment then BooksAs(trace, id, 0, true)
    else if node.Rejected? || !node.preimage then NoOwnSettlement(trace)
    else BooksAs(trace, id, node.fee, false) && Move(true, MarkSettled(id, node.fee, false)) in trace
  }

  ghost function PayerRule(id: nat): (State, Step) -> bool
  {
    (s: State, step: Step) => PayerStep(s, step, id)
  }

  ghost predicate OwnPayerSteps(s: State, trace: seq<Move>, id: nat)
  {
    Keeps(s, trace, true, PayerRule(id))
  }

  /** The step writes rows of this hash only, and the hub credit that one of them earns; it changes no app. */
  predicate Concerns(s: State, step: Step, hash: PaymentHash)
  {
    match step
    case MarkSettled(i, _, _) => i < |s.rows| ==> s.rows[i].hash == hash
    case MarkFailed(i) => i < |s.rows| ==> s.rows[i].hash == hash
    case SweepStale(i) => i < |s.rows| ==> s.rows[i].hash == hash
    case AcceptHold(i, _) => i < |s.rows| ==> s.rows[i].hash == hash
    case CancelHold(i) => i < |s.rows| ==> s.rows[i].hash == hash
    case MakeInvoice(_, h, _, _, _, _, _) => Invoice(h) == hash
    case ReceiveUnknown(_, h, _, _, _) => Invoice(h) == hash
    case SendPayment(req) => Invoice(req.hash) == hash
    case ChangeApps(_) => false
    case _ => true
  }

  ghost function About(hash: PaymentHash): (State, Step) -> bool
  {
    (s: State, step: Step) => Concerns(s, step, hash)
  }

  /** A payer writes rows of its own hash only. */
  lemma {:induction false} PayerConcerns(s: State, trace: seq<Move>, id: nat)
    requires id < |s.rows| && OwnPayerSteps(s, trace, id)
    ensures Keeps(s, trace, true, About(s.rows[id].hash))
  {
    if |trace| > 0 {
      hide Next;
      var init := trace[..|trace| - 1];
      PayerConcerns(s, init, id);
      AfterFacts(s, init);
      assert RowEvolves(s.rows[id], After(s, init).rows[id]);
    }
  }

  /** This goroutine changes no app, writes no claim and pays no slice. */
  predicate LedgerOnly(trace: seq<Move>)
  {
    forall m <- trace :: m.own ==> IsLedgerStep(m.step)
  }

  lemma LedgerOnlyAround(gap: seq<Move>, rest: seq<Move>)
    requires AllOthers(gap)
    ensures LedgerOnly(gap) && (LedgerOnly(rest) ==> LedgerOnly(gap + rest))
  {
  }

  lemma LedgerOnlyTogether(gap: seq<Move>, step: Step, rest: seq<Move>)
    requires AllOthers(gap) && IsLedgerStep(step)
    ensures LedgerOnly(gap)
    ensures LedgerOnly(rest) ==> LedgerOnly(gap + [Move(true, step)] + rest)
  {
  }

  lemma {:induction false} PayerIsLedgerOnly(s: State, trace: seq<Move>, id: nat)
    requires OwnPayerSteps(s, trace, id)
    ensures LedgerOnly(trace)
  {
    if |trace| > 0 {
      PayerIsLedgerOnly(s, trace[..|trace| - 1], id);
      assert trace == trace[..|trace| - 1] + [trace[|trace| - 1]];
    }
  }

  lemma {:induction false} AfterFacts(s: State, trace: seq<Move>)
    ensures Evolves(s.rows, After(s, trace).rows)
    ensures Coherent(s) ==> Coherent(After(s, trace))
  {
    if |trace| > 0 {
      var init, last := trace[..|trace| - 1], trace[|trace| - 1];
      AfterFacts(s, init);
      StepEvolves(After(s, init), last.step);
      EvolvesTransitive(s.rows, After(s, init).rows, After(s, trace).rows);
      if Coherent(s) {
        StepKeepsCoherent(After(s, init), last.step);
      }
    }
  }

  lemma {:induction false} LogGrows(s: State, trace: seq<Move>)
    ensures s.log <= After(s, trace).log
  {
    if |trace| > 0 {
      LogGrows(s, trace[..|trace| - 1]);
    }
  }

  predicate Announced(s: State, e: Event)
  {
    e in s.owed || e in s.log
  }

  /** An event that is owed is published by somebody or still owed. */
  lemma {:induction false} StaysAnnounced(s: State, trace: seq<Move>, e: Event)
    requires Announced(s, e)
    ensures Announced(After(s, trace), e)
  {
    if |trace| > 0 {
      StaysAnnounced(s, trace[..|trace| - 1], e);
    }
  }

  lemma PublishedIsLogged(s: State, e: Event)
    requires Announced(s, e)
    ensures e in Next(s, Publish(e)).log
  {
  }

  /** The settlements and cancellations of this goroutine. */
  ghost function OwnEvents(s: State, trace: seq<Move>): set<Event>
  {
    if |trace| == 0 then {}
    else
      var init, last := trace[..|trace| - 1], trace[|trace| - 1];
      OwnEvents(s, init) + (if last.own then Owes(After(s, init), last.step) else {})
  }

  /** Whatever this goroutine has settled or cancelled is published. */
  ghost predicate AnnouncesAll(s: State, trace: seq<Move>)
  {
    forall e <- OwnEvents(s, trace) :: e in After(s, trace).log
  }

  /** Only this event is left to be published. */
  ghost predicate OwesAtMost(s: State, trace: seq<Move>, e: Event)
  {
    Announced(After(s, trace), e) && forall x <- OwnEvents(s, trace) :: x == e || x in After(s, trace).log
  }

  lemma {:induction false} EventsOfGap(s: State, trace: seq<Move>, gap: seq<Move>)
    requires AllOthers(gap)
    ensures OwnEvents(s, trace + gap) == OwnEvents(s, trace)
  {
    if |gap| == 0 {
      assert trace + gap == trace;
    } else {
      var init := gap[..|gap| - 1];
      EventsOfGap(s, trace, init);
      assert (trace + gap)[..|trace + gap| - 1] == trace + init;
    }
  }

  lemma EventsOfStep(s: State, trace: seq<Move>, step: Step)
    ensures OwnEvents(s, trace + [Move(true, step)]) == OwnEvents(s, trace) + Owes(After(s, trace), step)
  {
    assert (trace + [Move(true, step)])[..|trace|] == trace;
  }

  lemma {:induction false} EventsConcat(s: State, a: seq<Move>, b: seq<Move>)
    ensures OwnEvents(s, a + b) == OwnEvents(s, a) + OwnEvents(After(s, a), b)
  {
    if |b| == 0 {
      assert a + b == a;
    } else {
      var init := b[..|b| - 1];
      EventsConcat(s, a, init);
      AfterConcat(s, a, init);
      assert (a + b)[..|a + b| - 1] == a + init;
    }
  }

  lemma AnnouncedTogether(s: State, a: seq<Move>, b: seq<Move>)
    requires AnnouncesAll(s, a) && AnnouncesAll(After(s, a), b)
    ensures AnnouncesAll(s, a + b)
  {
    EventsConcat(s, a, b);
    AfterConcat(s, a, b);
    LogGrows(After(s, a), b);
  }

  lemma AnnouncedAfterGap(s: State, trace: seq<Move>, gap: seq<Move>)
    requires AllOthers(gap)
    ensures AnnouncesAll(s, trace) ==> AnnouncesAll(s, trace + gap)
  {
    EventsOfGap(s, trace, gap);
    AfterConcat(s, trace, gap);
    LogGrows(After(s, trace), gap);
  }

  lemma AnnouncedAfterStep(s: State, trace: seq<Move>, step: Step)
    ensures AnnouncesAll(s, trace) && Owes(After(s, trace), step) == {} ==> AnnouncesAll(s, trace + [Move(true, step)])
    ensures forall e :: AnnouncesAll(s, trace) && Owes(After(s, trace), step) == {e} && !step.Publish? ==>
              OwesAtMost(s, trace + [Move(true, step)], e)
  {
    hide Owes;
    EventsOfStep(s, trace, step);
    assert After(s, trace + [Move(true, step)]) == Next(After(s, trace), step) by {
      assert (trace + [Move(true, step)])[..|trace|] == trace;
    }
    LogGrows(After(s, trace), [Move(true, step)]);
    assert [Move(true, step)][..0] == [];
  }

  lemma NothingAnnounced(s: State, gap: seq<Move>)
    requires AllOthers(gap)
    ensures AnnouncesAll(s, []) && AnnouncesAll(s, gap)
  {
    EventsOfGap(s, [], gap);
    assert [] + gap == gap;
  }

  /** The gap and the publication after a settlement. */
  lemma LastIsAnnounced(s: State, trace: seq<Move>, gap: seq<Move>, e: Event)
    requires AllOthers(gap)
    ensures OwesAtMost(s, trace, e) ==> AnnouncesAll(s, trace + gap + [Move(true, Publish(e))])
  {
    if OwesAtMost(s, trace, e) {
      var s1, s2 := After(s, trace), After(s, trace + gap);
      AfterConcat(s, trace, gap);
      EventsOfGap(s, trace, gap);
      EventsOfStep(s, trace + gap, Publish(e));
      StaysAnnounced(s1, gap, e);
      LogGrows(s1, gap);
      PublishedIsLogged(s2, e);
      assert After(s, trace + gap + [Move(true, Publish(e))]) == Next(s2, Publish(e)) by {
        assert (trace + gap + [Move(true, Publish(e))])[..|trace + gap|] == trace + gap;
      }
    }
  }

  lemma {:induction false} AppsGrow(s: State, trace: seq<Move>)
    ensures Extends(s.apps, After(s, trace).apps)
  {
    if |trace| > 0 {
      AppsGrow(s, trace[..|trace| - 1]);
    }
  }

  /** A gap appended to a trace: nothing of ours is broken, and the state only evolves. */
  lemma GapFacts(s: State, trace: seq<Move>, gap: seq<Move>)
    requires AllOthers(gap)
    ensures After(s, trace + gap) == After(After(s, trace), gap)
    ensures Evolves(After(s, trace).rows, After(s, trace + gap).rows)
    ensures Coherent(s) ==> Coherent(After(s, trace + gap))
    ensures Keeps(s, trace + gap, true, KeepsBooks()) == Keeps(s, trace, true, KeepsBooks())
    ensures forall id: nat :: OwnPayerSteps(s, trace + gap, id) == OwnPayerSteps(s, trace, id)
    ensures AnnouncesAll(s, trace) ==> AnnouncesAll(s, trace + gap)
  {
    hide Next, Keeps, KeepsBooks, PayerRule, Coherent, Evolves, AnnouncesAll;
    AnnouncedAfterGap(s, trace, gap);
    AfterConcat(s, trace, gap);
    AfterFacts(After(s, trace), gap);
    AfterFacts(s, trace + gap);
    GapKeeps(s, trace, gap, KeepsBooks());
    forall id: nat ensures OwnPayerSteps(s, trace + gap, id) == OwnPayerSteps(s, trace, id) {
      GapKeeps(s, trace, gap, PayerRule(id));
    }
  }

  lemma GapKeeps(s: State, trace: seq<Move>, gap: seq<Move>, rule: (State, Step) -> bool)
    requires AllOthers(gap)
    ensures Keeps(s, trace + gap, true, rule) == Keeps(s, trace, true, rule)
  {
    KeepsConcat(s, trace, gap, true, rule);
    OthersKeepOwnRule(After(s, trace), gap, rule);
  }

  lemma OwnStepFacts(s: State, trace: seq<Move>, step: Step)
    ensures After(s, trace + [Move(true, step)]) == Next(After(s, trace), step)
    ensures Evolves(After(s, trace).rows, After(s, trace + [Move(true, step)]).rows)
    ensures Coherent(s) ==> Coherent(After(s, trace + [Move(true, step)]))
    ensures Keeps(s, trace + [Move(true, step)], true, KeepsBooks())
         == (Keeps(s, trace, true, KeepsBooks()) && KeepsBooksIn(After(s, trace), step))
    ensures forall id: nat :: OwnPayerSteps(s, trace + [Move(true, step)], id)
                           == (OwnPayerSteps(s, trace, id) && PayerStep(After(s, trace), step, id))
    ensures AnnouncesAll(s, trace) && Owes(After(s, trace), step) == {} ==> AnnouncesAll(s, trace + [Move(true, step)])
    ensures forall e :: AnnouncesAll(s, trace) && Owes(After(s, trace), step) == {e} && !step.Publish? ==>
              OwesAtMost(s, trace + [Move(true, step)], e)
  {
    hide Next, KeepsBooksIn, PayerStep, Coherent, Evolves, Keeps, AnnouncesAll, OwesAtMost, Owes;
    AnnouncedAfterStep(s, trace, step);
    KeepsSnoc(s, trace, Move(true, step), true, KeepsBooks());
    forall id: nat ensures OwnPayerSteps(s, trace + [Move(true, step)], id)
                        == (OwnPayerSteps(s, trace, id) && PayerStep(After(s, trace), step, id)) {
      KeepsSnoc(s, trace, Move(true, step), true, PayerRule(id));
    }
    StepEvolves(After(s, trace), step);
    AfterFacts(s, trace + [Move(true, step)]);
  }

  lemma SettledStays(rows: seq<Row>, rows': seq<Row>, direction: Direction, hash: PaymentHash)
    requires Evolves(rows, rows') && HasSettled(rows, direction, hash)
    ensures HasSettled(rows', direction, hash)
  {
    var i :| 0 <= i < |rows| && IsSettled(rows[i], direction, hash);
    assert RowEvolves(rows[i], rows'[i]);
    assert IsSettled(rows'[i], direction, hash);
  }

  // ---------- the common tail of SendPaymentSync and SendKeysend ----------

  /** The payer may book the reply: its flag is the row's, and an intercepted payment has reached its recipient. */
  predicate BooksReady(rows: seq<Row>, id: nat, reply: Reply, selfPayment: bool)
    requires id < |rows|
  {
    && (rows[id].status == Settled || selfPayment == rows[id].selfPayment)
    && (selfPayment && reply.Sent? ==> reply.fee == 0 && ReceivedHere(rows, rows[id].hash, rows[id].amount))
  }

  lemma OwnSettlementKeepsBooks(rows: seq<Row>, s: State, id: nat, reply: Reply, selfPayment: bool)
    requires id < |rows| && rows[id].direction == Outgoing && Evolves(rows, s.rows)
    requires BooksReady(rows, id, reply, selfPayment) && reply.Sent?
    ensures KeepsBooksIn(s, MarkSettled(id, reply.fee, selfPayment))
  {
    var r := s.rows[id];
    assert RowEvolves(rows[id], r);
    if selfPayment {
      var j :| 0 <= j < |rows| && SelfReceived(rows[j], rows[id].hash) && rows[j].amount == rows[id].amount;
      assert RowEvolves(rows[j], s.rows[j]);
      assert SelfReceived(s.rows[j], r.hash) && s.rows[j].amount == r.amount;
    }
    assert HasSettled(s.rows, r.direction, r.hash) || !IsSettled(r, r.direction, r.hash);
  }

  /**
   A longer trace of the same payer: it only evolves the rows, and its added moves are a payer's and keep the books.
   */
  ghost predicate Continues(s: State, trace: seq<Move>, longer: seq<Move>, id: nat)
  {
    && trace <= longer
    && Evolves(After(s, trace).rows, After(s, longer).rows)
    && (OwnPayerSteps(s, trace, id) ==> OwnPayerSteps(s, longer, id))
    && (Keeps(s, trace, true, KeepsBooks()) ==> Keeps(s, longer, true, KeepsBooks()))
    && (SettlesOnly(trace, id) ==> SettlesOnly(longer, id))
    && (forall fee, flag :: BooksAs(trace, id, fee, flag) ==> BooksAs(longer, id, fee, flag))
    && (AnnouncesAll(s, trace) ==> AnnouncesAll(s, longer))
  }

  /** Reads the settled row of the hash, if there is one. */
  method ReadBack(db: Store, id: nat, hash: PaymentHash, ghost s0: State, ghost trace0: seq<Move>)
    returns (out: Outcome, ghost trace: seq<Move>)
    requires Coherent(s0) && db.Abs() == After(s0, trace0)
    requires id < |db.rows| && (db.rows[id].status == Failed || HasSettled(db.rows, Outgoing, hash))
    requires db.rows[id].direction == Outgoing && db.rows[id].hash == hash
    modifies db
    ensures db.Abs() == After(s0, trace) && Continues(s0, trace0, trace, id)
    ensures id < |db.rows|
    ensures out.Errored? || (out.Paid? && out.row < |db.rows| && IsSettled(db.rows[out.row], Outgoing, hash))
    ensures out.Errored? ==> db.rows[id].status == Failed
    ensures NoOwnSettlement(trace0) ==> NoOwnSettlement(trace)
  {
    hide KeepsBooks, PayerStep, Next;
    ghost var before := db.rows;
    ghost var gap := Interference(db);
    GapFacts(s0, trace0, gap);
    trace := trace0 + gap;
    assert RowEvolves(before[id], db.rows[id]);
    if HasSettled(before, Outgoing, hash) {
      SettledStays(before, db.rows, Outgoing, hash);
    }
    var found := FindRow(db, Outgoing, Settled, hash);
    out := if found.Some? then Paid(found.value) else Errored;
    assert found.None? ==> forall i :: 0 <= i < |db.rows| ==> !IsSettled(db.rows[i], Outgoing, hash);
  }

  lemma AnnouncingConcerns(s: State, trace: seq<Move>, gap: seq<Move>, publish: Step)
    requires AllOthers(gap) && publish.Publish?
    ensures forall hash :: Keeps(s, trace, true, About(hash)) ==>
              Keeps(s, trace + gap + [Move(true, publish)], true, About(hash))
  {
    hide Keeps;
    forall hash | Keeps(s, trace, true, About(hash))
      ensures Keeps(s, trace + gap + [Move(true, publish)], true, About(hash))
    {
      GapKeeps(s, trace, gap, About(hash));
      KeepsSnoc(s, trace + gap, Move(true, publish), true, About(hash));
    }
  }

  /** Publishes a settlement after the transaction that made it. */
  method Announce(db: Store, id: nat, ghost s0: State, ghost trace0: seq<Move>) returns (ghost trace: seq<Move>)
    requires Coherent(s0) && db.Abs() == After(s0, trace0)
    modifies db
    ensures db.Abs() == After(s0, trace)
    ensures forall payer: nat :: Continues(s0, trace0, trace, payer)
    ensures LedgerOnly(trace0) ==> LedgerOnly(trace)
    ensures forall hash :: Keeps(s0, trace0, true, About(hash)) ==> Keeps(s0, trace, true, About(hash))
    ensures OwesAtMost(s0, trace0, RowSettled(id)) ==> AnnouncesAll(s0, trace)
  {
    hide Admit, EffectOf, KeepsBooks, Next;
    ghost var gap := Interference(db);
    GapFacts(s0, trace0, gap);
    PublishEvent(db, RowSettled(id));
    OwnStepFacts(s0, trace0 + gap, Publish(RowSettled(id)));
    trace := trace0 + gap + [Move(true, Publish(RowSettled(id)))];
    AnnouncingConcerns(s0, trace0, gap, Publish(RowSettled(id)));
    LastIsAnnounced(s0, trace0, gap, RowSettled(id));
    EvolvesTransitive(After(s0, trace0).rows, After(s0, trace0 + gap).rows, db.rows);
  }

  /** The error branch: fail the row, unless it is already failed or settled. */
  method ConcludeRejected(db: Store, id: nat, ghost s0: State, ghost trace0: seq<Move>)
    returns (out: Outcome, ghost trace: seq<Move>)
    requires Coherent(s0) && db.Abs() == After(s0, trace0)
    requires id < |db.rows| && db.rows[id].direction == Outgoing
    modifies db
    ensures db.Abs() == After(s0, trace) && Continues(s0, trace0, trace, id)
    ensures id < |db.rows|
    ensures out.Errored?
            || (out.Paid? && out.row < |db.rows| && IsSettled(db.rows[out.row], Outgoing, old(db.rows[id]).hash))
    ensures out.Errored? ==> db.rows[id].status == Failed
    ensures NoOwnSettlement(trace0) ==> NoOwnSettlement(trace)
  {
    hide Admit, EffectOf, KeepsBooks, Next;
    var hash := db.rows[id].hash;
    ghost var before := db.rows;
    var marked := MarkPaymentFailed(db, id);
    OwnStepFacts(s0, trace0, MarkFailed(id));
    ghost var trace1 := trace0 + [Move(true, MarkFailed(id))];
    if marked {
      out, trace := Errored, trace1;
    } else {
      assert before[id].status == Settled ==> IsSettled(before[id], Outgoing, hash);
      out, trace := ReadBack(db, id, hash, s0, trace1);
      EvolvesTransitive(before, After(s0, trace1).rows, db.rows);
    }
  }

  /** The success branch: settle the row, unless the hash is already settled, and tell everybody who settled it. */
  method ConcludeSent(db: Store, id: nat, reply: Reply, selfPayment: bool, ghost s0: State, ghost trace0: seq<Move>)
    returns (out: Outcome, ghost trace: seq<Move>)
    requires reply.Sent? && reply.preimage
    requires Coherent(s0) && db.Abs() == After(s0, trace0)
    requires id < |db.rows| && db.rows[id].direction == Outgoing
    modifies db
    ensures db.Abs() == After(s0, trace) && trace0 <= trace
    ensures Evolves(After(s0, trace0).rows, After(s0, trace).rows)
    ensures OwnPayerSteps(s0, trace0, id) ==> OwnPayerSteps(s0, trace, id)
    ensures KeepsBooksIn(old(db.Abs()), MarkSettled(id, reply.fee, selfPayment))
            && Keeps(s0, trace0, true, KeepsBooks()) ==>
              Keeps(s0, trace, true, KeepsBooks())
    ensures SettlesOnly(trace0, id) ==> SettlesOnly(trace, id)
    ensures AllOthers(trace0) ==> BooksAs(trace, id, reply.fee, selfPayment)
    ensures Move(true, MarkSettled(id, reply.fee, selfPayment)) in trace
    ensures AnnouncesAll(s0, trace0) ==> AnnouncesAll(s0, trace)
    ensures out.Paid? && out.row < |db.rows| && IsSettled(db.rows[out.row], Outgoing, old(db.rows[id]).hash)
  {
    hide Admit, EffectOf, KeepsBooks, KeepsBooksIn, Next, Coherent, Keeps, SettledOnce;
    ghost var before := db.Abs();
    var hash := db.rows[id].hash;
    AfterFacts(s0, trace0);
    var r := MarkTransactionSettled(db, id, true, reply.fee, selfPayment);
    OwnStepFacts(s0, trace0, MarkSettled(id, reply.fee, selfPayment));
    SettlementStands(before, id, reply.fee, selfPayment);
    ghost var trace1 := trace0 + [Move(true, MarkSettled(id, reply.fee, selfPayment))];
    assert Move(true, MarkSettled(id, reply.fee, selfPayment)) in trace1;
    assert AllOthers(trace0) ==> BooksAs(trace1, id, reply.fee, selfPayment);
    if r == NowSettled {
      assert IsSettled(db.rows[id], Outgoing, hash);
      ghost var now := db.rows;
      trace := Announce(db, id, s0, trace1);
      assert Continues(s0, trace1, trace, id);
      assert RowEvolves(now[id], db.rows[id]);
      out := Paid(id);
    } else {
      out, trace := ReadBackSettled(db, hash, s0, trace1, id);
    }
    EvolvesTransitive(before.rows, After(s0, trace1).rows, db.rows);
  }

  /** Another goroutine settled the hash first; its row is the one to return. */
  method ReadBackSettled(db: Store, hash: PaymentHash, ghost s0: State, ghost trace0: seq<Move>, ghost payer: nat)
    returns (out: Outcome, ghost trace: seq<Move>)
    requires Coherent(s0) && db.Abs() == After(s0, trace0) && HasSettled(db.rows, Outgoing, hash)
    modifies db
    ensures db.Abs() == After(s0, trace) && Continues(s0, trace0, trace, payer)
    ensures out.Paid? && out.row < |db.rows| && IsSettled(db.rows[out.row], Outgoing, hash)
  {
    hide KeepsBooks, PayerStep, Next;
    ghost var before := db.rows;
    ghost var gap := Interference(db);
    GapFacts(s0, trace0, gap);
    trace := trace0 + gap;
    SettledStays(before, db.rows, Outgoing, hash);
    ghost var i :| 0 <= i < |db.rows| && IsSettled(db.rows[i], Outgoing, hash);
    var found := FindRow(db, Outgoing, Settled, hash);
    assert db.rows[i].direction == Outgoing && db.rows[i].status == Settled && db.rows[i].hash == hash;
    out := Paid(found.value);
  }

  /**
   What the caller is told once the reply is in. An error means that the caller's row is FAILED, unless a success came
   without a preimage; a success means that a settled row of this hash exists.
   */
  method Conclude(db: Store, id: nat, reply: Reply, selfPayment: bool) returns (out: Outcome, ghost trace: seq<Move>)
    requires id < |db.rows| && db.rows[id].direction == Outgoing && Coherent(db.Abs())
    modifies db
    ensures db.Abs() == After(old(db.Abs()), trace)
    ensures Evolves(old(db.rows), db.rows)
    ensures OwnPayerSteps(old(db.Abs()), trace, id)
    ensures BooksReady(old(db.rows), id, reply, selfPayment) ==> Keeps(old(db.Abs()), trace, true, KeepsBooks())
    ensures out.Errored?
            || (out.Paid? && out.row < |db.rows| && IsSettled(db.rows[out.row], Outgoing, old(db.rows[id]).hash))
    ensures out.Errored? && db.rows[id].status != Failed ==> reply.Sent? && !reply.preimage
    ensures reply.Sent? ==> if reply.preimage then out.Paid? else out.Errored?
    ensures out.Errored? || reply.Rejected? ==> NoOwnSettlement(trace)
    ensures SettlesOnly(trace, id)
    ensures reply.Sent? ==> BooksAs(trace, id, reply.fee, selfPayment)
    ensures reply.Sent? && reply.preimage ==> Move(true, MarkSettled(id, reply.fee, selfPayment)) in trace
    ensures AnnouncesAll(old(db.Abs()), trace)
  {
    hide Admit, EffectOf, KeepsBooks, KeepsBooksIn, Next, PayerStep, BooksReady;
    ghost var s0 := db.Abs();
    ghost var gap := Interference(db);
    assert [] + gap == gap;
    GapFacts(s0, [], gap);
    assert RowEvolves(s0.rows[id], db.rows[id]);
    ghost var now := db.rows;
    if reply.Rejected? {
      out, trace := ConcludeRejected(db, id, s0, gap);
    } else if !reply.preimage {
      var r := MarkTransactionSettled(db, id, false, reply.fee, selfPayment);
      out, trace := Errored, gap;
      return;
    } else {
      if BooksReady(s0.rows, id, reply, selfPayment) {
        OwnSettlementKeepsBooks(s0.rows, db.Abs(), id, reply, selfPayment);
      }
      out, trace := ConcludeSent(db, id, reply, selfPayment, s0, gap);
    }
    EvolvesTransitive(s0.rows, now, db.rows);
  }

  /** After its settlement step, a row's hash is settled whoever settled it: a coherent state can book the credit. */
  lemma SettlementStands(s: State, id: nat, fee: nat, selfPayment: bool)
    requires Coherent(s) && id < |s.rows|
    ensures HasSettled(Next(s, MarkSettled(id, fee, selfPayment)).rows, s.rows[id].direction, s.rows[id].hash)
  {
    var step := MarkSettled(id, fee, selfPayment);
    assert WellFormedRow(s.apps, s.rows[id]);
    if EffectOf(s, step) != Same {
      assert IsSettled(Next(s, step).rows[id], s.rows[id].direction, s.rows[id].hash);
    }
  }

  // ---------- self-payments ----------

  /** How the payer of a hold invoice of this instance was released. */
  datatype Wakeup = NotHold | WokenBySettle(row: nat) | WokenByCancel(row: nat) | Waiting

  /** The consumer registered for a hold invoice reacts to the settlement or the cancellation of its hash. */
  predicate Wakes(rows: seq<Row>, e: Event, hash: PaymentHash)
  {
    e.row < |rows| && rows[e.row].direction == Incoming && rows[e.row].hash == hash
  }

  predicate WokenWith(s: State, wake: Wakeup, reply: Reply, hash: PaymentHash)
  {
    match wake
    case NotHold => true
    case WokenBySettle(i) => reply == Sent(true, 0) && RowSettled(i) in s.log && Wakes(s.rows, RowSettled(i), hash)
    case WokenByCancel(i) => reply == Rejected && HoldCanceled(i) in s.log && Wakes(s.rows, HoldCanceled(i), hash)
    case Waiting => false
  }

  predicate WakeupFits(db: Store, wake: Wakeup, reply: Option<Reply>, hash: PaymentHash)
    reads db
  {
    if reply.None? then wake == Waiting else WokenWith(db.Abs(), wake, reply.value, hash)
  }

  predicate Delivers(wake: Wakeup, e: Event)
  {
    match e
    case RowSettled(i) => wake == WokenBySettle(i)
    case HoldCanceled(i) => wake == WokenByCancel(i)
  }

  /** The event at this place of the log is the first one since the registration that concerns the hash. */
  predicate FirstWake(s: State, hash: PaymentHash, registered: nat, at: nat)
  {
    registered <= at < |s.log| && Wakes(s.rows, s.log[at], hash)
    && forall k :: registered <= k < at ==> !Wakes(s.rows, s.log[k], hash)
  }

  /** What the payer's two channels deliver: the first event since the registration that concerns the hash. */
  method AwaitHoldUpdate(db: Store, hash: PaymentHash, registered: nat) returns (reply: Option<Reply>, wake: Wakeup)
    requires registered <= |db.log|
    ensures wake != NotHold && WakeupFits(db, wake, reply, hash)
    ensures wake != Waiting ==>
              exists at: nat :: FirstWake(db.Abs(), hash, registered, at) && Delivers(wake, db.log[at])
    ensures wake == Waiting ==> forall e <- db.log[registered..] :: !Wakes(db.rows, e, hash)
  {
    for i := registered to |db.log|
      invariant forall k :: registered <= k < i ==> !Wakes(db.rows, db.log[k], hash)
    {
      var e := db.log[i];
      if Wakes(db.rows, e, hash) {
        assert FirstWake(db.Abs(), hash, registered, i);
        match e
        case RowSettled(row) => return Some(Sent(true, 0)), WokenBySettle(row);
        case HoldCanceled(row) => return Some(Rejected), WokenByCancel(row);
      }
    }
    reply, wake := None, Waiting;
  }

  /**
   A pending invoice of the hash, if there is one, is now accepted as a self-payment, and no other row has changed.
   */
  predicate AcceptedOne(rows: seq<Row>, rows': seq<Row>, hash: PaymentHash)
  {
    if exists i :: 0 <= i < |rows| && IsPendingInvoice(rows[i]) && rows[i].hash == hash then
      exists j :: 0 <= j < |rows| && IsPendingInvoice(rows[j]) && rows[j].hash == hash
        && rows' == rows[j := rows[j].(status := Accepted, selfPayment := true)]
    else rows' == rows
  }

  predicate IsAwaited(rows: seq<Row>, j: nat, hash: PaymentHash)
  {
    j < |rows| && IsPendingInvoice(rows[j]) && rows[j].hash == hash
  }

  ghost predicate AcceptsAt(s: State, trace: seq<Move>, k: nat, hash: PaymentHash)
  {
    k < |trace| && trace[k].own && trace[k].step.AcceptHold? && trace[k].step.selfPayment
    && IsAwaited(After(s, trace[..k]).rows, trace[k].step.id, hash)
  }

  ghost predicate NoneAwaitedAt(s: State, trace: seq<Move>, k: nat, hash: PaymentHash)
  {
    k <= |trace| && forall j: nat :: !IsAwaited(After(s, trace[..k]).rows, j, hash)
  }

  /** This goroutine has accepted a pending invoice of the hash as a self-payment, or has found none any more. */
  ghost predicate TookUp(s: State, trace: seq<Move>, hash: PaymentHash)
  {
    exists k: nat :: AcceptsAt(s, trace, k, hash) || NoneAwaitedAt(s, trace, k, hash)
  }

  lemma TakenUpInLonger(s: State, trace: seq<Move>, longer: seq<Move>, hash: PaymentHash)
    requires TookUp(s, trace, hash) && trace <= longer
    ensures TookUp(s, longer, hash)
  {
    hide After, IsAwaited;
    var k: nat :| AcceptsAt(s, trace, k, hash) || NoneAwaitedAt(s, trace, k, hash);
    assert longer[..k] == trace[..k];
    assert AcceptsAt(s, longer, k, hash) || NoneAwaitedAt(s, longer, k, hash);
  }

  lemma TakenUpNow(s: State, trace: seq<Move>, found: Option<nat>, hash: PaymentHash)
    requires found.Some? ==> IsAwaited(After(s, trace).rows, found.value, hash)
    requires found.None? ==> forall j: nat :: !IsAwaited(After(s, trace).rows, j, hash)
    ensures found.Some? ==> TookUp(s, trace + [Move(true, AcceptHold(found.value, true))], hash)
    ensures found.None? ==> TookUp(s, trace, hash)
  {
    hide After, IsAwaited;
    if found.Some? {
      var longer := trace + [Move(true, AcceptHold(found.value, true))];
      assert longer[..|trace|] == trace;
      assert AcceptsAt(s, longer, |trace|, hash);
    } else {
      assert trace[..|trace|] == trace;
      assert NoneAwaitedAt(s, trace, |trace|, hash);
    }
  }

  method MarkHoldInvoiceAccepted(db: Store, hash: PaymentHash, ghost s0: State, ghost trace0: seq<Move>,
                                 ghost payer: nat)
    returns (ghost trace: seq<Move>)
    requires Coherent(s0) && db.Abs() == After(s0, trace0) && OwnsHash(db.rows, payer, hash)
    modifies db
    ensures db.Abs() == After(s0, trace) && Continues(s0, trace0, trace, payer)
    ensures db.log == old(db.log)
    ensures NoOwnSettlement(trace0) ==> NoOwnSettlement(trace)
    ensures AcceptedOne(old(db.rows), db.rows, hash) && TookUp(s0, trace, hash)
  {
    hide Admit, EffectOf, Next, KeepsBooks, KeepsBooksIn, PayerStep, Coherent, RowEvolves, TookUp, After;
    trace := trace0;
    var found := FindRow(db, Incoming, Pending, hash);
    TakenUpNow(s0, trace0, found, hash);
    if found.Some? {
      var j := found.value;
      OwnStepFacts(s0, trace0, AcceptHold(j, true));
      AcceptStep(db.Abs(), j, payer);
      trace := trace0 + [Move(true, AcceptHold(j, true))];
      db.rows := db.rows[j := db.rows[j].(status := Accepted, selfPayment := true)];
    } else {
      EvolvesReflexive(db.rows);
    }
  }

  lemma EvolvesReflexive(rows: seq<Row>)
    ensures Evolves(rows, rows)
  {
  }

  lemma AcceptStep(s: State, j: nat, payer: nat)
    requires j < |s.rows| && IsPendingInvoice(s.rows[j]) && OwnsHash(s.rows, payer, s.rows[j].hash)
    ensures Next(s, AcceptHold(j, true)) == s.(rows := s.rows[j := s.rows[j].(status := Accepted, selfPayment := true)])
    ensures PayerStep(s, AcceptHold(j, true), payer) && KeepsBooksIn(s, AcceptHold(j, true))
  {
  }

  predicate HasHold(rows: seq<Row>, hash: PaymentHash)
  {
    exists j :: 0 <= j < |rows| && rows[j].direction == Incoming && rows[j].hash == hash && rows[j].hold
  }

  lemma HoldStays(rows: seq<Row>, rows': seq<Row>, j: nat)
    requires Evolves(rows, rows') && j < |rows| && rows[j].direction == Incoming && rows[j].hold
    ensures HasHold(rows', rows[j].hash)
  {
    assert RowEvolves(rows[j], rows'[j]);
  }

  predicate IsReceived(rows: seq<Row>, hash: PaymentHash)
  {
    exists j :: 0 <= j < |rows| && IsSettled(rows[j], Incoming, hash)
  }

  /** Books kept by this goroutine and by everybody else stay balanced. */
  lemma BooksAfter(s: State, trace: seq<Move>)
    requires Books(s) && Keeps(s, trace, true, KeepsBooks()) && Keeps(s, trace, false, KeepsBooks())
    ensures Books(After(s, trace))
  {
    TraceIsRun(s, trace, KeepsBooks());
    BooksStayBalanced(s, Steps(trace));
  }

  lemma SegmentKeeps(s: State, trace: seq<Move>, longer: seq<Move>, own: bool)
    requires trace <= longer && Keeps(s, longer, own, KeepsBooks())
    ensures Keeps(s, trace, own, KeepsBooks()) && Keeps(After(s, trace), longer[|trace|..], own, KeepsBooks())
    ensures After(s, longer) == After(After(s, trace), longer[|trace|..])
  {
    assert longer == trace + longer[|trace|..];
    KeepsConcat(s, trace, longer[|trace|..], own, KeepsBooks());
    AfterConcat(s, trace, longer[|trace|..]);
  }

  /**
   A payer released by a settlement has reached its recipient, and with the books in order no other row is the
   recipient. Whether the recipient was paid by this payer or through the node is only seen in the row's flag.
   */
  lemma WokenMeansReceived(s: State, i: nat, hash: PaymentHash)
    requires Coherent(s) && RowSettled(i) in s.log && Wakes(s.rows, RowSettled(i), hash)
    ensures i < |s.rows| && IsSettled(s.rows[i], Incoming, hash) && IsReceived(s.rows, hash)
    ensures Books(s) ==> forall j :: 0 <= j < |s.rows| && s.rows[j].direction == Incoming && s.rows[j].hash == hash ==>
              j == i
  {
    assert EventFits(s.rows, RowSettled(i));
    assert IsSettled(s.rows[i], Incoming, hash);
    if Books(s) {
      forall j | 0 <= j < |s.rows| && s.rows[j].direction == Incoming && s.rows[j].hash == hash ensures j == i {
        assert SameInvoice(s.rows[i], s.rows[j]);
      }
    }
  }

  /** Subscribes to the events, and then asks the node for its height. */
  method Register(db: Store) returns (registered: nat, ghost gap: seq<Move>)
    modifies db
    ensures AllOthers(gap) && db.Abs() == After(old(db.Abs()), gap)
    ensures |old(db.log)| <= registered <= |db.log|
  {
    hide Next;
    ghost var s0 := db.Abs();
    ghost var lookup := Interference(db);
    registered := |db.log|;
    ghost var s1 := db.Abs();
    ghost var query := Interference(db);
    gap := lookup + query;
    LogGrows(s0, lookup);
    LogGrows(s1, query);
    AfterConcat(s0, lookup, query);
  }

  /** Accept the hold invoice and wait until its owner settles or cancels it. */
  method InterceptSelfHoldPayment(db: Store, j: nat, nodeInfoOk: bool, ghost s0: State, ghost trace0: seq<Move>,
                                  ghost payer: nat)
    returns (reply: Option<Reply>, wake: Wakeup, ghost trace: seq<Move>)
    requires Coherent(s0) && db.Abs() == After(s0, trace0)
    requires j < |db.rows| && IsPendingInvoice(db.rows[j]) && db.rows[j].hash.Invoice?
             && OwnsHash(db.rows, payer, db.rows[j].hash)
    requires db.rows[j].hold
    modifies db
    ensures db.Abs() == After(s0, trace) && Continues(s0, trace0, trace, payer)
    ensures WakeupFits(db, wake, reply, old(db.rows[j]).hash)
    ensures NoOwnSettlement(trace0) ==> NoOwnSettlement(trace)
    ensures reply.Some? && reply.value.Sent? ==> wake.WokenBySettle?
    ensures wake == NotHold <==> !nodeInfoOk
    ensures HasHold(db.rows, old(db.rows[j]).hash)
    ensures reply.Some? && reply.value.Sent? ==> IsReceived(db.rows, old(db.rows[j]).hash)
    ensures wake != NotHold && wake != Waiting ==> WokenSince(db.log, |old(db.log)|, wake)
    ensures wake != NotHold ==> TookUp(s0, trace, old(db.rows[j]).hash)
  {
    hide Admit, EffectOf, Next, KeepsBooks, PayerRule, PayerStep, Coherent, Books, AnnouncesAll, OwesAtMost, Owes,
      TookUp;
    ghost var before := db.Abs();
    var hash := db.rows[j].hash;
    var registered;
    ghost var gap;
    registered, gap := Register(db);
    GapFacts(s0, trace0, gap);
    if !nodeInfoOk {
      reply, wake, trace := Some(Rejected), NotHold, trace0 + gap;
      HoldStays(before.rows, db.rows, j);
      return;
    }
    assert RowEvolves(before.rows[payer], db.rows[payer]);
    ghost var trace1 := MarkHoldInvoiceAccepted(db, hash, s0, trace0 + gap, payer);
    EvolvesTransitive(before.rows, After(s0, trace0 + gap).rows, db.rows);
    reply, wake, trace := WaitForOwner(db, hash, registered, s0, trace1, payer);
    EvolvesTransitive(before.rows, After(s0, trace1).rows, db.rows);
    TakenUpInLonger(s0, trace1, trace, hash);
    HoldStays(before.rows, db.rows, j);
    if wake.WokenBySettle? {
      AfterFacts(s0, trace);
      WokenMeansReceived(db.Abs(), wake.row, hash);
    }
  }

  /** The payer was woken by an event that was published no earlier than this. */
  predicate WokenSince(log: seq<Event>, start: nat, wake: Wakeup)
  {
    exists at :: start <= at < |log| && Delivers(wake, log[at])
  }

  method WaitForOwner(db: Store, hash: PaymentHash, registered: nat, ghost s0: State, ghost trace0: seq<Move>,
                      ghost payer: nat)
    returns (reply: Option<Reply>, wake: Wakeup, ghost trace: seq<Move>)
    requires Coherent(s0) && db.Abs() == After(s0, trace0) && registered <= |db.log|
    modifies db
    ensures db.Abs() == After(s0, trace) && Continues(s0, trace0, trace, payer)
    ensures wake != NotHold && WakeupFits(db, wake, reply, hash)
    ensures NoOwnSettlement(trace0) ==> NoOwnSettlement(trace)
    ensures wake != Waiting ==> WokenSince(db.log, registered, wake)
  {
    hide Next, Coherent, Keeps, KeepsBooks, Evolves;
    ghost var later := Interference(db);
    GapFacts(s0, trace0, later);
    trace := trace0 + later;
    LogGrows(After(s0, trace0), later);
    AfterConcat(s0, trace0, later);
    reply, wake := AwaitHoldUpdate(db, hash, registered);
  }

  /** There is a pending invoice of the hash, and every such invoice can be settled at once. */
  predicate Payable(rows: seq<Row>, hash: PaymentHash)
  {
    && (exists i :: 0 <= i < |rows| && IsPendingInvoice(rows[i]) && rows[i].hash == hash)
    && (forall i :: 0 <= i < |rows| && IsPendingInvoice(rows[i]) && rows[i].hash == hash ==>
        !rows[i].hold && rows[i].preimage)
  }

  /** There is a pending invoice of the hash, and every such invoice is a hold invoice. */
  predicate Waitable(rows: seq<Row>, hash: PaymentHash)
  {
    && (exists i :: 0 <= i < |rows| && IsPendingInvoice(rows[i]) && rows[i].hash == hash)
    && (forall i :: 0 <= i < |rows| && IsPendingInvoice(rows[i]) && rows[i].hash == hash ==> rows[i].hold)
  }

  /** No pending invoice of the hash can be paid here: each is plain and lacks its preimage, or there is none. */
  predicate NothingToPay(rows: seq<Row>, hash: PaymentHash)
  {
    forall i :: 0 <= i < |rows| && IsPendingInvoice(rows[i]) && rows[i].hash == hash ==>
      !rows[i].hold && !rows[i].preimage
  }

  /**
   Pays an invoice of this instance without the node: credit the recipient at once, or wait for the owner of a hold
   invoice. A success means that the recipient's row is settled.
   */
  method InterceptSelfPayment(db: Store, hash: nat, nodeInfoOk: bool, ghost s0: State, ghost trace0: seq<Move>,
                              ghost payer: nat)
    returns (reply: Option<Reply>, wake: Wakeup, ghost trace: seq<Move>)
    requires Coherent(s0) && db.Abs() == After(s0, trace0) && OwnsHash(db.rows, payer, Invoice(hash))
    modifies db
    ensures db.Abs() == After(s0, trace) && trace0 <= trace && Evolves(old(db.rows), db.rows)
    ensures OwnPayerSteps(s0, trace0, payer) ==> OwnPayerSteps(s0, trace, payer)
    ensures WakeupFits(db, wake, reply, Invoice(hash))
    ensures Payable(old(db.rows), Invoice(hash)) ==> reply == Some(Sent(true, 0))
    ensures nodeInfoOk && Waitable(old(db.rows), Invoice(hash)) ==> wake != NotHold
    ensures NothingToPay(old(db.rows), Invoice(hash)) ==> reply == Some(Rejected) && wake == NotHold
    ensures wake != NotHold ==> TookUp(s0, trace, Invoice(hash))
    ensures reply.None? ==> HasHold(db.rows, Invoice(hash))
    ensures (reply == Some(Rejected) || wake != NotHold) && NoOwnSettlement(trace0) ==> NoOwnSettlement(trace)
    ensures BooksAs(trace0, payer, 0, true) ==> BooksAs(trace, payer, 0, true)
    ensures AnnouncesAll(s0, trace0) ==> AnnouncesAll(s0, trace)
    ensures reply.Some? && reply.value.Sent? ==> reply.value == Sent(true, 0)
    ensures Books(old(db.Abs())) && HasSelfPayer(old(db.rows), Invoice(hash)) && Keeps(s0, trace0, true, KeepsBooks())
            && Keeps(s0, trace, false, KeepsBooks()) ==>
              Keeps(s0, trace, true, KeepsBooks())
    ensures reply.Some? && reply.value.Sent? ==> IsReceived(db.rows, Invoice(hash))
  {
    hide Admit, EffectOf, Next, KeepsBooks, PayerRule, PayerStep, Coherent, Books;
    var found := FindRow(db, Incoming, Pending, Invoice(hash));
    trace := trace0;
    if found.None? {
      reply, wake := Some(Rejected), NotHold;
    } else if db.rows[found.value].hold {
      reply, wake, trace := InterceptSelfHoldPayment(db, found.value, nodeInfoOk, s0, trace0, payer);
    } else if !db.rows[found.value].preimage {
      reply, wake := Some(Rejected), NotHold;
    } else {
      trace := CreditRecipient(db, found.value, s0, trace0, payer);
      reply, wake := Some(Sent(true, 0)), NotHold;
    }
  }

  /** The recipient's row is settled, whatever others did to it since the lookup. */
  method CreditRecipient(db: Store, j: nat, ghost s0: State, ghost trace0: seq<Move>, ghost payer: nat)
    returns (ghost trace: seq<Move>)
    requires Coherent(s0) && db.Abs() == After(s0, trace0)
    requires j < |db.rows| && IsPlainInvoice(db.rows[j]) && db.rows[j].hash.Invoice?
             && OwnsHash(db.rows, payer, db.rows[j].hash)
    modifies db
    ensures db.Abs() == After(s0, trace) && trace0 <= trace && Evolves(old(db.rows), db.rows)
    ensures OwnPayerSteps(s0, trace0, payer) ==> OwnPayerSteps(s0, trace, payer)
    ensures Books(old(db.Abs())) && HasSelfPayer(old(db.rows), old(db.rows[j]).hash)
            && Keeps(s0, trace0, true, KeepsBooks())
            && Keeps(s0, trace, false, KeepsBooks()) ==>
              Keeps(s0, trace, true, KeepsBooks())
    ensures IsReceived(db.rows, old(db.rows[j]).hash)
    ensures BooksAs(trace0, payer, 0, true) ==> BooksAs(trace, payer, 0, true)
    ensures AnnouncesAll(s0, trace0) ==> AnnouncesAll(s0, trace)
  {
    hide Admit, EffectOf, Next, KeepsBooks, KeepsBooksIn, Coherent, Books, HasSelfPayer, Keeps;
    ghost var before := db.Abs();
    ghost var gap := Interference(db);
    GapFacts(s0, trace0, gap);
    assert RowEvolves(before.rows[j], db.rows[j]) && RowEvolves(before.rows[payer], db.rows[payer]);
    ghost var now := db.rows;
    trace := SettleRecipient(db, j, s0, trace0 + gap, payer);
    EvolvesTransitive(before.rows, now, db.rows);
    if Books(before) && HasSelfPayer(before.rows, before.rows[j].hash) && Keeps(s0, trace0, true, KeepsBooks())
      && Keeps(s0, trace, false, KeepsBooks())
    {
      PayerStillThere(s0, trace0, gap, trace, before.rows[j].hash);
    }
  }

  /** The settling transaction and its announcement. */
  method SettleRecipient(db: Store, j: nat, ghost s0: State, ghost trace0: seq<Move>, ghost payer: nat)
    returns (ghost trace: seq<Move>)
    requires Coherent(s0) && db.Abs() == After(s0, trace0)
    requires j < |db.rows| && IsPlainInvoice(db.rows[j]) && OwnsHash(db.rows, payer, db.rows[j].hash)
    modifies db
    ensures db.Abs() == After(s0, trace) && trace0 <= trace && Evolves(old(db.rows), db.rows)
    ensures OwnPayerSteps(s0, trace0, payer) ==> OwnPayerSteps(s0, trace, payer)
    ensures HasSelfPayer(old(db.rows), old(db.rows[j]).hash) && Keeps(s0, trace0, true, KeepsBooks()) ==>
              Keeps(s0, trace, true, KeepsBooks())
    ensures IsReceived(db.rows, old(db.rows[j]).hash)
    ensures BooksAs(trace0, payer, 0, true) ==> BooksAs(trace, payer, 0, true)
    ensures AnnouncesAll(s0, trace0) ==> AnnouncesAll(s0, trace)
  {
    hide Admit, EffectOf, Next, KeepsBooks, KeepsBooksIn, Coherent, HasSelfPayer, Keeps;
    ghost var before, step := db.Abs(), MarkSettled(j, 0, true);
    AfterFacts(s0, trace0);
    if HasSelfPayer(before.rows, before.rows[j].hash) {
      CreditKeepsBooks(before, j);
    }
    var r := MarkTransactionSettled(db, j, true, 0, true);
    OwnStepFacts(s0, trace0, step);
    trace := trace0 + [Move(true, step)];
    ghost var credited, trace1 := db.rows, trace;
    SettlementStands(before, j, 0, true);
    if r == NowSettled {
      trace := Announce(db, j, s0, trace1);
      assert Continues(s0, trace1, trace, payer);
      EvolvesTransitive(before.rows, credited, db.rows);
      SettledStays(credited, db.rows, Incoming, before.rows[j].hash);
    }
  }

  /** The payer's own row is still there when the recipient is settled. */
  lemma PayerStillThere(s0: State, trace0: seq<Move>, gap: seq<Move>, trace: seq<Move>, hash: PaymentHash)
    requires AllOthers(gap) && trace0 + gap <= trace && HasSelfPayer(After(s0, trace0).rows, hash)
    requires Keeps(s0, trace, false, KeepsBooks())
    ensures HasSelfPayer(After(s0, trace0 + gap).rows, hash)
  {
    hide Keeps, HasSelfPayer, KeepsBooks;
    SegmentKeeps(s0, trace0 + gap, trace, false);
    KeepsConcat(s0, trace0, gap, false, KeepsBooks());
    AfterConcat(s0, trace0, gap);
    OthersKeepOwnRule(After(s0, trace0), gap, KeepsBooks());
    SelfPayerSurvives(After(s0, trace0), gap, hash);
  }

  /** A recipient may be credited by interception while there is a payer of this instance. */
  lemma CreditKeepsBooks(s: State, j: nat)
    requires j < |s.rows| && s.rows[j].direction == Incoming && HasSelfPayer(s.rows, s.rows[j].hash)
    ensures KeepsBooksIn(s, MarkSettled(j, 0, true))
  {
  }

  // ---------- the two payment calls ----------

  /** What a payer was told about a hold invoice, and what it did about it since its row was inserted. */
  predicate Told(s: State, wake: Wakeup, out: Outcome, hash: PaymentHash, after: seq<Move>, id: nat)
  {
    match wake
    case NotHold => !out.StillWaiting?
    case WokenBySettle(i) =>
      out.Paid? && RowSettled(i) in s.log && Wakes(s.rows, RowSettled(i), hash) && SettlesOnly(after, id)
    case WokenByCancel(i) =>
      (out.Paid? || out.Errored?) && HoldCanceled(i) in s.log && Wakes(s.rows, HoldCanceled(i), hash)
                             && NoOwnSettlement(after)
    case Waiting => out.StillWaiting? && HasHold(s.rows, hash)
  }

  /** At some moment before the payer did anything, the invoice could not be settled by interception. */
  ghost predicate Blocked(s: State, trace: seq<Move>, hash: PaymentHash)
  {
    exists k :: 0 <= k <= |trace| && AllOthers(trace[..k]) && !Payable(After(s, trace[..k]).rows, hash)
  }

  /**
   What the payer did when it looked at the invoice, at some moment before it did anything: it waits, given the node's
   height, if it may, it does not fail without a reason, and it does not succeed when there is nothing to pay. Whoever
   waits has accepted the invoice.
   */
  ghost predicate Intercepted(s: State, trace: seq<Move>, wake: Wakeup, out: Outcome, hash: PaymentHash,
                              nodeInfoOk: bool)
  {
    && (wake != NotHold ==> TookUp(s, trace, hash))
    && exists k :: 0 <= k <= |trace| && AllOthers(trace[..k])
         && InterceptedAt(After(s, trace[..k]).rows, trace, wake, out, hash, nodeInfoOk)
  }

  predicate InterceptedAt(rows: seq<Row>, trace: seq<Move>, wake: Wakeup, out: Outcome, hash: PaymentHash,
                          nodeInfoOk: bool)
  {
    && (wake == NotHold && nodeInfoOk ==> !Waitable(rows, hash))
    && (wake == NotHold && out.Errored? ==> !Payable(rows, hash))
    && (NothingToPay(rows, hash) ==> wake == NotHold && NoOwnSettlement(trace))
  }

  lemma StillTold(s: State, after: seq<Move>, tail: seq<Move>, reply: Reply, wake: Wakeup, out: Outcome,
                  hash: PaymentHash, id: nat)
    requires wake != NotHold ==> SettlesOnly(after, id)
    requires WokenWith(s, wake, reply, hash) && (reply.Rejected? ==> NoOwnSettlement(after))
    requires if reply.Sent? && reply.preimage then out.Paid? else out.Errored? || (out.Paid? && reply.Rejected?)
    ensures Told(After(s, tail), wake, out, hash, after, id)
  {
    match wake
    case WokenBySettle(i) => EventStays(s, tail, RowSettled(i), hash);
    case WokenByCancel(i) => EventStays(s, tail, HoldCanceled(i), hash);
    case _ =>
  }

  lemma EventStays(s: State, trace: seq<Move>, e: Event, hash: PaymentHash)
    requires e in s.log && Wakes(s.rows, e, hash)
    ensures e in After(s, trace).log && Wakes(After(s, trace).rows, e, hash)
  {
    LogGrows(s, trace);
    AfterFacts(s, trace);
    assert RowEvolves(s.rows[e.row], After(s, trace).rows[e.row]);
  }

  /** What a caller may rely on about its own row and its payment hash. */
  predicate Truthful(out: Outcome, rows: seq<Row>, id: nat, node: Reply, hash: PaymentHash)
  {
    match out
    case Refused(_) => false
    case Paid(row) => row < |rows| && IsSettled(rows[row], Outgoing, hash)
    case Errored => id < |rows| && (rows[id].status == Failed || (node.Sent? && !node.preimage))
    case StillWaiting => true
  }

  /** Every recipient row of the hash carries this amount, and none of them was paid through the node. */
  predicate PaidInside(rows: seq<Row>, hash: PaymentHash, amount: nat)
  {
    forall i :: 0 <= i < |rows| && rows[i].direction == Incoming && rows[i].hash == hash ==>
      rows[i].amount == amount && (rows[i].status == Settled ==> rows[i].selfPayment)
  }

  lemma ReceivedTheAmount(rows: seq<Row>, rows': seq<Row>, hash: PaymentHash, amount: nat)
    requires Evolves(rows, rows') && IsReceived(rows, hash) && PaidInside(rows', hash, amount) && hash.Invoice?
    ensures ReceivedHere(rows, hash, amount)
  {
    var j :| 0 <= j < |rows| && IsSettled(rows[j], Incoming, hash);
    assert RowEvolves(rows[j], rows'[j]);
    assert SelfReceived(rows[j], hash);
  }

  lemma {:induction false} SelfPayerSurvives(s: State, trace: seq<Move>, hash: PaymentHash)
    requires HasSelfPayer(s.rows, hash)
    requires Keeps(s, trace, true, KeepsBooks()) && Keeps(s, trace, false, KeepsBooks())
    ensures HasSelfPayer(After(s, trace).rows, hash)
  {
    if |trace| > 0 {
      var init, last := trace[..|trace| - 1], trace[|trace| - 1].step;
      SelfPayerSurvives(s, init, hash);
      SelfPayerSurvivesStep(After(s, init), last, hash);
    }
  }

  lemma SelfPayerSurvivesStep(s: State, step: Step, hash: PaymentHash)
    requires HasSelfPayer(s.rows, hash) && KeepsBooksIn(s, step)
    ensures HasSelfPayer(Next(s, step).rows, hash)
  {
    hide EffectOf, KeepsBooksIn;
    StepAllowed(s, step);
    StepBooksAllowed(s, step);
    SelfPayerStays(s.apps, s.rows, EffectOf(s, step), hash);
  }

  /** Hands the payment to the node, or intercepts it. A success of an interception has reached the recipient. */
  method Reach(db: Store, id: nat, hash: nat, selfPayment: bool, node: Reply, nodeInfoOk: bool)
    returns (reply: Option<Reply>, wake: Wakeup, ghost gap: seq<Move>, ghost trace: seq<Move>)
    requires Coherent(db.Abs()) && OwnsHash(db.rows, id, Invoice(hash))
    modifies db
    ensures AllOthers(gap) && gap <= trace
    ensures db.Abs() == After(old(db.Abs()), trace) && Evolves(old(db.rows), db.rows)
    ensures OwnPayerSteps(old(db.Abs()), trace, id)
    ensures WakeupFits(db, wake, reply, Invoice(hash))
    ensures reply == Some(Rejected) || wake != NotHold || !selfPayment ==> NoOwnSettlement(trace)
    ensures selfPayment ==> BooksAs(trace, id, 0, true)
    ensures AnnouncesAll(old(db.Abs()), trace)
    ensures !selfPayment ==> trace == gap && reply == Some(node) && wake == NotHold
    ensures selfPayment && reply.Some? && reply.value.Sent? ==> reply.value == Sent(true, 0)
    ensures selfPayment && reply == Some(Rejected) ==> !Payable(After(old(db.Abs()), gap).rows, Invoice(hash))
    ensures selfPayment && nodeInfoOk && wake == NotHold ==> !Waitable(After(old(db.Abs()), gap).rows, Invoice(hash))
    ensures selfPayment && NothingToPay(After(old(db.Abs()), gap).rows, Invoice(hash)) ==>
              reply == Some(Rejected) && wake == NotHold
    ensures wake != NotHold ==> TookUp(old(db.Abs()), trace, Invoice(hash))
    ensures reply.None? ==> HasHold(db.rows, Invoice(hash))
    ensures var s1 := After(old(db.Abs()), gap);
            selfPayment && Books(s1) && HasSelfPayer(s1.rows, Invoice(hash))
              && Keeps(old(db.Abs()), gap, true, KeepsBooks())
            && Keeps(old(db.Abs()), trace, false, KeepsBooks()) ==>
              Keeps(old(db.Abs()), trace, true, KeepsBooks())
    ensures selfPayment && reply.Some? && reply.value.Sent? ==> IsReceived(db.rows, Invoice(hash))
  {
    hide Admit, EffectOf, Next, KeepsBooks, PayerRule, PayerStep, Coherent, Books, HasSelfPayer, IsReceived, WokenWith,
      TookUp;
    ghost var s0 := db.Abs();
    gap := Interference(db);
    assert [] + gap == gap;
    GapFacts(s0, [], gap);
    trace := gap;
    reply, wake := Some(node), NotHold;
    NotHoldFits(db.Abs(), node, Invoice(hash));
    if selfPayment {
      ghost var now := db.rows;
      assert RowEvolves(s0.rows[id], now[id]);
      reply, wake, trace := InterceptSelfPayment(db, hash, nodeInfoOk, s0, gap, id);
      EvolvesTransitive(s0.rows, now, db.rows);
    }
  }

  lemma NotHoldFits(s: State, reply: Reply, hash: PaymentHash)
    ensures WokenWith(s, NotHold, reply, hash)
  {
  }

  /** From the inserted row to the answer: intercept the payment or hand it to the node, then conclude. */
  method Dispatch(db: Store, id: nat, hash: nat, selfPayment: bool, node: Reply, nodeInfoOk: bool)
    returns (out: Outcome, wake: Wakeup, ghost trace: seq<Move>)
    requires id < |db.rows| && db.rows[id].direction == Outgoing && db.rows[id].hash == Invoice(hash)
             && Coherent(db.Abs())
    modifies db
    ensures db.Abs() == After(old(db.Abs()), trace) && Evolves(old(db.rows), db.rows)
    ensures OwnPayerSteps(old(db.Abs()), trace, id)
    ensures Truthful(out, db.rows, id, if selfPayment then Rejected else node, Invoice(hash))
    ensures Told(db.Abs(), wake, out, Invoice(hash), trace, id)
    ensures out.Errored? ==> NoOwnSettlement(trace)
    ensures !selfPayment && node.Sent? && node.preimage ==> out.Paid?
    ensures selfPayment && out.Errored? ==> Blocked(old(db.Abs()), trace, Invoice(hash))
    ensures BookedAsReported(trace, id, selfPayment, node) && AnnouncesAll(old(db.Abs()), trace)
    ensures !selfPayment ==> wake == NotHold
    ensures selfPayment ==> Intercepted(old(db.Abs()), trace, wake, out, Invoice(hash), nodeInfoOk)
    ensures selfPayment == old(db.rows[id]).selfPayment && Books(old(db.Abs()))
            && Keeps(old(db.Abs()), trace, false, KeepsBooks())
            && (selfPayment ==> PaidInside(db.rows, Invoice(hash), old(db.rows[id]).amount)) ==>
              Keeps(old(db.Abs()), trace, true, KeepsBooks())
  {
    hide Admit, EffectOf, Next, KeepsBooks, PayerRule, PayerStep, Coherent, Books, BooksReady, PaidInside,
      HasSelfPayer, IsReceived, WokenWith, HasHold, Payable, Waitable, NothingToPay, Intercepted,
      BookedAsReported, BooksAs, SettlesOnly, NoOwnSettlement, AnnouncesAll, TookUp;
    ghost var s0 := db.Abs();
    var reply;
    ghost var gap, trace1, tail: seq<Move>;
    reply, wake, gap, trace1 := Reach(db, id, hash, selfPayment, node, nodeInfoOk);
    AfterFacts(s0, trace1);
    ghost var now := db.rows;
    assert RowEvolves(s0.rows[id], now[id]);
    if reply.None? {
      out, trace, tail := StillWaiting, trace1, [];
      NothingMore(trace1, id, selfPayment, node);
      assert trace1 + tail == trace;
    } else {
      out, tail := Conclude(db, id, reply.value, selfPayment);
      trace := trace1 + tail;
      AfterConcat(s0, trace1, tail);
      KeepsConcat(s0, trace1, tail, true, PayerRule(id));
      EvolvesTransitive(s0.rows, now, db.rows);
      AnnouncedTogether(s0, trace1, tail);
      SettledTogether(trace1, tail, id, reply.value, selfPayment, node);
      StillTold(After(s0, trace1), trace, tail, reply.value, wake, out, Invoice(hash), id);
    }
    if selfPayment {
      assert trace[..|gap|] == gap;
      if wake != NotHold {
        TakenUpInLonger(s0, trace1, trace, Invoice(hash));
      }
      InterceptedAfterGap(s0, gap, trace, wake, out, Invoice(hash), nodeInfoOk);
    }
    if selfPayment == s0.rows[id].selfPayment && Books(s0) && Keeps(s0, trace, false, KeepsBooks())
      && (selfPayment ==> PaidInside(db.rows, Invoice(hash), s0.rows[id].amount))
    {
      DispatchKeepsBooks(s0, gap, trace1, tail, id, reply, selfPayment);
    }
  }

  /** What the interception and the conclusion settle between them. */
  lemma SettledTogether(first: seq<Move>, tail: seq<Move>, id: nat, reply: Reply, selfPayment: bool, node: Reply)
    requires if selfPayment then BooksAs(first, id, 0, true) else NoOwnSettlement(first) && reply == node
    requires selfPayment && reply.Sent? ==> reply == Sent(true, 0)
    requires reply.Rejected? || !reply.preimage ==> NoOwnSettlement(tail)
    requires reply.Sent? ==> BooksAs(tail, id, reply.fee, selfPayment)
    requires reply.Sent? && reply.preimage ==> Move(true, MarkSettled(id, reply.fee, selfPayment)) in tail
    ensures BookedAsReported(first + tail, id, selfPayment, node)
    ensures NoOwnSettlement(first) && NoOwnSettlement(tail) ==> NoOwnSettlement(first + tail)
    ensures NoOwnSettlement(first) && SettlesOnly(tail, id) ==> SettlesOnly(first + tail, id)
  {
  }

  lemma NothingMore(first: seq<Move>, id: nat, selfPayment: bool, node: Reply)
    requires selfPayment && BooksAs(first, id, 0, true)
    ensures BookedAsReported(first, id, selfPayment, node)
  {
  }

  lemma InterceptedAfterGap(s: State, gap: seq<Move>, trace: seq<Move>, wake: Wakeup, out: Outcome, hash: PaymentHash,
                            nodeInfoOk: bool)
    requires AllOthers(gap) && gap <= trace
    requires InterceptedAt(After(s, gap).rows, trace, wake, out, hash, nodeInfoOk)
    requires wake != NotHold ==> TookUp(s, trace, hash)
    ensures Intercepted(s, trace, wake, out, hash, nodeInfoOk)
    ensures wake == NotHold && out.Errored? ==> Blocked(s, trace, hash)
  {
    hide After, Waitable, NothingToPay, Payable, TookUp;
    assert trace[..|gap|] == gap;
  }

  /**
   A payment keeps the books: an intercepted one has reached its recipient, of the same amount, before it is booked.
   */
  lemma DispatchKeepsBooks(s0: State, gap: seq<Move>, trace1: seq<Move>, tail: seq<Move>, id: nat, reply: Option<Reply>,
                           selfPayment: bool)
    requires id < |s0.rows| && s0.rows[id].direction == Outgoing && s0.rows[id].hash.Invoice?
    requires selfPayment == s0.rows[id].selfPayment && Books(s0) && AllOthers(gap) && gap <= trace1
    requires Keeps(s0, trace1 + tail, false, KeepsBooks())
    requires selfPayment ==> PaidInside(After(s0, trace1 + tail).rows, s0.rows[id].hash, s0.rows[id].amount)
    requires !selfPayment ==> trace1 == gap
    requires selfPayment && reply.Some? && reply.value.Sent? ==> reply.value.fee == 0
    requires selfPayment && Books(After(s0, gap)) && HasSelfPayer(After(s0, gap).rows, s0.rows[id].hash)
             && Keeps(s0, gap, true, KeepsBooks()) && Keeps(s0, trace1, false, KeepsBooks()) ==>
               Keeps(s0, trace1, true, KeepsBooks())
    requires selfPayment && reply.Some? && reply.value.Sent? ==> IsReceived(After(s0, trace1).rows, s0.rows[id].hash)
    requires id < |After(s0, trace1).rows| && RowEvolves(s0.rows[id], After(s0, trace1).rows[id])
    requires reply.None? ==> tail == []
    requires reply.Some? && BooksReady(After(s0, trace1).rows, id, reply.value, selfPayment) ==>
               Keeps(After(s0, trace1), tail, true, KeepsBooks())
    ensures Keeps(s0, trace1 + tail, true, KeepsBooks())
  {
    hide KeepsBooks, Books, Coherent, PaidInside, HasSelfPayer, Next;
    var hash, now := s0.rows[id].hash, After(s0, trace1).rows;
    OthersKeepOwnRule(s0, gap, KeepsBooks());
    SegmentKeeps(s0, trace1, trace1 + tail, false);
    SegmentKeeps(s0, gap, trace1, false);
    BooksAfter(s0, gap);
    if selfPayment {
      assert HasSelfPayer(s0.rows, hash) by { OwnSelfPayer(s0.rows, id); }
      SelfPayerSurvives(s0, gap, hash);
    }
    if reply.Some? {
      AfterConcat(s0, trace1, tail);
      if selfPayment && reply.value.Sent? {
        AfterFacts(After(s0, trace1), tail);
        ReceivedTheAmount(now, After(s0, trace1 + tail).rows, hash, s0.rows[id].amount);
      }
      KeepsConcat(s0, trace1, tail, true, KeepsBooks());
    } else {
      assert trace1 + tail == trace1;
    }
  }

  lemma OwnSelfPayer(rows: seq<Row>, id: nat)
    requires id < |rows| && rows[id].direction == Outgoing && rows[id].selfPayment
    ensures HasSelfPayer(rows, rows[id].hash)
  {
    assert SelfPays(rows[id], rows[id].hash);
  }

  /** A keysend to this instance writes the recipient's row itself, at the time of the payment. */
  method MintKeysendInvoice(db: Store, recipient: Option<AppId>, hash: nat, amount: nat, now: int, ghost s0: State,
                            ghost trace0: seq<Move>, ghost payer: nat)
    returns (ghost trace: seq<Move>, ghost unused: bool, ghost gap: seq<Move>)
    requires Coherent(s0) && db.Abs() == After(s0, trace0) && OwnPayerSteps(s0, trace0, payer)
    requires payer < |db.rows| && db.rows[payer].hash == Invoice(hash) && db.rows[payer].amount == amount
    modifies db
    ensures db.Abs() == After(s0, trace) && trace0 <= trace && Evolves(old(db.rows), db.rows)
    ensures OwnPayerSteps(s0, trace, payer)
    ensures AllOthers(gap)
            && trace == trace0 + gap + [Move(true, Step.MakeInvoice(recipient, hash, amount, false, true, true, now))]
    ensures NoOwnSettlement(trace0) ==> NoOwnSettlement(trace)
    ensures AnnouncesAll(s0, trace0) ==> AnnouncesAll(s0, trace)
    ensures unused && Keeps(s0, trace0, true, KeepsBooks()) ==> Keeps(s0, trace, true, KeepsBooks())
  {
    hide Admit, KeepsBooks;
    ghost var before := db.rows;
    gap := Interference(db);
    GapFacts(s0, trace0, gap);
    unused := !HasIncoming(db.rows, Invoice(hash));
    assert RowEvolves(before[payer], db.rows[payer]);
    ghost var step := Step.MakeInvoice(recipient, hash, amount, false, true, true, now);
    OwnStepFacts(s0, trace0 + gap, step);
    trace := trace0 + gap + [Move(true, step)];
    EvolvesTransitive(before, db.rows, After(s0, trace).rows);
    db.rows := db.rows + [Row(recipient, Incoming, Pending, amount, 0, 0, 0, Invoice(hash), true, false, true, Ordinary,
                              now)];
  }

  /** Over a run that keeps the books an outgoing row keeps its flag. */
  lemma {:induction false} FlagSurvives(s: State, trace: seq<Move>, i: nat)
    requires i < |s.rows| && s.rows[i].direction == Outgoing
    requires Keeps(s, trace, true, KeepsBooks()) && Keeps(s, trace, false, KeepsBooks())
    ensures i < |After(s, trace).rows| && After(s, trace).rows[i].selfPayment == s.rows[i].selfPayment
    ensures RowEvolves(s.rows[i], After(s, trace).rows[i])
  {
    AfterFacts(s, trace);
    if |trace| > 0 {
      var init, last := trace[..|trace| - 1], trace[|trace| - 1].step;
      FlagSurvives(s, init, i);
      FlagSurvivesStep(After(s, init), last, i);
    }
  }

  lemma FlagSurvivesStep(s: State, step: Step, i: nat)
    requires i < |s.rows| && s.rows[i].direction == Outgoing && KeepsBooksIn(s, step)
    ensures i < |Next(s, step).rows| && Next(s, step).rows[i].selfPayment == s.rows[i].selfPayment
  {
    hide EffectOf, KeepsBooksIn;
    StepAllowed(s, step);
    StepBooksAllowed(s, step);
    PayerFlagStays(s.apps, s.rows, EffectOf(s, step), i);
  }

  /** A keysend to this instance first makes the recipient's invoice, of its own amount, and then intercepts itself. */
  ghost predicate KeysendIntercepted(s: State, trace: seq<Move>, wake: Wakeup, out: Outcome, req: Request,
                                     recipient: Option<AppId>, nodeInfoOk: bool)
  {
    exists k :: 0 <= k < |trace| && AllOthers(trace[..k])
      && trace[k] == Move(true, Step.MakeInvoice(recipient, req.hash, req.amount, false, true, true, req.now))
      && Intercepted(After(s, trace[..k + 1]), trace[k + 1..], wake, out, Invoice(req.hash), nodeInfoOk)
  }

  lemma MintedThenIntercepted(s: State, gap: seq<Move>, after: seq<Move>, wake: Wakeup, out: Outcome, req: Request,
                              recipient: Option<AppId>, nodeInfoOk: bool)
    requires AllOthers(gap)
    requires var mint := Step.MakeInvoice(recipient, req.hash, req.amount, false, true, true, req.now);
             Intercepted(After(s, gap + [Move(true, mint)]), after, wake, out, Invoice(req.hash), nodeInfoOk)
    ensures var mint := Step.MakeInvoice(recipient, req.hash, req.amount, false, true, true, req.now);
            KeysendIntercepted(s, gap + [Move(true, mint)] + after, wake, out, req, recipient, nodeInfoOk)
  {
    hide Intercepted, After;
    var mint := Move(true, Step.MakeInvoice(recipient, req.hash, req.amount, false, true, true, req.now));
    var trace, k := gap + [mint] + after, |gap|;
    assert trace[..k] == gap && trace[k] == mint && trace[..k + 1] == gap + [mint] && trace[k + 1..] == after;
  }

  /** As Dispatch, but for a keysend to this instance the recipient's row is written first. */
  method DispatchKeysend(db: Store, id: nat, req: Request, recipient: Option<AppId>, node: Reply, nodeInfoOk: bool)
    returns (out: Outcome, wake: Wakeup, ghost trace: seq<Move>, ghost unused: bool)
    requires id < |db.rows| && db.rows[id].direction == Outgoing && db.rows[id].hash == Invoice(req.hash)
             && Coherent(db.Abs())
    requires db.rows[id].selfPayment == req.selfPayment && db.rows[id].amount == req.amount
    modifies db
    ensures db.Abs() == After(old(db.Abs()), trace) && Evolves(old(db.rows), db.rows)
    ensures OwnPayerSteps(old(db.Abs()), trace, id)
    ensures Truthful(out, db.rows, id, if req.selfPayment then Rejected else node, Invoice(req.hash))
    ensures Told(db.Abs(), wake, out, Invoice(req.hash), trace, id)
    ensures out.Errored? ==> NoOwnSettlement(trace)
    ensures !req.selfPayment && node.Sent? && node.preimage ==> out.Paid?
    ensures BookedAsReported(trace, id, req.selfPayment, node) && AnnouncesAll(old(db.Abs()), trace)
    ensures req.selfPayment ==>
              KeysendIntercepted(old(db.Abs()), trace, wake, out, req, recipient, nodeInfoOk)
    ensures !req.selfPayment ==> wake == NotHold
    ensures Books(old(db.Abs())) && Keeps(old(db.Abs()), trace, false, KeepsBooks()) && unused
            && (req.selfPayment ==> PaidInside(db.rows, Invoice(req.hash), old(db.rows[id]).amount)) ==>
              Keeps(old(db.Abs()), trace, true, KeepsBooks())
  {
    hide Admit, EffectOf, Next, KeepsBooks, PayerRule, PayerStep, Coherent, Books, Intercepted, KeysendIntercepted,
      AnnouncesAll, OwesAtMost, Owes, Truthful;
    ghost var s0 := db.Abs();
    ghost var mint, gap: seq<Move> := [], [];
    unused := true;
    if req.selfPayment {
      mint, unused, gap := MintKeysendInvoice(db, recipient, req.hash, req.amount, req.now, s0, [], id);
      assert mint == gap + [Move(true, Step.MakeInvoice(recipient, req.hash, req.amount, false, true, true, req.now))];
    }
    ghost var s1 := db.Abs();
    AfterFacts(s0, mint);
    assert RowEvolves(s0.rows[id], s1.rows[id]);
    ghost var after: seq<Move>;
    out, wake, after := Dispatch(db, id, req.hash, req.selfPayment, node, nodeInfoOk);
    trace := mint + after;
    NothingAnnounced(s0, []);
    AnnouncedTogether(s0, mint, after);
    if req.selfPayment {
      MintedThenIntercepted(s0, gap, after, wake, out, req, recipient, nodeInfoOk);
    }
    AfterConcat(s0, mint, after);
    KeepsConcat(s0, mint, after, true, PayerRule(id));
    EvolvesTransitive(s0.rows, s1.rows, db.rows);
    KeepsConcat(s0, mint, after, false, KeepsBooks());
    KeepsConcat(s0, mint, after, true, KeepsBooks());
    if Books(s0) && Keeps(s0, trace, false, KeepsBooks()) && unused {
      BooksAfter(s0, mint);
      FlagSurvives(s0, mint, id);
    }
  }

  /** One payment call: what others did before its row was checked, that check, and everything after it. */
  datatype Call = Call(before: seq<Move>, req: Request, after: seq<Move>)
  {
    function Trace(): seq<Move>
    {
      before + [Move(true, SendPayment(req))] + after
    }
  }

  /** The answer of a call, whose check was made in the state s. */
  ghost predicate Concluded(s: State, call: Call, out: Outcome, rows: seq<Row>, node: Reply)
  {
    match Admit(s.apps, s.rows, call.req)
    case Err(why) => out == Refused(why) && call.after == []
    case Ok(row) =>
      && |s.rows| < |rows| && RowEvolves(row, rows[|s.rows|])
      && OwnPayerSteps(Next(s, SendPayment(call.req)), call.after, |s.rows|)
      && Truthful(out, rows, |s.rows|, if call.req.selfPayment then Rejected else node, Invoice(call.req.hash))
      && (out.Errored? ==> NoOwnSettlement(call.after))
      && (!call.req.selfPayment && node.Sent? && node.preimage ==> out.Paid?)
      && (out.Errored? && call.req.selfPayment && !call.req.keysend ==>
            Blocked(Next(s, SendPayment(call.req)), call.after, Invoice(call.req.hash)))
  }

  /**
   A refusal names the first reason there is in the state of the check, and where there is one the call is refused: past
   the four checks without arithmetic as long as uint64 holds the sums.
   */
  ghost predicate RefusedRightly(s: State, req: Request, out: Outcome)
  {
    forall why :: Order(why) <= 3 || FitsUint64(s.apps, s.rows, req) ==>
      (out == Refused(why) <==> FirstStop(s.apps, s.rows, req, why))
  }

  lemma AnsweredAsChecked(s: State, call: Call, out: Outcome, rows: seq<Row>, node: Reply)
    requires Concluded(s, call, out, rows, node)
    ensures RefusedRightly(s, call.req, out)
  {
    JustRefusals(s.apps, s.rows, call.req);
    hide Admit, FitsUint64, FirstStop, PayerRule, Blocked;
  }

  /** A payment that is not for a slice leaves the claims table and the payments of slices alone. */
  lemma CallIsLedgerOnly(s: State, call: Call, out: Outcome, node: Reply)
    requires AllOthers(call.before) && Concluded(After(s, call.before), call, out, After(s, call.Trace()).rows, node)
    requires !TouchesSlices(SendPayment(call.req))
    ensures LedgerOnly(call.Trace())
  {
    var s1 := After(s, call.before);
    if Admit(s1.apps, s1.rows, call.req).Ok? {
      PayerIsLedgerOnly(Next(s1, SendPayment(call.req)), call.after, |s1.rows|);
    }
  }

  /**
   The call pays what it says it pays: no other flag for the hash, and for a self-payment the invoice's own amount and
   no receipt of the same invoice through the node.
   */
  ghost predicate FairCall(s: State, call: Call, rows: seq<Row>)
  {
    && Agrees(s.rows, Invoice(call.req.hash), call.req.selfPayment)
    && (call.req.selfPayment ==> PaidInside(rows, Invoice(call.req.hash), call.req.amount))
  }

  /** The inserting transaction and everything after it. */
  method Execute(db: Store, req: Request, recipient: Option<AppId>, node: Reply, nodeInfoOk: bool, ghost s0: State,
                 ghost before: seq<Move>)
    returns (out: Outcome, wake: Wakeup, ghost call: Call, ghost unused: bool)
    requires Coherent(s0) && db.Abs() == After(s0, before)
    modifies db
    ensures call.before == before && call.req == req
    ensures db.Abs() == After(s0, call.Trace()) && Coherent(db.Abs())
    ensures Concluded(old(db.Abs()), call, out, db.rows, node)
    ensures Told(db.Abs(), wake, out, Invoice(req.hash), call.after, |old(db.rows)|)
    ensures out.Refused? || BookedAsReported(call.after, |old(db.rows)|, req.selfPayment, node)
    ensures req.selfPayment && !out.Refused? ==>
              var s1 := Next(old(db.Abs()), SendPayment(req));
              if req.keysend then KeysendIntercepted(s1, call.after, wake, out, req, recipient, nodeInfoOk)
              else Intercepted(s1, call.after, wake, out, Invoice(req.hash), nodeInfoOk)
    ensures !req.selfPayment ==> wake == NotHold
    ensures Books(old(db.Abs())) && Keeps(s0, before, true, KeepsBooks())
            && Keeps(s0, call.Trace(), false, KeepsBooks())
            && FairCall(old(db.Abs()), call, db.rows) && unused ==>
              Keeps(s0, call.Trace(), true, KeepsBooks())
    ensures !req.keysend ==> unused
    ensures AnnouncesAll(s0, before) ==> AnnouncesAll(s0, call.Trace())
  {
    hide EffectOf, Next, KeepsBooks, PayerStep, Coherent, Books, Intercepted, KeysendIntercepted, BookedAsReported,
      Stops, FirstStop, FitsUint64, Order, AnnouncesAll, OwesAtMost, Owes, Admit, Blocked;
    AfterFacts(s0, before);
    ghost var s1 := db.Abs();
    ghost var admit := before + [Move(true, SendPayment(req))];
    OwnStepFacts(s0, before, SendPayment(req));
    SendingOwesNothing(s1, req);
    var inserted := InsertOutgoing(db, req);
    unused := true;
    match inserted
    case Err(why) =>
      out, wake, call := Refused(why), NotHold, Call(before, req, []);
      assert call.Trace() == admit;
    case Ok(id) =>
      InsertedRow(s1, req);
      ghost var s2 := db.Abs();
      ghost var after: seq<Move>;
      if req.keysend {
        out, wake, after, unused := DispatchKeysend(db, id, req, recipient, node, nodeInfoOk);
      } else {
        out, wake, after := Dispatch(db, id, req.hash, req.selfPayment, node, nodeInfoOk);
      }
      call := Call(before, req, after);
      if AnnouncesAll(s0, before) {
        AnnouncedTogether(s0, admit, after);
      }
      assert RowEvolves(s2.rows[id], db.rows[id]);
      AfterConcat(s0, admit, after);
      AfterFacts(s0, call.Trace());
      KeepsConcat(s0, admit, after, true, KeepsBooks());
      KeepsConcat(s0, admit, after, false, KeepsBooks());
      KeepsSnoc(s0, before, Move(true, SendPayment(req)), false, KeepsBooks());
      if Books(s1) && FairCall(s1, call, db.rows) {
        AdmissionKeepsBooks(s1, req);
      }
  }

  lemma SendingOwesNothing(s: State, req: Request)
    ensures Owes(s, SendPayment(req)) == {}
  {
  }

  lemma InsertedRow(s: State, req: Request)
    requires Admit(s.apps, s.rows, req).Ok?
    ensures var row := Admit(s.apps, s.rows, req).value;
            && Next(s, SendPayment(req)).rows == s.rows + [row]
            && row == OutgoingRow(req, row.skim)
  {
    AdmittedRow(s.apps, s.rows, req);
  }

  lemma AdmissionKeepsBooks(s: State, req: Request)
    requires Books(s) && Agrees(s.rows, Invoice(req.hash), req.selfPayment)
    ensures KeepsBooksIn(s, SendPayment(req)) && Books(Next(s, SendPayment(req)))
  {
    hide EffectOf, Next, Books;
    StepKeepsBooks(s, SendPayment(req));
  }

  /**
   SendPaymentSync. Whatever others do in between: an error means that the call's own row is FAILED (or never existed),
   unless the node reported success without a preimage; a success means that the hash is settled. If everybody else
   keeps the books, so does this call.
   */
  method SendPaymentSync(db: Store, invoice: PaymentRequest, amount: Option<nat>, purpose: Purpose, app: Option<AppId>,
                         now: int, budgetStart: int, node: Reply, nodeInfoOk: bool)
    returns (out: Outcome, wake: Wakeup, ghost call: Call)
    requires Coherent(db.Abs())
    modifies db
    ensures AllOthers(call.before)
    ensures call.req == Request(app, invoice.hash, PaymentAmount(invoice, amount), call.req.selfPayment, false, purpose,
                                now, budgetStart)
    ensures call.req.amount == match amount case Some(x) => (if invoice.msat > 0 then invoice.msat else x)
                                            case None => invoice.msat
    ensures call.req.selfPayment <==> invoice.payeeIsUs && HasIncoming(old(db.rows), Invoice(invoice.hash))
    ensures db.Abs() == After(old(db.Abs()), call.Trace()) && Coherent(db.Abs())
    ensures Concluded(After(old(db.Abs()), call.before), call, out, db.rows, node)
    ensures Told(db.Abs(), wake, out, Invoice(invoice.hash), call.after, |After(old(db.Abs()), call.before).rows|)
    ensures RefusedRightly(After(old(db.Abs()), call.before), call.req, out)
    ensures !call.req.selfPayment ==> wake == NotHold
    ensures out.Refused? || BookedAsReported(call.after, |After(old(db.Abs()), call.before).rows|, call.req.selfPayment,
                                             node)
    ensures AnnouncesAll(old(db.Abs()), call.Trace())
    ensures call.req.selfPayment && !out.Refused? ==>
              Intercepted(Next(After(old(db.Abs()), call.before), SendPayment(call.req)), call.after, wake, out,
                          Invoice(invoice.hash), nodeInfoOk)
    ensures Books(old(db.Abs())) && Keeps(old(db.Abs()), call.Trace(), false, KeepsBooks())
            && FairCall(After(old(db.Abs()), call.before), call, db.rows) ==>
              Keeps(old(db.Abs()), call.Trace(), true, KeepsBooks()) && Books(db.Abs())
  {
    hide EffectOf, Next, Admit, KeepsBooks, PayerStep, Coherent, Books, Concluded, FairCall,
      RefusedRightly, BookedAsReported, Intercepted, KeysendIntercepted;
    ghost var s0 := db.Abs();
    var selfPayment := invoice.payeeIsUs && HasIncoming(db.rows, Invoice(invoice.hash));
    ghost var gap := Interference(db);
    NothingAnnounced(s0, gap);
    var req := Request(app, invoice.hash, PaymentAmount(invoice, amount), selfPayment, false, purpose, now,
                       budgetStart);
    ghost var s1 := db.Abs();
    ghost var unused;
    out, wake, call, unused := Execute(db, req, None, node, nodeInfoOk, s0, gap);
    AnsweredAsChecked(s1, call, out, db.rows, node);
    OthersKeepOwnRule(s0, gap, KeepsBooks());
    if Books(s0) && Keeps(s0, call.Trace(), false, KeepsBooks()) && FairCall(s1, call, db.rows) {
      assert gap <= call.Trace();
      SegmentKeeps(s0, gap, call.Trace(), false);
      BooksAfter(s0, gap);
      BooksAfter(s0, call.Trace());
    }
  }

  /** A keysend that the node reports as sent settles with the payer's own preimage. */
  function KeysendReply(fee: Option<nat>): Reply
  {
    match fee
    case Some(fee) => Sent(true, fee)
    case None => Rejected
  }

  predicate IsFailed(rows: seq<Row>, i: nat)
  {
    i < |rows| && rows[i].status == Failed
  }

  lemma KeysendErrorMeansFailed(s: State, call: Call, out: Outcome, rows: seq<Row>, fee: Option<nat>)
    requires Concluded(s, call, out, rows, KeysendReply(fee)) && out.Errored?
    ensures IsFailed(rows, |s.rows|)
  {
    hide Admit, PayerRule, Blocked;
  }

  /**
   SendKeysend. The same promises as SendPaymentSync, without its duplicate checks; a keysend to this instance keeps the
   books if no recipient row uses its preimage yet.
   */
  method SendKeysend(db: Store, hash: nat, amount: nat, toSelf: bool, recipient: Option<AppId>, app: Option<AppId>,
                     now: int, budgetStart: int, node: Option<nat>, nodeInfoOk: bool)
    returns (out: Outcome, wake: Wakeup, ghost call: Call, ghost unused: bool)
    requires Coherent(db.Abs())
    modifies db
    ensures AllOthers(call.before)
    ensures call.req == Request(app, hash, amount, toSelf, true, Ordinary, now, budgetStart)
    ensures db.Abs() == After(old(db.Abs()), call.Trace()) && Coherent(db.Abs())
    ensures Concluded(After(old(db.Abs()), call.before), call, out, db.rows, KeysendReply(node))
    ensures Told(db.Abs(), wake, out, Invoice(hash), call.after, |After(old(db.Abs()), call.before).rows|)
    ensures RefusedRightly(After(old(db.Abs()), call.before), call.req, out)
    ensures !call.req.selfPayment ==> wake == NotHold
    ensures out.Refused? || BookedAsReported(call.after, |After(old(db.Abs()), call.before).rows|, toSelf,
                                             KeysendReply(node))
    ensures AnnouncesAll(old(db.Abs()), call.Trace())
    ensures toSelf && !out.Refused? ==>
              KeysendIntercepted(Next(After(old(db.Abs()), call.before), SendPayment(call.req)), call.after, wake, out,
                                 call.req, recipient, nodeInfoOk)
    ensures out.Errored? ==> IsFailed(db.rows, |After(old(db.Abs()), call.before).rows|)
    ensures Books(old(db.Abs())) && Keeps(old(db.Abs()), call.Trace(), false, KeepsBooks()) && unused
            && FairCall(After(old(db.Abs()), call.before), call, db.rows) ==>
              Keeps(old(db.Abs()), call.Trace(), true, KeepsBooks()) && Books(db.Abs())
  {
    hide EffectOf, Next, Admit, KeepsBooks, PayerStep, Coherent, Books, Concluded, FairCall,
      RefusedRightly, BookedAsReported, Intercepted, KeysendIntercepted;
    ghost var s0 := db.Abs();
    ghost var gap := Interference(db);
    NothingAnnounced(s0, gap);
    var req := Request(app, hash, amount, toSelf, true, Ordinary, now, budgetStart);
    ghost var s1 := db.Abs();
    out, wake, call, unused := Execute(db, req, recipient, KeysendReply(node), nodeInfoOk, s0, gap);
    AnsweredAsChecked(s1, call, out, db.rows, KeysendReply(node));
    if out.Errored? {
      KeysendErrorMeansFailed(s1, call, out, db.rows, node);
    }
    OthersKeepOwnRule(s0, gap, KeepsBooks());
    if Books(s0) && Keeps(s0, call.Trace(), false, KeepsBooks()) && unused && FairCall(s1, call, db.rows) {
      assert gap <= call.Trace();
      SegmentKeeps(s0, gap, call.Trace(), false);
      BooksAfter(s0, gap);
      BooksAfter(s0, call.Trace());
    }
  }
}
