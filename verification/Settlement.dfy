/**
 What every interleaving keeps of the settlement protocol: SETTLED is final, a payment hash settles at most once in
 each direction, a settlement is announced once, and each skimmed payment has exactly one hub credit.
 No theorem here restricts the steps: payer, node events, polling, sweeper and hold invoices may mix in any order.
 */
module Settlement {
  import opened Wrappers
  import opened Sums
  import opened Fees
  import opened Ledger
  import opened Admission
  import opened Protocol

  /** The columns of a row that are written once. */
  predicate SameIdentity(a: Row, b: Row)
  {
    && a.app == b.app && a.direction == b.direction && a.amount == b.amount && a.skim == b.skim
    && a.hash == b.hash && a.hold == b.hold && a.purpose == b.purpose && a.createdAt == b.createdAt
  }

  predicate RowEvolves(a: Row, b: Row)
  {
    && SameIdentity(a, b)
    && (a.status == Settled ==> b == a)
    && (a.status == Failed ==> b.status == Failed || b.status == Settled)
    && (a.direction == Outgoing && b.status != Settled ==> b.selfPayment == a.selfPayment)
  }

  ghost predicate Evolves(rows: seq<Row>, rows': seq<Row>)
  {
    |rows| <= |rows'| && forall i :: 0 <= i < |rows| ==> RowEvolves(rows[i], rows'[i])
  }

  predicate SameSettlement(a: Row, b: Row)
  {
    a.status == Settled && b.status == Settled && a.direction == b.direction && a.hash == b.hash
  }

  ghost predicate SettledOnce(rows: seq<Row>)
  {
    forall i, j | 0 <= i < |rows| && 0 <= j < |rows| && SameSettlement(rows[i], rows[j]) :: i == j
  }

  predicate IsCreditOf(apps: Apps, credit: Row, r: Row)
  {
    && credit.direction == Incoming && credit.status == Settled
    && credit.hash == FeeSkimOf(r.hash) && credit.amount == r.skim && credit.selfPayment
    && r.app.Some? && r.app.value in apps && apps[r.app.value].parent.Some? && credit.app == apps[r.app.value].parent
  }

  predicate Skimmed(r: Row)
  {
    r.direction == Outgoing && r.status == Settled && r.skim > 0
  }

  predicate WellFormedRow(apps: Apps, r: Row)
  {
    && (r.direction == Outgoing ==> r.hash.Invoice?)
    && (r.direction == Outgoing && r.skim > 0 ==> r.app.Some? && r.app.value in apps && apps[r.app.value].parent.Some?)
    && (r.hash.FeeSkimOf? ==> r.direction == Incoming && r.status == Settled)
    && (r.status == Settled ==> r.reserve == 0)
  }

  ghost predicate CreditsMatch(apps: Apps, rows: seq<Row>)
  {
    && (forall j :: 0 <= j < |rows| && rows[j].hash.FeeSkimOf? ==>
          exists i :: 0 <= i < |rows| && Skimmed(rows[i]) && IsCreditOf(apps, rows[j], rows[i]))
    && (forall i :: 0 <= i < |rows| && Skimmed(rows[i]) ==>
          exists j :: 0 <= j < |rows| && IsCreditOf(apps, rows[j], rows[i]))
  }

  predicate EventFits(rows: seq<Row>, e: Event)
  {
    match e
    case RowSettled(i) => i < |rows| && rows[i].status == Settled && rows[i].hash.Invoice?
    case HoldCanceled(i) => i < |rows| && rows[i].direction == Incoming
  }

  ghost predicate EventsMatch(s: State)
  {
    && (forall i, j :: 0 <= i < j < |s.log| && s.log[i].RowSettled? ==> s.log[i] != s.log[j])
    && (forall e :: e in s.owed ==> e.RowSettled? ==> e !in s.log)
    && (forall e :: e in s.owed ==> EventFits(s.rows, e))
    && (forall e :: e in s.log ==> EventFits(s.rows, e))
    && (forall i :: 0 <= i < |s.rows| && s.rows[i].status == Settled && s.rows[i].hash.Invoice? ==>
          RowSettled(i) in s.owed || RowSettled(i) in s.log)
  }

  /** The row is settled by this transaction: it was not, and nothing else was for its hash. */
  predicate SettlesRow(rows: seq<Row>, id: nat, after: Row)
  {
    && id < |rows| && rows[id].status != Settled && !HasSettled(rows, rows[id].direction, rows[id].hash)
    && after == SettledRow(rows[id], after.fee, after.selfPayment)
  }

  predicate KeepsUnsettled(rows: seq<Row>, id: nat, after: Row)
  {
    && id < |rows| && RowEvolves(rows[id], after) && rows[id].status != Settled && after.status != Settled
    && after.fee == rows[id].fee
  }

  predicate IsReceipt(r: Row)
  {
    r.direction == Incoming && r.status == Settled && !r.selfPayment && r.reserve == 0
  }

  predicate CreditedTo(apps: Apps, r: Row, credit: Row)
  {
    && r.direction == Outgoing && r.skim > 0 && r.app.Some? && r.app.value in apps
    && apps[r.app.value].parent.Some? && credit == FeeCredit(apps[r.app.value].parent.value, r)
  }

  predicate NobodyToCredit(apps: Apps, r: Row)
  {
    r.direction == Incoming || r.skim == 0 || (r.app.Some? && r.app.value in apps && apps[r.app.value].parent.None?)
  }

  /** The few ways in which any step may change the table. */
  predicate Allowed(apps: Apps, rows: seq<Row>, e: Effect)
  {
    match e
    case Same => true
    case Insert(row) =>
      && row.hash.Invoice? && WellFormedRow(apps, row)
      && (row.status == Pending || (IsReceipt(row) && !HasIncoming(rows, row.hash)))
    case Update(id, after) =>
      KeepsUnsettled(rows, id, after) || (SettlesRow(rows, id, after) && NobodyToCredit(apps, rows[id]))
    case UpdateAndInsert(id, after, extra) =>
      SettlesRow(rows, id, after) && CreditedTo(apps, rows[id], extra)
  }

  lemma AdmittedRow(apps: Apps, rows: seq<Row>, req: Request)
    requires Admit(apps, rows, req).Ok?
    ensures var row := Admit(apps, rows, req).value;
            && row == OutgoingRow(req, row.skim)
            && WellFormedRow(apps, row)
            && (req.selfPayment ==> row.skim == 0)
  {
  }

  /** The row a payment inserts, if it is admitted. */
  lemma SentRow(s: State, req: Request)
    ensures var e := EffectOf(s, SendPayment(req));
            e == Same || (e.Insert? && e.row == OutgoingRow(req, e.row.skim) && WellFormedRow(s.apps, e.row)
                          && (req.selfPayment ==> e.row.skim == 0))
  {
    if Admit(s.apps, s.rows, req).Ok? {
      AdmittedRow(s.apps, s.rows, req);
    }
  }

  lemma SettlementAllowed(s: State, id: nat, fee: nat, selfPayment: bool)
    ensures Allowed(s.apps, s.rows, SettleEffect(s, id, fee, selfPayment))
  {
    if id < |s.rows| {
      var r := s.rows[id];
      assert HasSettled(s.rows, r.direction, r.hash) || !IsSettled(r, r.direction, r.hash);
    }
  }

  lemma StepAllowed(s: State, step: Step)
    ensures Fits(s.rows, EffectOf(s, step)) && Allowed(s.apps, s.rows, EffectOf(s, step))
  {
    hide Admit;
    EffectFits(s, step);
    match step
    case SendPayment(req) => SentRow(s, req);
    case MarkSettled(id, fee, selfPayment) => SettlementAllowed(s, id, fee, selfPayment);
    case _ =>
  }

  lemma EffectEvolves(apps: Apps, rows: seq<Row>, e: Effect)
    requires Fits(rows, e) && Allowed(apps, rows, e)
    ensures Evolves(rows, Apply(rows, e))
  {
  }

  lemma StepEvolves(s: State, step: Step)
    ensures Evolves(s.rows, Next(s, step).rows)
  {
    hide EffectOf, Allowed;
    StepAllowed(s, step);
    EffectEvolves(s.apps, s.rows, EffectOf(s, step));
  }

  /**
   The sweeper gives up on a PENDING payment, whose wallet gets back all that the row held, and on no other row. The row
   keeps its reserve, which counts for nobody.
   */
  lemma SweepReleases(s: State, id: nat, app: AppId)
    ensures var s' := Next(s, SweepStale(id));
            if id < |s.rows| && s.rows[id].direction == Outgoing && s.rows[id].status == Pending then
              && s' == s.(rows := s.rows[id := s.rows[id].(status := Failed)])
              && IsolatedBalance(s'.rows, app) == IsolatedBalance(s.rows, app) +
                   (if s.rows[id].app == Some(app) then
                      s.rows[id].amount + s.rows[id].fee + s.rows[id].reserve + s.rows[id].skim
                    else 0)
            else s' == s
  {
    var e := EffectOf(s, SweepStale(id));
    SumApply(s.rows, e, BalanceOf(app));
  }

  lemma EvolvesTransitive(a: seq<Row>, b: seq<Row>, c: seq<Row>)
    requires Evolves(a, b) && Evolves(b, c)
    ensures Evolves(a, c)
  {
    forall i | 0 <= i < |a| ensures RowEvolves(a[i], c[i]) {
      assert RowEvolves(a[i], b[i]) && RowEvolves(b[i], c[i]);
    }
  }

  /** Over any run a settled row is never touched again, and no row is lost or changes its identity. */
  lemma {:induction false} SettledIsFinal(s: State, steps: seq<Step>)
    ensures Evolves(s.rows, Run(s, steps).rows)
  {
    if |steps| > 0 {
      var init := steps[..|steps| - 1];
      SettledIsFinal(s, init);
      StepEvolves(Run(s, init), steps[|steps| - 1]);
      EvolvesTransitive(s.rows, Run(s, init).rows, Run(s, steps).rows);
    }
  }

  // ---------- the invariants, one effect at a time ----------

  ghost predicate CoherentRows(apps: Apps, rows: seq<Row>)
  {
    && (forall i :: 0 <= i < |rows| ==> WellFormedRow(apps, rows[i]))
    && SettledOnce(rows)
    && CreditsMatch(apps, rows)
  }

  ghost predicate Coherent(s: State)
  {
    CoherentRows(s.apps, s.rows) && EventsMatch(s)
  }

  lemma CreditHasSource(apps: Apps, rows: seq<Row>, j: nat)
    requires CoherentRows(apps, rows) && j < |rows| && rows[j].hash.FeeSkimOf?
    ensures HasSettled(rows, Outgoing, rows[j].hash.source)
  {
    var i :| 0 <= i < |rows| && Skimmed(rows[i]) && IsCreditOf(apps, rows[j], rows[i]);
    assert IsSettled(rows[i], Outgoing, rows[j].hash.source);
  }

  /** A hash that has no settled row in a direction has no fee credit derived from it. */
  lemma NoCreditYet(apps: Apps, rows: seq<Row>, hash: PaymentHash)
    requires CoherentRows(apps, rows) && !HasSettled(rows, Outgoing, hash)
    ensures forall j :: 0 <= j < |rows| ==> rows[j].hash != FeeSkimOf(hash)
  {
    forall j | 0 <= j < |rows| ensures rows[j].hash != FeeSkimOf(hash) {
      if rows[j].hash.FeeSkimOf? {
        CreditHasSource(apps, rows, j);
      }
    }
  }

  lemma KeepsWellFormed(apps: Apps, rows: seq<Row>, e: Effect)
    requires Fits(rows, e) && Allowed(apps, rows, e)
    requires forall i :: 0 <= i < |rows| ==> WellFormedRow(apps, rows[i])
    ensures forall i :: 0 <= i < |Apply(rows, e)| ==> WellFormedRow(apps, Apply(rows, e)[i])
  {
    if e.Update? || e.UpdateAndInsert? {
      assert WellFormedRow(apps, rows[e.id]);
    }
  }

  lemma OnceAfterInsert(rows: seq<Row>, row: Row)
    requires SettledOnce(rows)
    requires forall i :: 0 <= i < |rows| ==> !SameSettlement(rows[i], row)
    ensures SettledOnce(rows + [row])
  {
    var rows' := rows + [row];
    forall i, j | 0 <= i < |rows'| && 0 <= j < |rows'| && SameSettlement(rows'[i], rows'[j]) ensures i == j {
      if i < |rows| && j < |rows| {
        assert SameSettlement(rows[i], rows[j]);
      }
    }
  }

  lemma OnceAfterUpdate(rows: seq<Row>, id: nat, after: Row)
    requires id < |rows| && SettledOnce(rows) && SameIdentity(rows[id], after)
    requires after.status == Settled ==> !HasSettled(rows, after.direction, after.hash)
    ensures SettledOnce(rows[id := after])
  {
    forall i | 0 <= i < |rows| && after.status == Settled ensures !SameSettlement(rows[i], after) {
      assert !IsSettled(rows[i], after.direction, after.hash);
    }
    var rows' := rows[id := after];
    forall i, j | 0 <= i < |rows'| && 0 <= j < |rows'| && SameSettlement(rows'[i], rows'[j])
      ensures i == j
    {
      if i != id && j != id {
        assert SameSettlement(rows[i], rows[j]);
      }
    }
  }

  lemma KeepsOnce(apps: Apps, rows: seq<Row>, e: Effect)
    requires Fits(rows, e) && Allowed(apps, rows, e) && CoherentRows(apps, rows)
    ensures SettledOnce(Apply(rows, e))
  {
    match e
    case Same =>
    case Insert(row) => OnceAfterInsert(rows, row);
    case Update(id, after) => OnceAfterUpdate(rows, id, after);
    case UpdateAndInsert(id, after, extra) =>
      OnceAfterUpdate(rows, id, after);
      NoCreditYet(apps, rows, rows[id].hash);
      OnceAfterInsert(rows[id := after], extra);
  }

  ghost predicate HasCredit(apps: Apps, rows: seq<Row>, r: Row)
  {
    exists j :: 0 <= j < |rows| && IsCreditOf(apps, rows[j], r)
  }

  ghost predicate HasSource(apps: Apps, rows: seq<Row>, credit: Row)
  {
    exists i :: 0 <= i < |rows| && Skimmed(rows[i]) && IsCreditOf(apps, credit, rows[i])
  }

  lemma CreditStays(apps: Apps, rows: seq<Row>, rows': seq<Row>, r: Row)
    requires Evolves(rows, rows') && HasCredit(apps, rows, r)
    ensures HasCredit(apps, rows', r)
  {
    var j :| 0 <= j < |rows| && IsCreditOf(apps, rows[j], r);
    assert RowEvolves(rows[j], rows'[j]);
    assert IsCreditOf(apps, rows'[j], r);
  }

  lemma SourceStays(apps: Apps, rows: seq<Row>, rows': seq<Row>, credit: Row)
    requires Evolves(rows, rows') && HasSource(apps, rows, credit)
    ensures HasSource(apps, rows', credit)
  {
    var i :| 0 <= i < |rows| && Skimmed(rows[i]) && IsCreditOf(apps, credit, rows[i]);
    assert RowEvolves(rows[i], rows'[i]);
    assert IsCreditOf(apps, credit, rows'[i]);
  }

  lemma NewCredit(apps: Apps, rows: seq<Row>, e: Effect, j: nat)
    requires Fits(rows, e) && Allowed(apps, rows, e) && |rows| <= j < |Apply(rows, e)|
    ensures Apply(rows, e)[j].hash.FeeSkimOf? ==> HasSource(apps, Apply(rows, e), Apply(rows, e)[j])
  {
    if e.UpdateAndInsert? {
      var rows' := Apply(rows, e);
      assert Skimmed(rows'[e.id]) && IsCreditOf(apps, rows'[j], rows'[e.id]);
    }
  }

  lemma NewSkim(apps: Apps, rows: seq<Row>, e: Effect, i: nat)
    requires Fits(rows, e) && Allowed(apps, rows, e) && i < |Apply(rows, e)| && Skimmed(Apply(rows, e)[i])
    requires i < |rows| ==> WellFormedRow(apps, rows[i]) && !Skimmed(rows[i])
    ensures HasCredit(apps, Apply(rows, e), Apply(rows, e)[i])
  {
    var rows' := Apply(rows, e);
    assert e.UpdateAndInsert? && e.id == i;
    assert IsCreditOf(apps, rows'[|rows|], rows'[i]);
  }

  lemma KeepsCredits(apps: Apps, rows: seq<Row>, e: Effect)
    requires Fits(rows, e) && Allowed(apps, rows, e) && CoherentRows(apps, rows)
    ensures CreditsMatch(apps, Apply(rows, e))
  {
    hide Allowed;
    var rows' := Apply(rows, e);
    EffectEvolves(apps, rows, e);
    forall j | 0 <= j < |rows'| && rows'[j].hash.FeeSkimOf? ensures HasSource(apps, rows', rows'[j]) {
      if j < |rows| {
        assert RowEvolves(rows[j], rows'[j]) && WellFormedRow(apps, rows[j]);
        assert HasSource(apps, rows, rows[j]);
        SourceStays(apps, rows, rows', rows[j]);
      } else {
        NewCredit(apps, rows, e, j);
      }
    }
    forall i | 0 <= i < |rows'| && Skimmed(rows'[i]) ensures HasCredit(apps, rows', rows'[i]) {
      if i < |rows| && Skimmed(rows[i]) {
        assert RowEvolves(rows[i], rows'[i]) && HasCredit(apps, rows, rows[i]);
        CreditStays(apps, rows, rows', rows[i]);
      } else {
        NewSkim(apps, rows, e, i);
      }
    }
  }

  lemma CoherentInGrownApps(apps: Apps, apps': Apps, rows: seq<Row>)
    requires Extends(apps, apps') && CoherentRows(apps, rows)
    ensures CoherentRows(apps', rows)
  {
    forall i | 0 <= i < |rows| ensures WellFormedRow(apps', rows[i]) {
      assert WellFormedRow(apps, rows[i]);
    }
    forall j | 0 <= j < |rows| && rows[j].hash.FeeSkimOf? ensures HasSource(apps', rows, rows[j]) {
      assert HasSource(apps, rows, rows[j]);
      var i :| 0 <= i < |rows| && Skimmed(rows[i]) && IsCreditOf(apps, rows[j], rows[i]);
      assert IsCreditOf(apps', rows[j], rows[i]);
    }
    forall i | 0 <= i < |rows| && Skimmed(rows[i]) ensures HasCredit(apps', rows, rows[i]) {
      assert HasCredit(apps, rows, rows[i]);
      var j :| 0 <= j < |rows| && IsCreditOf(apps, rows[j], rows[i]);
      assert IsCreditOf(apps', rows[j], rows[i]);
    }
  }

  lemma KeepsCoherentRows(apps: Apps, rows: seq<Row>, e: Effect)
    requires Fits(rows, e) && Allowed(apps, rows, e) && CoherentRows(apps, rows)
    ensures CoherentRows(apps, Apply(rows, e))
  {
    hide Allowed;
    KeepsWellFormed(apps, rows, e);
    KeepsOnce(apps, rows, e);
    KeepsCredits(apps, rows, e);
  }

  predicate WasSettled(rows: seq<Row>, i: nat)
  {
    i < |rows| && rows[i].status == Settled
  }

  /** Exactly the rows a step settles are owed a settlement event. */
  lemma StepOwes(s: State, step: Step)
    requires forall i :: 0 <= i < |s.rows| ==> WellFormedRow(s.apps, s.rows[i])
    ensures forall e <- Owes(s, step) ::
              EventFits(Next(s, step).rows, e) && (e.RowSettled? ==> !WasSettled(s.rows, e.row))
    ensures forall i | 0 <= i < |Next(s, step).rows| && !WasSettled(s.rows, i) ::
              WasSettled(Next(s, step).rows, i) && Next(s, step).rows[i].hash.Invoice? ==>
                RowSettled(i) in Owes(s, step)
  {
    hide Admit;
    StepAllowed(s, step);
    match step
    case SendPayment(req) => SentRow(s, req);
    case MarkSettled(id, fee, selfPayment) =>
      if id < |s.rows| {
        assert WellFormedRow(s.apps, s.rows[id]);
      }
    case _ =>
  }

  lemma EventStillFits(rows: seq<Row>, rows': seq<Row>, e: Event)
    requires Evolves(rows, rows') && EventFits(rows, e)
    ensures EventFits(rows', e)
  {
    var i := match e case RowSettled(i) => i case HoldCanceled(i) => i;
    assert RowEvolves(rows[i], rows'[i]);
  }

  lemma KeepsEvents(s: State, step: Step)
    requires Coherent(s)
    ensures EventsMatch(Next(s, step))
  {
    hide EffectOf, Apply;
    var s' := Next(s, step);
    StepEvolves(s, step);
    StepOwes(s, step);
    forall e | EventFits(s.rows, e) ensures EventFits(s'.rows, e) {
      EventStillFits(s.rows, s'.rows, e);
    }
    forall i | 0 <= i < |s'.rows| && s'.rows[i].status == Settled && s'.rows[i].hash.Invoice?
      ensures RowSettled(i) in s'.owed || RowSettled(i) in s'.log
    {
      if WasSettled(s.rows, i) {
        assert RowEvolves(s.rows[i], s'.rows[i]);
        assert RowSettled(i) in s.owed || RowSettled(i) in s.log;
      } else {
        assert WasSettled(s'.rows, i);
      }
    }
    OwedOnlyOnce(s, step);
  }

  /** No event is published twice, and a published settlement is not owed again. */
  lemma OwedOnlyOnce(s: State, step: Step)
    requires Coherent(s)
    ensures forall e :: e in Next(s, step).owed ==> e.RowSettled? ==> e !in Next(s, step).log
    ensures forall i, j :: 0 <= i < j < |Next(s, step).log| && Next(s, step).log[i].RowSettled? ==>
              Next(s, step).log[i] != Next(s, step).log[j]
  {
    hide EffectOf, Owes, Apply;
    StepOwes(s, step);
    forall e | e in Owes(s, step) && e.RowSettled? ensures e !in s.log {
      assert e in s.log ==> EventFits(s.rows, e);
    }
  }

  lemma StepKeepsCoherent(s: State, step: Step)
    requires Coherent(s)
    ensures Coherent(Next(s, step))
  {
    KeepsEvents(s, step);
    hide EffectOf, Allowed;
    StepAllowed(s, step);
    KeepsCoherentRows(s.apps, s.rows, EffectOf(s, step));
    CoherentInGrownApps(s.apps, Next(s, step).apps, Next(s, step).rows);
  }

  lemma {:induction false} RunKeepsCoherent(s: State, steps: seq<Step>)
    requires Coherent(s)
    ensures Coherent(Run(s, steps))
  {
    if |steps| > 0 {
      RunKeepsCoherent(s, steps[..|steps| - 1]);
      StepKeepsCoherent(Run(s, steps[..|steps| - 1]), steps[|steps| - 1]);
    }
  }

  /**
   Exactly-once settlement in every interleaving from an empty database: one settled row per direction and hash, one
   announcement per settled payment, no announcement of an unsettled one, one hub credit per skimmed payment.
   */
  lemma SettlesExactlyOnce(steps: seq<Step>)
    ensures Coherent(Run(Empty, steps))
    ensures SettledOnce(Run(Empty, steps).rows)
    ensures CreditsMatch(Run(Empty, steps).apps, Run(Empty, steps).rows)
    ensures forall i :: multiset(Run(Empty, steps).log)[RowSettled(i)] <= 1
    ensures forall i | 0 <= i < |Run(Empty, steps).rows| && Run(Empty, steps).rows[i].hash.Invoice? ::
              (Run(Empty, steps).rows[i].status == Settled) ==
              ((RowSettled(i) in Run(Empty, steps).log) != (RowSettled(i) in Run(Empty, steps).owed))
  {
    RunKeepsCoherent(Empty, steps);
    var s := Run(Empty, steps);
    forall i ensures multiset(s.log)[RowSettled(i)] <= 1 {
      AtMostOneOccurrence(s.log, RowSettled(i));
    }
    forall i | 0 <= i < |s.rows| && s.rows[i].hash.Invoice?
      ensures (s.rows[i].status == Settled) == ((RowSettled(i) in s.log) != (RowSettled(i) in s.owed))
    {
      assert RowSettled(i) in s.log ==> EventFits(s.rows, RowSettled(i));
      assert RowSettled(i) in s.owed ==> EventFits(s.rows, RowSettled(i));
    }
  }

  lemma {:induction false} AtMostOneOccurrence<T>(xs: seq<T>, x: T)
    requires forall i, j :: 0 <= i < j < |xs| && xs[i] == x ==> xs[i] != xs[j]
    ensures multiset(xs)[x] <= 1
  {
    if |xs| > 0 {
      var init := xs[..|xs| - 1];
      assert xs == init + [xs[|xs| - 1]];
      AtMostOneOccurrence(init, x);
      if xs[|xs| - 1] == x {
        assert x !in init;
      }
    }
  }

  ghost function CreditTo(hub: AppId): Row -> int
  {
    (r: Row) => if r.hash.FeeSkimOf? && r.app == Some(hub) then r.amount else 0
  }

  ghost function SkimmedFor(apps: Apps, hub: AppId): Row -> int
  {
    (r: Row) =>
      if Skimmed(r) && r.app.Some? && r.app.value in apps && apps[r.app.value].parent == Some(hub) then r.skim else 0
  }

  /** A hub has earned exactly the skims on the settled rows of its children. */
  ghost predicate HubIncomeMatches(s: State, hub: AppId)
  {
    Sum(s.rows, CreditTo(hub)) == Sum(s.rows, SkimmedFor(s.apps, hub))
  }

  lemma StepKeepsHubIncome(s: State, step: Step, hub: AppId)
    requires Coherent(s) && HubIncomeMatches(s, hub)
    ensures HubIncomeMatches(Next(s, step), hub)
  {
    hide EffectOf, Allowed;
    var s' := Next(s, step);
    StepAllowed(s, step);
    var e := EffectOf(s, step);
    SumApply(s.rows, e, CreditTo(hub));
    SumApply(s.rows, e, SkimmedFor(s.apps, hub));
    CreditEqualsSkim(s.apps, s.rows, e, hub);
    KeepsCoherentRows(s.apps, s.rows, e);
    forall i | 0 <= i < |s'.rows| ensures SkimmedFor(s.apps, hub)(s'.rows[i]) == SkimmedFor(s'.apps, hub)(s'.rows[i]) {
      assert WellFormedRow(s.apps, s'.rows[i]);
    }
    SumCongruent(s'.rows, SkimmedFor(s.apps, hub), SkimmedFor(s'.apps, hub));
  }

  /** One step adds the same to a hub's credits as to its children's settled skims. */
  lemma CreditEqualsSkim(apps: Apps, rows: seq<Row>, e: Effect, hub: AppId)
    requires Fits(rows, e) && Allowed(apps, rows, e) && CoherentRows(apps, rows)
    ensures Delta(rows, e, CreditTo(hub)) == Delta(rows, e, SkimmedFor(apps, hub))
  {
    if e.Update? || e.UpdateAndInsert? {
      assert WellFormedRow(apps, rows[e.id]);
    }
  }

  lemma {:induction false} HubEarnsItsSkims(steps: seq<Step>, hub: AppId)
    ensures HubIncomeMatches(Run(Empty, steps), hub)
  {
    if |steps| > 0 {
      var init := steps[..|steps| - 1];
      HubEarnsItsSkims(init, hub);
      SettlesExactlyOnce(init);
      StepKeepsHubIncome(Run(Empty, init), steps[|steps| - 1], hub);
    }
  }
  // ---------- a hub's income at one rate ----------

  predicate IsChildOf(apps: Apps, app: Option<AppId>, hub: AppId)
  {
    app.Some? && app.value in apps && apps[app.value].parent == Some(hub)
  }

  /** The hub has this rate whenever a child pays, and a payer's row is settled the way it was admitted. */
  predicate AtRateIn(s: State, step: Step, hub: AppId, ppm: int)
  {
    match step
    case SendPayment(req) => IsChildOf(s.apps, req.app, hub) ==> hub in s.apps && s.apps[hub].feesPpm == ppm
    case MarkSettled(id, _, selfPayment) =>
      EffectOf(s, step) != Same && s.rows[id].direction == Outgoing ==> selfPayment == s.rows[id].selfPayment
    case _ => true
  }

  ghost function AtRate(hub: AppId, ppm: int): (State, Step) -> bool
  {
    (s: State, step: Step) => AtRateIn(s, step, hub, ppm)
  }

  /** The payment that the hub takes its cut of: one that leaves the instance from a child circle wallet. */
  predicate IsCut(apps: Apps, r: Row, hub: AppId)
  {
    r.direction == Outgoing && !r.selfPayment && IsChildOf(apps, r.app, hub) && apps[r.app.value].kind == CircleWallet
  }

  predicate SkimmedAt(apps: Apps, r: Row, hub: AppId, ppm: int)
  {
    r.direction == Outgoing && r.app.Some? ==>
      && r.app.value in apps
      && (IsChildOf(apps, r.app, hub) ==>
          r.skim == if IsCut(apps, r, hub) then CalculateFeeSkimMloki(r.amount, ppm) else 0)
  }

  ghost predicate AllSkimmedAt(s: State, hub: AppId, ppm: int)
  {
    forall i :: 0 <= i < |s.rows| ==> SkimmedAt(s.apps, s.rows[i], hub, ppm)
  }

  lemma AdmittedAtRate(s: State, req: Request, hub: AppId, ppm: int)
    requires AtRateIn(s, SendPayment(req), hub, ppm) && Admit(s.apps, s.rows, req).Ok?
    ensures SkimmedAt(s.apps, Admit(s.apps, s.rows, req).value, hub, ppm)
  {
    hide IsolatedBalance, BudgetUsageLoki, Headroom, CalculateFeeSkimMloki, HasSettled, HasPendingOutgoing;
  }

  lemma StepKeepsRate(s: State, step: Step, hub: AppId, ppm: int)
    requires AtRateIn(s, step, hub, ppm) && AllSkimmedAt(s, hub, ppm)
    ensures AllSkimmedAt(Next(s, step), hub, ppm)
  {
    hide Admit, CalculateFeeSkimMloki;
    var s' := Next(s, step);
    StepEvolves(s, step);
    forall i | 0 <= i < |s'.rows| ensures SkimmedAt(s'.apps, s'.rows[i], hub, ppm) {
      if i < |s.rows| {
        assert RowEvolves(s.rows[i], s'.rows[i]) && SkimmedAt(s.apps, s.rows[i], hub, ppm);
      } else if step.SendPayment? {
        AdmittedAtRate(s, step.req, hub, ppm);
      }
    }
  }

  /** What the formula takes of each settled payment of the hub's circle wallets that left the instance. */
  ghost function FloorsFor(apps: Apps, hub: AppId, ppm: int): Row -> int
  {
    (r: Row) => if r.status == Settled && IsCut(apps, r, hub) then CalculateFeeSkimMloki(r.amount, ppm) else 0
  }

  /**
   At one rate, a hub's fee credits are the formula's cut of every payment of its circle wallets, and nothing else.
   */
  lemma HubEarnsItsFloors(steps: seq<Step>, hub: AppId, ppm: int)
    requires Along(Empty, steps, AtRate(hub, ppm))
    ensures var s := Run(Empty, steps);
            Sum(s.rows, CreditTo(hub)) == Sum(s.rows, FloorsFor(s.apps, hub, ppm))
  {
    var s := Run(Empty, steps);
    HubEarnsItsSkims(steps, hub);
    RunKeepsRate(steps, hub, ppm);
    forall i | 0 <= i < |s.rows| ensures SkimmedFor(s.apps, hub)(s.rows[i]) == FloorsFor(s.apps, hub, ppm)(s.rows[i]) {
      assert SkimmedAt(s.apps, s.rows[i], hub, ppm);
    }
    SumCongruent(s.rows, SkimmedFor(s.apps, hub), FloorsFor(s.apps, hub, ppm));
  }

  lemma {:induction false} RunKeepsRate(steps: seq<Step>, hub: AppId, ppm: int)
    requires Along(Empty, steps, AtRate(hub, ppm))
    ensures AllSkimmedAt(Run(Empty, steps), hub, ppm)
  {
    if |steps| > 0 {
      var init := steps[..|steps| - 1];
      RunKeepsRate(init, hub, ppm);
      StepKeepsRate(Run(Empty, init), steps[|steps| - 1], hub, ppm);
    }
  }

  ghost function PaidOutBy(apps: Apps, hub: AppId): Row -> int
  {
    (r: Row) => if r.status == Settled && IsCut(apps, r, hub) then r.amount else 0
  }

  ghost function CountedFor(apps: Apps, hub: AppId): Row -> int
  {
    (r: Row) => if r.status == Settled && IsCut(apps, r, hub) then 1 else 0
  }

  /**
   So, while uint64 holds the products, a hub earns its share of what its wallets paid out, rounded down by less than
   one mloki a payment.
   */
  lemma HubEarnsItsShare(steps: seq<Step>, hub: AppId, ppm: nat)
    requires Along(Empty, steps, AtRate(hub, ppm))
    requires forall i :: 0 <= i < |Run(Empty, steps).rows| ==> Run(Empty, steps).rows[i].amount * ppm < UINT64_RANGE
    ensures var s := Run(Empty, steps);
            var income := Sum(s.rows, CreditTo(hub));
            var volume := Sum(s.rows, PaidOutBy(s.apps, hub));
            var payments := Sum(s.rows, CountedFor(s.apps, hub));
            income * PPM_DIVISOR <= volume * ppm <= (income + payments) * PPM_DIVISOR
  {
    var s := Run(Empty, steps);
    HubEarnsItsFloors(steps, hub, ppm);
    SharesAdd(s.rows, s.apps, hub, ppm);
  }

  lemma {:induction false} SharesAdd(rows: seq<Row>, apps: Apps, hub: AppId, ppm: nat)
    requires forall i :: 0 <= i < |rows| ==> rows[i].amount * ppm < UINT64_RANGE
    ensures var floors := Sum(rows, FloorsFor(apps, hub, ppm));
            var volume := Sum(rows, PaidOutBy(apps, hub));
            var payments := Sum(rows, CountedFor(apps, hub));
            floors * PPM_DIVISOR <= volume * ppm <= (floors + payments) * PPM_DIVISOR
  {
    if |rows| > 0 {
      var init, last := rows[..|rows| - 1], rows[|rows| - 1];
      SharesAdd(init, apps, hub, ppm);
      SkimExactIffNoWrap(last.amount, ppm);
      Distribute(Sum(init, PaidOutBy(apps, hub)), PaidOutBy(apps, hub)(last), ppm);
    }
  }

  lemma Distribute(a: int, b: int, c: int)
    ensures (a + b) * c == a * c + b * c
  {
  }
}
