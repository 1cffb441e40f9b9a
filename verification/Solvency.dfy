/**
 Two bounds every interleaving keeps for a wallet whose settlements cost no more than the check reserved for them:
 an isolated wallet never commits more than it holds, and a budget is never overspent beyond the rounding slack.
 */
module Solvency {
  import opened Wrappers
  import opened Sums
  import opened Fees
  import opened Ledger
  import opened Admission
  import opened Protocol

  ghost function Committed(s: State, app: AppId): int
  {
    Sum(s.rows, CommittedOf(app))
  }

  /** The settlement takes effect on an outgoing row of the app. */
  predicate SettlesFor(s: State, step: Step, app: AppId)
  {
    && step.MarkSettled? && EffectOf(s, step) != Same
    && s.rows[step.id].app == Some(app) && s.rows[step.id].direction == Outgoing
  }

  /** What the node is assumed to do for this app: no FAILED row settles late, no fee exceeds the charged reserve. */
  predicate CoveredBySettlement(s: State, step: Step, app: AppId)
  {
    SettlesFor(s, step, app) ==>
      s.rows[step.id].status == Pending && step.fee <= ChargedReserve(s.rows[step.id])
  }

  /** A payment of the app is small enough for the uint64 sums of the check. */
  predicate NoWrap(s: State, req: Request)
  {
    req.app.Some? && req.app.value in s.apps ==>
      Need(s.apps, s.apps[req.app.value], req) < UINT64_RANGE
  }

  ghost function StaysCovered(app: AppId): (State, Step) -> bool
  {
    (s: State, step: Step) =>
      CoveredBySettlement(s, step, app) && (step.SendPayment? && step.req.app == Some(app) ==> NoWrap(s, step.req))
  }

  predicate IsolatedOrAbsent(s: State, app: AppId)
  {
    app in s.apps ==> IsIsolatedKind(s.apps[app].kind)
  }

  lemma BalanceAtMostCommitted(rows: seq<Row>, app: AppId)
    ensures IsolatedBalance(rows, app) <= Sum(rows, CommittedOf(app))
  {
    SumAtMost(rows, BalanceOf(app), CommittedOf(app));
  }

  lemma AdmissionKeepsSolvent(s: State, req: Request, app: AppId)
    requires IsolatedOrAbsent(s, app) && Committed(s, app) >= 0 && req.app == Some(app) && NoWrap(s, req)
    requires Admit(s.apps, s.rows, req).Ok?
    ensures Committed(s, app) + CommittedOf(app)(Admit(s.apps, s.rows, req).value) >= 0
  {
    HeadroomIsNeed(s.apps, s.apps[app], req);
    BalanceAtMostCommitted(s.rows, app);
  }

  /** Only a payment's own insert lowers the committed balance. */
  lemma OtherStepsKeepCommitted(s: State, step: Step, app: AppId)
    requires CoveredBySettlement(s, step, app) && Fits(s.rows, EffectOf(s, step))
    requires step.SendPayment? ==> step.req.app != Some(app)
    ensures Delta(s.rows, EffectOf(s, step), CommittedOf(app)) >= 0
  {
    match EffectOf(s, step)
    case Same =>
    case Insert(row) =>
    case Update(id, after) =>
    case UpdateAndInsert(id, after, extra) =>
  }

  lemma StepKeepsSolvent(s: State, step: Step, app: AppId)
    requires IsolatedOrAbsent(s, app) && Committed(s, app) >= 0
    requires StaysCovered(app)(s, step)
    ensures Committed(Next(s, step), app) >= 0
  {
    EffectFits(s, step);
    SumApply(s.rows, EffectOf(s, step), CommittedOf(app));
    if step.SendPayment? && step.req.app == Some(app) {
      if Admit(s.apps, s.rows, step.req).Ok? {
        AdmissionKeepsSolvent(s, step.req, app);
      }
    } else {
      OtherStepsKeepCommitted(s, step, app);
    }
  }

  lemma {:induction false} AppsOnlyGrow(s: State, steps: seq<Step>)
    ensures Extends(s.apps, Run(s, steps).apps)
  {
    if |steps| > 0 {
      AppsOnlyGrow(s, steps[..|steps| - 1]);
    }
  }

  /** Solvency over any run: what an isolated wallet has spent and reserved never exceeds what it received. */
  lemma {:induction false} IsolatedWalletStaysSolvent(s: State, steps: seq<Step>, app: AppId)
    requires Committed(s, app) >= 0
    requires Along(s, steps, StaysCovered(app))
    requires IsolatedOrAbsent(Run(s, steps), app)
    ensures Committed(Run(s, steps), app) >= 0
  {
    if |steps| > 0 {
      var init, last := steps[..|steps| - 1], steps[|steps| - 1];
      assert Extends(Run(s, init).apps, Run(s, steps).apps) by {
        AppsOnlyGrow(Run(s, init), [last]);
        assert [last][..0] == [];
      }
      IsolatedWalletStaysSolvent(s, init, app);
      StepKeepsSolvent(Run(s, init), last, app);
    }
  }

  ghost function UnchargedOf(app: AppId): Row -> int
  {
    (r: Row) => if r.app == Some(app) && Live(r) then r.reserve - ChargedReserve(r) else 0
  }

  /** The balance the queries show dips below zero by no more than the reserves nobody was asked to cover. */
  lemma ShownBalanceBound(s: State, steps: seq<Step>, app: AppId)
    requires Committed(s, app) >= 0
    requires Along(s, steps, StaysCovered(app))
    requires IsolatedOrAbsent(Run(s, steps), app)
    ensures IsolatedBalance(Run(s, steps).rows, app) >= -Sum(Run(s, steps).rows, UnchargedOf(app))
  {
    IsolatedWalletStaysSolvent(s, steps, app);
    SumSplits(Run(s, steps).rows, BalanceOf(app), UnchargedOf(app), CommittedOf(app));
  }

  /** The money a settlement takes that the check had not set aside: for a FAILED row, the whole payment. */
  function Unreserved(r: Row, fee: nat): int
  {
    if r.status == Pending then fee - r.fee - ChargedReserve(r) else r.amount + r.skim + fee
  }

  /** Why the hypothesis is needed, exactly: a settlement is covered iff the committed balance holds what it takes. */
  lemma SettlementStaysSolventIff(s: State, step: Step, app: AppId)
    requires SettlesFor(s, step, app)
    requires app in s.apps && s.apps[app].parent != Some(app)
    ensures (Committed(Next(s, step), app) >= 0) == (Committed(s, app) >= Unreserved(s.rows[step.id], step.fee))
  {
    hide Admit;
    EffectFits(s, step);
    SumApply(s.rows, EffectOf(s, step), CommittedOf(app));
    var r := s.rows[step.id];
    assert !IsSettled(r, r.direction, r.hash);
  }

  // ---------- budgets ----------

  /** As the budget usage, but a pending row reserves only what the check charged for it. */
  ghost function CheckedSpendOf(app: AppId, since: int): Row -> int
  {
    (r: Row) =>
      if r.app == Some(app) && Live(r) && r.createdAt > since then r.amount + r.fee + r.skim + ChargedReserve(r) else 0
  }

  ghost function CheckedSpend(s: State, app: AppId, since: int): int
  {
    Sum(s.rows, CheckedSpendOf(app, since))
  }

  predicate ChecksCap(s: State, req: Request, app: AppId, since: int, cap: nat)
    requires app in s.apps
  {
    && s.apps[app].maxAmountLoki == cap
    && Need(s.apps, s.apps[app], req) / 1000 + BudgetUsageLoki(s.rows, app, since) < UINT64_RANGE
  }

  /** Every payment of the app in the period is checked against the cap M, without wrap-around, and settles covered. */
  ghost function WithinOnePeriod(app: AppId, since: int, cap: nat): (State, Step) -> bool
  {
    (s: State, step: Step) =>
      && CoveredBySettlement(s, step, app)
      && (step.SendPayment? && step.req.app == Some(app) && step.req.now > since ==>
            && step.req.budgetStart == since && !step.req.IsInternal() && NoWrap(s, step.req)
            && (app in s.apps ==> ChecksCap(s, step.req, app, since, cap)))
  }

  lemma AdmittedWithinCap(s: State, req: Request, app: AppId, since: int, cap: nat)
    requires req.app == Some(app) && req.now > since && cap > 0
    requires WithinOnePeriod(app, since, cap)(s, SendPayment(req))
    requires Admit(s.apps, s.rows, req).Ok?
    ensures app in s.apps
    ensures Need(s.apps, s.apps[app], req) / 1000 + BudgetUsageLoki(s.rows, app, since) <= cap
  {
    HeadroomIsNeed(s.apps, s.apps[app], req);
    var sum := Need(s.apps, s.apps[app], req) / 1000 + BudgetUsageLoki(s.rows, app, since);
    hide Need, Headroom, BudgetUsageLoki;
    assert Wrap(sum) == sum;
  }

  /** Both operands of the check are rounded down to loki, so one admission can overshoot by at most 2 * 999 mloki. */
  lemma RoundingSlack(need: nat, used: nat, cap: nat)
    requires need / 1000 + used / 1000 <= cap
    ensures used + need <= 1000 * cap + 1998
  {
  }

  lemma AdmissionKeepsBudget(s: State, req: Request, app: AppId, since: int, cap: nat)
    requires req.app == Some(app) && req.now > since && cap > 0
    requires WithinOnePeriod(app, since, cap)(s, SendPayment(req))
    requires Admit(s.apps, s.rows, req).Ok?
    ensures CheckedSpend(s, app, since) + CheckedSpendOf(app, since)(Admit(s.apps, s.rows, req).value)
         <= 1000 * cap + 1998
  {
    AdmittedWithinCap(s, req, app, since, cap);
    SumAtMost(s.rows, CheckedSpendOf(app, since), SpentOf(app, since));
    SumNonNegative(s.rows, SpentOf(app, since));
    RoundingSlack(Need(s.apps, s.apps[app], req), Sum(s.rows, SpentOf(app, since)), cap);
    AdmittedCostsNeed(s, req, app);
  }

  /** What an admitted row counts for is what the check asked for. */
  lemma AdmittedCostsNeed(s: State, req: Request, app: AppId)
    requires req.app == Some(app) && Admit(s.apps, s.rows, req).Ok?
    ensures app in s.apps
    ensures var r := Admit(s.apps, s.rows, req).value;
            r.amount + r.fee + r.skim + ChargedReserve(r) == Need(s.apps, s.apps[app], req)
  {
    hide CalculateFeeReserveMloki, IsolatedBalance, BudgetUsageLoki, Headroom;
  }

  lemma OtherStepsKeepSpend(s: State, step: Step, app: AppId, since: int)
    requires CoveredBySettlement(s, step, app) && Fits(s.rows, EffectOf(s, step))
    requires step.SendPayment? ==> step.req.app != Some(app) || step.req.now <= since
    ensures Delta(s.rows, EffectOf(s, step), CheckedSpendOf(app, since)) <= 0
  {
    match EffectOf(s, step)
    case Same =>
    case Insert(row) =>
    case Update(id, after) =>
    case UpdateAndInsert(id, after, extra) =>
  }

  /** Over a whole budget period usage never exceeds the cap by more than 1998 mloki. */
  lemma {:induction false} BudgetNeverOverspent(s: State, steps: seq<Step>, app: AppId, since: int, cap: nat)
    requires cap > 0 && CheckedSpend(s, app, since) <= 1000 * cap + 1998
    requires Along(s, steps, WithinOnePeriod(app, since, cap))
    ensures CheckedSpend(Run(s, steps), app, since) <= 1000 * cap + 1998
  {
    if |steps| > 0 {
      var init, last := steps[..|steps| - 1], steps[|steps| - 1];
      BudgetNeverOverspent(s, init, app, since, cap);
      var before := Run(s, init);
      EffectFits(before, last);
      SumApply(before.rows, EffectOf(before, last), CheckedSpendOf(app, since));
      if last.SendPayment? && last.req.app == Some(app) && last.req.now > since {
        if Admit(before.apps, before.rows, last.req).Ok? {
          AdmissionKeepsBudget(before, last.req, app, since, cap);
        }
      } else {
        OtherStepsKeepSpend(before, last, app, since);
      }
    }
  }

  function PayInvoiceHere(app: AppId, hash: nat, amount: nat): Request
  {
    Request(Some(app), hash, amount, true, false, Ordinary, 1, 0)
  }

  predicate Budgeted(s: State, app: AppId, cap: nat)
  {
    app in s.apps && s.apps[app] == App(Standard, None, NoParent, true, cap, 0)
  }

  predicate UsesOnlyBelow(rows: seq<Row>, hash: nat)
  {
    forall i :: 0 <= i < |rows| ==> rows[i].hash.Invoice? && rows[i].hash.id < hash
  }

  lemma SelfPaymentAdmitted(s: State, app: AppId, cap: nat, hash: nat, amount: nat)
    requires Budgeted(s, app, cap) && cap < MAX_INT64 && amount <= MAX_INT64 && UsesOnlyBelow(s.rows, hash)
    requires amount / 1000 + BudgetUsageLoki(s.rows, app, 0) <= cap
    ensures Admit(s.apps, s.rows, PayInvoiceHere(app, hash, amount))
             == Ok(OutgoingRow(PayInvoiceHere(app, hash, amount), 0))
  {
    var req := PayInvoiceHere(app, hash, amount);
    HeadroomIsNeed(s.apps, s.apps[app], req);
    var sum := amount / 1000 + BudgetUsageLoki(s.rows, app, 0);
    assert Wrap(sum) == sum;
  }

  ghost predicate Spends(s: State, steps: seq<Step>, app: AppId, cap: nat, hash: nat, amount: nat)
  {
    var s' := Run(s, steps);
    && Budgeted(s', app, cap) && UsesOnlyBelow(s'.rows, hash + 1)
    && Sum(s'.rows, SpentOf(app, 0)) == Sum(s.rows, SpentOf(app, 0)) + amount
    && CheckedSpend(s', app, 0) == CheckedSpend(s, app, 0) + amount
  }

  /** A payment to an invoice of this instance, admitted and settled at once, spends its amount. */
  lemma SettledSelfPayment(s: State, app: AppId, cap: nat, hash: nat, amount: nat)
    requires Budgeted(s, app, cap) && cap < MAX_INT64 && amount <= MAX_INT64 && UsesOnlyBelow(s.rows, hash)
    requires amount / 1000 + BudgetUsageLoki(s.rows, app, 0) <= cap
    ensures exists steps :: Spends(s, steps, app, cap, hash, amount)
  {
    hide Admit, EffectOf, Next, BudgetUsageLoki, CheckedSpend, SpentOf;
    var req := PayInvoiceHere(app, hash, amount);
    SelfPaymentAdmitted(s, app, cap, hash, amount);
    var steps := [SendPayment(req), MarkSettled(|s.rows|, 0, true)];
    RunOfTwo(s, steps[0], steps[1]);
    PendingRowSettles(s, req);
    SpendOfOneRow(s, Run(s, steps), app, req);
    assert Spends(s, steps, app, cap, hash, amount);
  }

  lemma PendingRowSettles(s: State, req: Request)
    requires Admit(s.apps, s.rows, req) == Ok(OutgoingRow(req, 0)) && req.selfPayment
    requires forall i :: 0 <= i < |s.rows| ==> s.rows[i].hash != Invoice(req.hash)
    ensures var s' := Next(Next(s, SendPayment(req)), MarkSettled(|s.rows|, 0, true));
            s'.apps == s.apps && s'.rows == s.rows + [SettledRow(OutgoingRow(req, 0), 0, true)]
  {
    assert Next(s, SendPayment(req)).rows == s.rows + [OutgoingRow(req, 0)];
  }

  lemma SpendOfOneRow(s: State, s': State, app: AppId, req: Request)
    requires req.app == Some(app) && req.now > 0
    requires s'.rows == s.rows + [SettledRow(OutgoingRow(req, 0), 0, true)]
    ensures Sum(s'.rows, SpentOf(app, 0)) == Sum(s.rows, SpentOf(app, 0)) + req.amount
    ensures CheckedSpend(s', app, 0) == CheckedSpend(s, app, 0) + req.amount
  {
    var row := SettledRow(OutgoingRow(req, 0), 0, true);
    SumSnoc(s.rows, row, SpentOf(app, 0));
    SumSnoc(s.rows, row, CheckedSpendOf(app, 0));
  }

  lemma RunOfTwo(s: State, a: Step, b: Step)
    ensures Run(s, [a, b]) == Next(Next(s, a), b)
  {
    assert [a, b][..1] == [a] && [a][..0] == [];
    assert Run(s, [a]) == Next(s, a);
  }

  /** The slack is exact: a budgeted app that has spent nothing reaches it with two settled payments. */
  lemma BudgetSlackIsReached(s: State, app: AppId, cap: nat)
    requires 0 < cap <= MAX_INT64 / 1000 && Budgeted(s, app, cap) && s.rows == []
    ensures exists steps :: CheckedSpend(Run(s, steps), app, 0) == 1000 * cap + 1998
  {
    SettledSelfPayment(s, app, cap, 0, 1000 * cap - 1);
    var first :| Spends(s, first, app, cap, 0, 1000 * cap - 1);
    SettledSelfPayment(Run(s, first), app, cap, 1, 1999);
    var second :| Spends(Run(s, first), second, app, cap, 1, 1999);
    RunConcat(s, first, second);
    assert CheckedSpend(Run(s, first + second), app, 0) == 1000 * cap + 1998;
  }
}
