/** The checks a payment passes before its row is written: scope, balance, budget and the JIT full-drain rule. */
module Admission {
  import opened Wrappers
  import opened Fees
  import opened Ledger

  datatype Kind = Standard | Isolated | JITHub | JITWallet | CircleHub | CircleWallet

  datatype ParentKind = NoParent | JITParent | CircleParent

  /** An app with its pay-capable permission and, for a circle hub, its fee rate. A cap of 0 is no cap. */
  datatype App = App(
    kind: Kind,
    parent: Option<AppId>,
    parentKind: ParentKind,
    hasPayScope: bool,
    maxAmountLoki: nat,
    feesPpm: int)

  predicate IsIsolatedKind(kind: Kind)
  {
    kind != Standard
  }

  /**
   One payment as it reaches the insert. `keysend` payments skip the duplicate-invoice checks, and
   budgetStart is the start of the app's budget period at the time `now`.
   */
  datatype Request = Request(
    app: Option<AppId>,
    hash: nat,
    amount: nat,
    selfPayment: bool,
    keysend: bool,
    purpose: Purpose,
    now: int,
    budgetStart: int)
  {
    predicate IsInternal() { purpose.InternalTransfer? || purpose.SweepBack? }
    predicate IsClaimPayout() { purpose.ClaimPayout? }
  }

  datatype Refusal =
    NotFound | NoPayScope | InsufficientBalance | QuotaExceeded | PartialSpend | AlreadyPaid | AlreadyPending

  datatype Clearance = Clearance(isolatedBalance: int, parentKind: ParentKind, skim: nat)

  type Apps = map<AppId, App>

  /** The parent hub's rate, 0 when there is no parent hub. */
  function FeesPpmFor(apps: Apps, app: App): int
  {
    if app.parent.Some? && app.parent.value in apps then apps[app.parent.value].feesPpm else 0
  }

  function SkimFor(apps: Apps, app: App, req: Request): nat
  {
    if app.kind == CircleWallet && !req.selfPayment then CalculateFeeSkimMloki(req.amount, FeesPpmFor(apps, app)) else 0
  }

  predicate ReserveCharged(req: Request)
  {
    !req.selfPayment && !req.IsClaimPayout()
  }

  /** amountWithFeeReserve, as uint64 arithmetic leaves it. */
  function Headroom(apps: Apps, app: App, req: Request): nat
  {
    var withSkim := Wrap(req.amount + SkimFor(apps, app, req));
    if ReserveCharged(req) then Wrap(withSkim + CalculateFeeReserveMloki(req.amount)) else withSkim
  }

  /** The same sum over the integers. */
  function Need(apps: Apps, app: App, req: Request): nat
  {
    req.amount + SkimFor(apps, app, req) + (if ReserveCharged(req) then CalculateFeeReserveMloki(req.amount) else 0)
  }

  function ValidateCanPay(apps: Apps, rows: seq<Row>, req: Request): Result<Clearance, Refusal>
  {
    if req.app.None? then Ok(Clearance(0, NoParent, 0))
    else if req.app.value !in apps then Err(NotFound)
    else
      var app := apps[req.app.value];
      var headroom := Headroom(apps, app, req);
      var balance := if IsIsolatedKind(app.kind) then IsolatedBalance(rows, req.app.value) else 0;
      if !app.hasPayScope && !req.IsInternal() then Err(NoPayScope)
      else if IsIsolatedKind(app.kind) && (headroom > MAX_INT64 || headroom > balance) then Err(InsufficientBalance)
      else if app.maxAmountLoki > 0 && !req.IsInternal()
           && Wrap(headroom / 1000 + BudgetUsageLoki(rows, req.app.value, req.budgetStart)) > app.maxAmountLoki then
        Err(QuotaExceeded)
      else Ok(Clearance(balance, app.parentKind, SkimFor(apps, app, req)))
  }

  /** A JIT wallet must be drained in one payment, up to the fee reserve. */
  predicate BreaksFullDrain(c: Clearance, req: Request)
  {
    && c.parentKind == JITParent && !req.IsInternal() && !req.IsClaimPayout()
    && c.isolatedBalance - req.amount > CalculateFeeReserveMloki(req.amount)
  }

  function OutgoingRow(req: Request, skim: nat): Row
  {
    Row(req.app, Outgoing, Pending, req.amount, 0, CalculateFeeReserveMloki(req.amount), skim, Invoice(req.hash),
        req.selfPayment, false, req.keysend, req.purpose, req.now)
  }

  /** The body of the inserting transaction: a fresh pending row, or the reason why there is none. */
  function Admit(apps: Apps, rows: seq<Row>, req: Request): Result<Row, Refusal>
  {
    if !req.keysend && HasSettled(rows, Outgoing, Invoice(req.hash)) then Err(AlreadyPaid)
    else if !req.keysend && HasPendingOutgoing(rows, Invoice(req.hash)) then Err(AlreadyPending)
    else
      match ValidateCanPay(apps, rows, req)
      case Err(why) => Err(why)
      case Ok(c) => if BreaksFullDrain(c, req) then Err(PartialSpend) else Ok(OutgoingRow(req, c.skim))
  }

  /** No payment of the invoice is settled or pending; failed ones may be made again. */
  predicate MayBePaid(rows: seq<Row>, hash: nat)
  {
    !HasSettled(rows, Outgoing, Invoice(hash)) && !HasPendingOutgoing(rows, Invoice(hash))
  }

  // ---------- the check, said independently ----------

  predicate Owned(apps: Apps, req: Request)
  {
    req.app.Some? && req.app.value in apps
  }

  /** The hub's cut of a payment, the floor over the integers; only what a circle wallet sends out is cut. */
  function ExactSkim(apps: Apps, req: Request): nat
    requires Owned(apps, req)
  {
    var app := apps[req.app.value];
    if app.kind != CircleWallet || req.selfPayment || app.parent.None? || app.parent.value !in apps
       || apps[app.parent.value].feesPpm <= 0 then 0
    else req.amount * apps[app.parent.value].feesPpm / 1_000_000
  }

  /** 1% of the payment rounded up, at least 10 loki. */
  function ExactReserve(req: Request): nat
  {
    if req.amount <= 1_000_000 then 10_000 else (req.amount + 99) / 100
  }

  /** What the wallet has to have: amount, cut, and a reserve unless the payment stays inside or pays out a slice. */
  function ExactNeed(apps: Apps, req: Request): nat
    requires Owned(apps, req)
  {
    req.amount + ExactSkim(apps, req) + (if req.selfPayment || req.purpose.ClaimPayout? then 0 else ExactReserve(req))
  }

  /** Each reason to refuse a payment, on the rows and the app alone. */
  predicate Stops(apps: Apps, rows: seq<Row>, req: Request, why: Refusal)
  {
    match why
    case AlreadyPaid =>
      !req.keysend && (exists i :: 0 <= i < |rows| && rows[i].direction == Outgoing
                                   && rows[i].hash == Invoice(req.hash) && rows[i].status == Settled)
    case AlreadyPending =>
      !req.keysend && (exists i :: 0 <= i < |rows| && rows[i].direction == Outgoing
                                   && rows[i].hash == Invoice(req.hash) && rows[i].status == Pending)
    case NotFound => req.app.Some? && req.app.value !in apps
    case NoPayScope =>
      && Owned(apps, req) && !apps[req.app.value].hasPayScope
      && !req.purpose.InternalTransfer? && !req.purpose.SweepBack?
    case InsufficientBalance =>
      && Owned(apps, req) && apps[req.app.value].kind != Standard
      && (ExactNeed(apps, req) > MAX_INT64 || ExactNeed(apps, req) > IsolatedBalance(rows, req.app.value))
    case QuotaExceeded =>
      && Owned(apps, req) && 0 < apps[req.app.value].maxAmountLoki
      && !req.purpose.InternalTransfer? && !req.purpose.SweepBack?
      && ExactNeed(apps, req) / 1000 + BudgetUsageLoki(rows, req.app.value, req.budgetStart)
         > apps[req.app.value].maxAmountLoki
    case PartialSpend =>
      && Owned(apps, req) && apps[req.app.value].parentKind == JITParent && req.purpose.Ordinary?
      && (if apps[req.app.value].kind == Standard then 0 else IsolatedBalance(rows, req.app.value)) - req.amount
         > ExactReserve(req)
  }

  /** The order of the checks. */
  function Order(why: Refusal): nat
  {
    match why
    case AlreadyPaid => 0
    case AlreadyPending => 1
    case NotFound => 2
    case NoPayScope => 3
    case InsufficientBalance => 4
    case QuotaExceeded => 5
    case PartialSpend => 6
  }

  /** The first reason there is. */
  predicate FirstStop(apps: Apps, rows: seq<Row>, req: Request, why: Refusal)
  {
    Stops(apps, rows, req, why) && forall other :: Order(other) < Order(why) ==> !Stops(apps, rows, req, other)
  }

  /** The product and the sums of the check stay below 2^64. */
  predicate FitsUint64(apps: Apps, rows: seq<Row>, req: Request)
  {
    Owned(apps, req) ==>
      && (apps[req.app.value].kind == CircleWallet && !req.selfPayment ==>
            req.amount * FeesPpmFor(apps, apps[req.app.value]) < UINT64_RANGE)
      && ExactNeed(apps, req) < UINT64_RANGE
      && ExactNeed(apps, req) / 1000 + BudgetUsageLoki(rows, req.app.value, req.budgetStart) < UINT64_RANGE
  }

  lemma NeedIsExact(apps: Apps, rows: seq<Row>, req: Request)
    requires Owned(apps, req) && FitsUint64(apps, rows, req)
    ensures var app := apps[req.app.value];
            && SkimFor(apps, app, req) == ExactSkim(apps, req)
            && Headroom(apps, app, req) == ExactNeed(apps, req)
  {
    var app := apps[req.app.value];
    var ppm := FeesPpmFor(apps, app);
    if app.kind == CircleWallet && !req.selfPayment && ppm > 0 {
      SkimNoWrap(req.amount, ppm);
    }
    HeadroomIsNeed(apps, app, req);
  }

  lemma QuotaIsExact(apps: Apps, rows: seq<Row>, req: Request)
    requires Owned(apps, req) && FitsUint64(apps, rows, req)
    ensures var sum := ExactNeed(apps, req) / 1000 + BudgetUsageLoki(rows, req.app.value, req.budgetStart);
            Wrap(sum) == sum
  {
    SmallUnwrapped(ExactNeed(apps, req) / 1000 + BudgetUsageLoki(rows, req.app.value, req.budgetStart));
  }

  lemma ReserveIsExact(req: Request)
    ensures CalculateFeeReserveMloki(req.amount) == ExactReserve(req)
  {
  }

  /**
   The four checks that need no arithmetic refuse exactly when they should, whatever the amounts: an invoice that is
   paid, one that is being paid, an unknown app, and an app without the scope, in this order.
   */
  lemma EarlyRefusals(apps: Apps, rows: seq<Row>, req: Request)
    ensures forall why :: Order(why) <= 3 ==> (Admit(apps, rows, req) == Err(why) <==> FirstStop(apps, rows, req, why))
  {
    hide Headroom, BudgetUsageLoki, IsolatedBalance, SkimFor, CalculateFeeReserveMloki;
    assert Order(AlreadyPaid) < Order(AlreadyPending) < Order(NotFound) < Order(NoPayScope);
    DuplicateStops(apps, rows, req);
  }

  lemma DuplicateStops(apps: Apps, rows: seq<Row>, req: Request)
    ensures Stops(apps, rows, req, AlreadyPaid) <==> !req.keysend && HasSettled(rows, Outgoing, Invoice(req.hash))
    ensures Stops(apps, rows, req, AlreadyPending) <==> !req.keysend && HasPendingOutgoing(rows, Invoice(req.hash))
  {
    forall i | 0 <= i < |rows| && rows[i].direction == Outgoing && rows[i].hash == Invoice(req.hash)
      && rows[i].status == Settled
      ensures HasSettled(rows, Outgoing, Invoice(req.hash))
    {
      assert IsSettled(rows[i], Outgoing, Invoice(req.hash));
    }
  }

  /**
   The whole check: while uint64 holds its sums, a payment is refused for the first reason there is, and admitted as a
   pending row, with the hub's cut and the full reserve on it, exactly when there is none.
   */
  lemma RefusedForFirstReason(apps: Apps, rows: seq<Row>, req: Request)
    requires FitsUint64(apps, rows, req)
    ensures forall why :: Admit(apps, rows, req) == Err(why) <==> FirstStop(apps, rows, req, why)
    ensures Admit(apps, rows, req).Ok? <==> forall why :: !Stops(apps, rows, req, why)
    ensures Admit(apps, rows, req).Ok? ==>
              Admit(apps, rows, req).value
               == Row(req.app, Outgoing, Pending, req.amount, 0, ExactReserve(req),
                      if req.app.None? then 0 else ExactSkim(apps, req), Invoice(req.hash), req.selfPayment, false,
                      req.keysend, req.purpose, req.now)
  {
    hide BudgetUsageLoki, IsolatedBalance, SkimFor, ExactSkim, Headroom, ExactNeed, FitsUint64, HasSettled,
      HasPendingOutgoing, CalculateFeeReserveMloki, ExactReserve, IsSettled;
    EarlyRefusals(apps, rows, req);
    DuplicateStops(apps, rows, req);
    ReserveIsExact(req);
    if Owned(apps, req) {
      NeedIsExact(apps, rows, req);
      QuotaIsExact(apps, rows, req);
    }
    assert Order(NoPayScope) < Order(InsufficientBalance) < Order(QuotaExceeded) < Order(PartialSpend);
  }

  /** Both in one: which refusals are certain. */
  lemma JustRefusals(apps: Apps, rows: seq<Row>, req: Request)
    ensures forall why :: Order(why) <= 3 || FitsUint64(apps, rows, req) ==>
              (Admit(apps, rows, req) == Err(why) <==> FirstStop(apps, rows, req, why))
  {
    EarlyRefusals(apps, rows, req);
    if FitsUint64(apps, rows, req) {
      RefusedForFirstReason(apps, rows, req);
    }
  }

  /** The uint64 sum is the integer sum exactly when that fits. */
  lemma HeadroomIsNeed(apps: Apps, app: App, req: Request)
    ensures Headroom(apps, app, req) == Need(apps, app, req) <==> Need(apps, app, req) < UINT64_RANGE
  {
    if Need(apps, app, req) < UINT64_RANGE {
      SmallUnwrapped(req.amount + SkimFor(apps, app, req));
    }
  }

  /**
   Where the sum wraps, the balance check may let a payment through that no balance covers: it is right exactly while
   the sum fits, or while what the wrap leaves of it is still more than the balance.
   */
  lemma BalanceCheckIsRightIff(apps: Apps, rows: seq<Row>, req: Request)
    requires Owned(apps, req) && IsIsolatedKind(apps[req.app.value].kind)
    requires forall why :: Order(why) <= 3 ==> !Stops(apps, rows, req, why)
    ensures var need, balance := Need(apps, apps[req.app.value], req), IsolatedBalance(rows, req.app.value);
            (Admit(apps, rows, req) == Err(InsufficientBalance) <==> need > MAX_INT64 || need > balance)
            <==> (need < UINT64_RANGE || Wrap(need) > MAX_INT64 || Wrap(need) > balance)
  {
    hide BudgetUsageLoki, IsolatedBalance, SkimFor, CalculateFeeReserveMloki, HasSettled, HasPendingOutgoing;
    var app := apps[req.app.value];
    DuplicateStops(apps, rows, req);
    assert Order(AlreadyPaid) <= 3 && Order(AlreadyPending) <= 3 && Order(NoPayScope) <= 3;
    WrapOfSum(req.amount + SkimFor(apps, app, req),
              if ReserveCharged(req) then CalculateFeeReserveMloki(req.amount) else 0);
  }

  lemma WrapOfSum(x: nat, y: nat)
    ensures Wrap(Wrap(x) + y) == Wrap(x + y) && Wrap(Wrap(x)) == Wrap(x)
    ensures x + y < UINT64_RANGE ==> Wrap(x + y) == x + y
  {
  }

  /**
   An isolated wallet may pay exactly when its balance covers amount, skim and (where charged) reserve and
   its budget, if any applies, covers the same sum in whole loki.
   */
  lemma ClearedIff(apps: Apps, rows: seq<Row>, req: Request)
    requires req.app.Some? && req.app.value in apps && IsIsolatedKind(apps[req.app.value].kind)
    requires Need(apps, apps[req.app.value], req) <= MAX_INT64
    requires BudgetUsageLoki(rows, req.app.value, req.budgetStart) <= MAX_INT64
    ensures var app := apps[req.app.value];
            var need := Need(apps, app, req);
            ValidateCanPay(apps, rows, req).Ok? <==>
              && (app.hasPayScope || req.IsInternal())
              && need <= IsolatedBalance(rows, req.app.value)
              && (req.IsInternal() || app.maxAmountLoki == 0 ||
                  need / 1000 + BudgetUsageLoki(rows, req.app.value, req.budgetStart) <= app.maxAmountLoki)
  {
    var app := apps[req.app.value];
    HeadroomIsNeed(apps, app, req);
    var sum := Need(apps, app, req) / 1000 + BudgetUsageLoki(rows, req.app.value, req.budgetStart);
    assert Wrap(sum) == sum;
  }

  /**
   An internal transfer of at most the balance, paid to an invoice of this instance, is always admitted unless the
   invoice is paid or being paid: neither the exhausted budget, nor a missing scope, nor the full-drain rule, nor a
   hub's fee stops it.
   */
  lemma ReclaimAlwaysAdmitted(apps: Apps, rows: seq<Row>, req: Request)
    requires req.app.Some? && req.app.value in apps
    requires req.IsInternal() && req.selfPayment
    requires 0 < req.amount <= MAX_INT64 && req.amount <= IsolatedBalance(rows, req.app.value)
    requires MayBePaid(rows, req.hash)
    ensures Admit(apps, rows, req) == Ok(OutgoingRow(req, 0))
  {
    var app := apps[req.app.value];
    assert Need(apps, app, req) == req.amount;
    HeadroomIsNeed(apps, app, req);
  }
}
