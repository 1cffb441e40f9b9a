/**
 The transactions table: one row per payment attempt, in either direction, and the balances that
 db/queries computes from it. A row's id is its index; rows are only appended and updated in place.
 */
module Ledger {
  import opened Wrappers
  import opened Sums

  type AppId = nat

  /** A bolt11 or keysend hash, or the hash derived from another one for a circle hub's fee credit. */
  datatype PaymentHash = Invoice(id: nat) | FeeSkimOf(source: PaymentHash)

  datatype Direction = Incoming | Outgoing

  datatype Status = Pending | Accepted | Settled | Failed

  /**
   Why a payment is made. The table stores only the kind; which slice a payout or a sweep is for, and which
   goroutine (`holder`) took the slice to make it, are the caller's.
   */
  datatype Purpose = Ordinary | InternalTransfer | ClaimPayout(slice: nat, holder: nat) | SweepBack(slice: nat,
                                                                                                    holder: nat)

  datatype Row = Row(
    app: Option<AppId>,
    direction: Direction,
    status: Status,
    amount: nat,
    fee: nat,
    reserve: nat,
    skim: nat,
    hash: PaymentHash,
    selfPayment: bool,
    hold: bool,
    preimage: bool,
    purpose: Purpose,
    createdAt: int)

  predicate Live(r: Row)
  {
    r.direction == Outgoing && (r.status == Settled || r.status == Pending)
  }

  function Cost(r: Row): nat
  {
    r.amount + r.fee + r.reserve + r.skim
  }

  /** The part of a pending row's reserve that the admission check asked the wallet to cover. */
  function ChargedReserve(r: Row): nat
  {
    if r.selfPayment || r.purpose.ClaimPayout? then 0 else r.reserve
  }

  function BalanceOf(app: AppId): Row -> int
  {
    (r: Row) =>
      if r.app != Some(app) then 0
      else if r.direction == Incoming then (if r.status == Settled then r.amount else 0)
      else if Live(r) then 0 - Cost(r) else 0
  }

  function IsolatedBalance(rows: seq<Row>, app: AppId): int
  {
    Sum(rows, BalanceOf(app))
  }

  /** As the isolated balance, but a pending row reserves only what the check charged for it. */
  function CommittedOf(app: AppId): Row -> int
  {
    (r: Row) =>
      if r.app != Some(app) then 0
      else if r.direction == Incoming then (if r.status == Settled then r.amount else 0)
      else if Live(r) then 0 - (r.amount + r.fee + r.skim + ChargedReserve(r)) else 0
  }

  function SpentOf(app: AppId, since: int): Row -> int
  {
    (r: Row) => if r.app == Some(app) && Live(r) && r.createdAt > since then Cost(r) else 0
  }

  /** Money out of the app's wallet since the start of its budget period, in whole loki. */
  function BudgetUsageLoki(rows: seq<Row>, app: AppId, since: int): nat
  {
    SumNonNegative(rows, SpentOf(app, since));
    Sum(rows, SpentOf(app, since)) / 1000
  }

  /** The balance query counts each row by itself. */
  lemma BalanceWithRow(rows: seq<Row>, r: Row, app: AppId)
    ensures IsolatedBalance([], app) == 0
    ensures IsolatedBalance(rows + [r], app) - IsolatedBalance(rows, app)
             == if r.app != Some(app) then 0
                else if r.direction == Incoming then (if r.status == Settled then r.amount else 0)
                else if r.status == Settled || r.status == Pending then -(r.amount + r.fee + r.reserve + r.skim)
                else 0
  {
    SumSnoc(rows, r, BalanceOf(app));
  }

  ghost function SpentMloki(rows: seq<Row>, app: AppId, since: int): int
  {
    Sum(rows, SpentOf(app, since))
  }

  /** So does the budget query, before it drops what is less than a loki of the sum. */
  lemma UsageWithRow(rows: seq<Row>, r: Row, app: AppId, since: int)
    ensures SpentMloki([], app, since) == 0
    ensures SpentMloki(rows + [r], app, since) - SpentMloki(rows, app, since)
             == if r.app == Some(app) && r.direction == Outgoing && (r.status == Settled || r.status == Pending)
                   && r.createdAt > since then r.amount + r.fee + r.reserve + r.skim
                else 0
    ensures 1000 * BudgetUsageLoki(rows, app, since) <= SpentMloki(rows, app, since)
              < 1000 * BudgetUsageLoki(rows, app, since) + 1000
  {
    SumSnoc(rows, r, SpentOf(app, since));
  }

  predicate IsSettled(r: Row, direction: Direction, hash: PaymentHash)
  {
    r.status == Settled && r.direction == direction && r.hash == hash
  }

  predicate HasSettled(rows: seq<Row>, direction: Direction, hash: PaymentHash)
  {
    exists i :: 0 <= i < |rows| && IsSettled(rows[i], direction, hash)
  }

  predicate HasPendingOutgoing(rows: seq<Row>, hash: PaymentHash)
  {
    exists i :: 0 <= i < |rows| && rows[i].direction == Outgoing && rows[i].hash == hash && rows[i].status == Pending
  }

  predicate HasIncoming(rows: seq<Row>, hash: PaymentHash)
  {
    exists i :: 0 <= i < |rows| && rows[i].direction == Incoming && rows[i].hash == hash
  }

  /** What one atomic database transaction does to the table. */
  datatype Effect =
    | Same
    | Insert(row: Row)
    | Update(id: nat, after: Row)
    | UpdateAndInsert(id: nat, after: Row, extra: Row)

  predicate Fits(rows: seq<Row>, e: Effect)
  {
    e.Update? || e.UpdateAndInsert? ==> e.id < |rows|
  }

  function Apply(rows: seq<Row>, e: Effect): seq<Row>
    requires Fits(rows, e)
  {
    match e
    case Same => rows
    case Insert(row) => rows + [row]
    case Update(id, after) => rows[id := after]
    case UpdateAndInsert(id, after, extra) => rows[id := after] + [extra]
  }

  function Delta(rows: seq<Row>, e: Effect, f: Row -> int): int
    requires Fits(rows, e)
  {
    match e
    case Same => 0
    case Insert(row) => f(row)
    case Update(id, after) => f(after) - f(rows[id])
    case UpdateAndInsert(id, after, extra) => f(after) - f(rows[id]) + f(extra)
  }

  lemma SumApply(rows: seq<Row>, e: Effect, f: Row -> int)
    requires Fits(rows, e)
    ensures Sum(Apply(rows, e), f) == Sum(rows, f) + Delta(rows, e, f)
  {
    match e
    case Same =>
    case Insert(row) => SumSnoc(rows, row, f);
    case Update(id, after) => SumUpdate(rows, id, after, f);
    case UpdateAndInsert(id, after, extra) =>
      SumUpdate(rows, id, after, f);
      SumSnoc(rows[id := after], extra, f);
  }
}
