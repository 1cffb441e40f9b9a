/** Sweeping the balance of a child wallet back to its hub and deleting the child. */
module Reclaim {
  import opened Wrappers
  import opened Sums
  import opened Fees
  import opened Ledger
  import opened Admission
  import opened Protocol
  import opened Settlement
  import opened Conservation
  import opened Threads
  import opened TransactionsService
  import opened InternalTransfer
  import opened AppsService
  import S = Slots

  datatype ReclaimOutcome =
    | HasNoParent
    | StillSettling
    | AlreadyReclaiming
    | TransferFailed
    | StillTransferring
    | Reclaimed(balance: int, writtenOff: bool)

  predicate HasPendingIncoming(rows: seq<Row>, a: AppId)
  {
    exists i :: 0 <= i < |rows| && rows[i].app == Some(a) && rows[i].direction == Incoming && rows[i].status == Pending
  }

  function Positive(x: int): nat
  {
    if x > 0 then x else 0
  }

  /** What a reclaim relies on: an undisturbed transfer, and nobody else moving the wallet's money meanwhile. */
  ghost predicate ReclaimUndisturbed(s: State, trace: seq<Move>, a: AppId, hash: PaymentHash)
  {
    Undisturbed(s, trace, hash) && Keeps(s, trace, false, Quiet(a)) && a in s.apps && s.apps[a].parent != Some(a)
  }

  /**
   A reclaim of the whole positive balance passes the admission check, whatever others did since it was read, if they
   left the wallet's balance alone: no budget, scope, fee or full-drain rule stops it.
   */
  lemma ReclaimPassesCheck(s: State, gap: seq<Move>, a: AppId, req: Request)
    requires AllOthers(gap) && Keeps(s, gap, false, Quiet(a)) && Keeps(s, gap, false, Private(Invoice(req.hash)))
    requires MayBePaid(s.rows, req.hash)
    requires a in After(s, gap).apps && req.app == Some(a) && req.IsInternal() && req.selfPayment
    requires 0 < req.amount == IsolatedBalance(s.rows, a) <= MAX_INT64
    ensures Admit(After(s, gap).apps, After(s, gap).rows, req) == Ok(OutgoingRow(req, 0))
  {
    QuietGap(s, gap, a);
    PrivateGap(s, gap, Invoice(req.hash));
    ReclaimAlwaysAdmitted(After(s, gap).apps, After(s, gap).rows, req);
  }

  lemma TransferredStays(s: State, gap: seq<Move>, from: Option<AppId>, to: Option<AppId>, hash: PaymentHash,
                         amount: nat)
    requires AllOthers(gap) && Keeps(s, gap, false, Private(hash)) && Transferred(s.rows, from, to, hash, amount)
    ensures Transferred(After(s, gap).rows, from, to, hash, amount)
  {
    hide Keeps;
    PrivateGap(s, gap, hash);
    AfterFacts(s, gap);
    var j, id :| 0 <= j < |s.rows| && 0 <= id < |s.rows| && Completes(s.rows, j, id, from, to, hash, amount);
    assert RowEvolves(s.rows[j], After(s, gap).rows[j]) && RowEvolves(s.rows[id], After(s, gap).rows[id]);
    assert Completes(After(s, gap).rows, j, id, from, to, hash, amount);
  }

  lemma UntouchedStays(s: State, gap: seq<Move>, hash: PaymentHash)
    requires AllOthers(gap) && Keeps(s, gap, false, Private(hash)) && Untouched(s.rows, hash)
    ensures Untouched(After(s, gap).rows, hash)
  {
    PrivateGap(s, gap, hash);
  }

  /** A completed transfer of the balance has emptied the wallet; a failed one has left it as it was. */
  lemma BalanceAfterTransfer(s: State, trace: seq<Move>, a: AppId, to: Option<AppId>, hash: PaymentHash, amount: nat)
    requires IsUnused(s.rows, hash) && to != Some(a)
    requires Keeps(s, trace, true, TouchesOnly(hash)) && Keeps(s, trace, false, Private(hash))
             && Keeps(s, trace, false, Quiet(a))
    ensures Transferred(After(s, trace).rows, Some(a), to, hash, amount) ==>
              IsolatedBalance(After(s, trace).rows, a) == IsolatedBalance(s.rows, a) - amount
    ensures Untouched(After(s, trace).rows, hash) ==>
              IsolatedBalance(After(s, trace).rows, a) == IsolatedBalance(s.rows, a)
  {
    UnusedIsNothing(s.rows, BalanceOf(a), hash);
    RestStays(s, trace, BalanceOf(a), hash);
    if Transferred(After(s, trace).rows, Some(a), to, hash, amount) {
      TransferMovesAmount(After(s, trace).rows, Some(a), to, hash, amount, a);
    }
    if Untouched(After(s, trace).rows, hash) {
      UntouchedMovesNothing(After(s, trace).rows, hash, a);
    }
  }

  /** The others' promises over a stretch and over the rest of the trace. */
  lemma SplitReclaim(s: State, first: seq<Move>, rest: seq<Move>, a: AppId, hash: PaymentHash)
    ensures After(s, first + rest) == After(After(s, first), rest)
    ensures Keeps(s, first + rest, false, KeepsBooks()) ==
              (Keeps(s, first, false, KeepsBooks()) && Keeps(After(s, first), rest, false, KeepsBooks()))
    ensures Keeps(s, first + rest, false, Private(hash)) ==
              (Keeps(s, first, false, Private(hash)) && Keeps(After(s, first), rest, false, Private(hash)))
    ensures Keeps(s, first + rest, false, Quiet(a)) ==
              (Keeps(s, first, false, Quiet(a)) && Keeps(After(s, first), rest, false, Quiet(a)))
    ensures Keeps(s, first + rest, true, KeepsBooks()) ==
              (Keeps(s, first, true, KeepsBooks()) && Keeps(After(s, first), rest, true, KeepsBooks()))
    ensures Keeps(s, first + rest, true, TouchesOnly(hash)) ==
              (Keeps(s, first, true, TouchesOnly(hash)) && Keeps(After(s, first), rest, true, TouchesOnly(hash)))
  {
    AfterConcat(s, first, rest);
    KeepsConcat(s, first, rest, false, KeepsBooks());
    KeepsConcat(s, first, rest, false, Private(hash));
    KeepsConcat(s, first, rest, false, Quiet(a));
    KeepsConcat(s, first, rest, true, KeepsBooks());
    KeepsConcat(s, first, rest, true, TouchesOnly(hash));
  }

  lemma GapIsNothing(s: State, gap: seq<Move>, hash: PaymentHash)
    requires AllOthers(gap)
    ensures Keeps(s, gap, true, KeepsBooks()) && Keeps(s, gap, true, TouchesOnly(hash))
  {
    OthersKeepOwnRule(s, gap, KeepsBooks());
    OthersKeepOwnRule(s, gap, TouchesOnly(hash));
  }

  /** The state a gap leaves is as good a start for the reclaim as the one before. */
  lemma GapKeepsPremises(s: State, gap: seq<Move>, rest: seq<Move>, a: AppId, hash: PaymentHash)
    requires AllOthers(gap) && ReclaimUndisturbed(s, gap + rest, a, hash)
    ensures ReclaimUndisturbed(After(s, gap), rest, a, hash)
    ensures IsolatedBalance(After(s, gap).rows, a) == IsolatedBalance(s.rows, a)
  {
    hide Books, KeepsBooks, Private, Quiet;
    SplitReclaim(s, gap, rest, a, hash);
    GapIsNothing(s, gap, hash);
    BooksAfter(s, gap);
    PrivateGap(s, gap, hash);
    QuietGap(s, gap, a);
    AppsGrow(s, gap);
  }

  /** What remains of a wallet's balance when it is about to be deleted. */
  ghost predicate Leftover(last: State, a: AppId, parent: Option<AppId>, hash: PaymentHash, balance: int,
                           writtenOff: bool)
  {
    if writtenOff then balance > 0 && IsolatedBalance(last.rows, a) == balance && Untouched(last.rows, hash)
    else
      && IsolatedBalance(last.rows, a) == balance - Positive(balance)
      && (if balance > 0 then Transferred(last.rows, Some(a), parent, hash, balance) else Untouched(last.rows, hash))
  }

  /** The whole positive balance is swept, or nothing is. */
  ghost predicate ReclaimAnswer(s: State, last: State, out: ReclaimOutcome, a: AppId, parent: Option<AppId>,
                                hash: PaymentHash)
  {
    match out
    case Reclaimed(balance, writtenOff) =>
      balance == IsolatedBalance(s.rows, a) && Leftover(last, a, parent, hash, balance, writtenOff)
    case StillTransferring => false
    case _ => IsolatedBalance(last.rows, a) == IsolatedBalance(s.rows, a) && Untouched(last.rows, hash)
  }

  /** What has reached the parent. */
  function Swept(out: ReclaimOutcome): nat
  {
    if out.Reclaimed? && !out.writtenOff then Positive(out.balance) else 0
  }

  /** What the deletion of the child takes out of the ledger: what was written off, or a debt that is forgiven. */
  function Lost(out: ReclaimOutcome): int
  {
    match out
    case Reclaimed(balance, writtenOff) => if writtenOff then balance else 0 - Positive(-balance)
    case _ => 0
  }

  lemma WorthlessToAll(rows: seq<Row>, hash: PaymentHash)
    requires Untouched(rows, hash)
    ensures Sum(rows, OfHash(hash, Holding())) == 0
  {
    SumOfZeros(rows, OfHash(hash, Holding()));
  }

  lemma TransferKeepsTotal(s: State, trace: seq<Move>, from: Option<AppId>, to: Option<AppId>, hash: PaymentHash,
                           amount: nat)
    requires IsUnused(s.rows, hash) && Keeps(s, trace, true, TouchesOnly(hash))
    requires Keeps(s, trace, false, Private(hash)) && Keeps(s, trace, false, Steady(Holding()))
    requires Transferred(After(s, trace).rows, from, to, hash, amount) || Untouched(After(s, trace).rows, hash)
    ensures LedgerTotal(After(s, trace).rows) == LedgerTotal(s.rows)
  {
    hide Keeps, Private, Steady, TouchesOnly, Sum;
    var rows' := After(s, trace).rows;
    UnusedIsNothing(s.rows, Holding(), hash);
    RestStays(s, trace, Holding(), hash);
    if Untouched(rows', hash) {
      WorthlessToAll(rows', hash);
    } else {
      var j, id :| 0 <= j < |rows'| && 0 <= id < |rows'| && Completes(rows', j, id, from, to, hash, amount);
      CompletedWeighs(rows', j, id, from, to, hash, amount, Holding());
    }
  }

  /**
   Against the state the call found: the parent has gained exactly what was swept, nobody else's balance has moved, and
   the ledger total has changed by exactly what the deletion takes.
   */
  ghost predicate ReclaimBooked(s: State, trace: seq<Move>, rows: seq<Row>, out: ReclaimOutcome, a: AppId,
                                parent: Option<AppId>)
  {
    && Moved(s, trace, rows, Some(a), parent, Swept(out), if out.Reclaimed? then {a} else {})
    && (Keeps(s, trace, false, Steady(Holding())) ==> LedgerTotal(rows) == LedgerTotal(s.rows) - Lost(out))
  }

  lemma AnswerIsBooked(s: State, trace: seq<Move>, rows: seq<Row>, out: ReclaimOutcome, a: AppId, parent: Option<AppId>,
                       hash: PaymentHash)
    requires ReclaimUndisturbed(s, trace, a, hash) && Keeps(s, trace, true, TouchesOnly(hash))
    requires ReclaimAnswer(s, After(s, trace), out, a, parent, hash)
    requires rows == if out.Reclaimed? then WithoutRows(After(s, trace).rows, {a}) else After(s, trace).rows
    ensures ReclaimBooked(s, trace, rows, out, a, parent)
  {
    hide Books, Keeps, TouchesOnly, Private, Steady, Transferred, Untouched, IsUnused, IsolatedBalance, LedgerTotal,
      WithoutRows;
    var last := After(s, trace).rows;
    TransferMoves(s, trace, Some(a), parent, hash, Swept(out));
    if Keeps(s, trace, false, Steady(Holding())) {
      TransferKeepsTotal(s, trace, Some(a), parent, hash, Swept(out));
    }
    DeletionTakesItsBalance(last, a, a);
    forall b: AppId | b != a ensures IsolatedBalance(WithoutRows(last, {a}), b) == IsolatedBalance(last, b) {
      DeletionTakesItsBalance(last, a, b);
    }
  }

  /**
   A balance is written off only if its hub is gone, and then always: a hub that the call found is still there at the
   end, and only a hub that is still there is paid.
   */
  predicate WrittenOffRightly(s: State, last: State, out: ReclaimOutcome, parent: AppId)
  {
    && (out.Reclaimed? && out.writtenOff ==> out.balance > 0 && parent !in s.apps)
    && (out.Reclaimed? && out.balance > 0 && !out.writtenOff ==> parent in last.apps)
    && (out == TransferFailed || out == StillTransferring ==> parent in last.apps)
  }

  /** The hub's balance has grown by the whole positive balance of the child, as far as others leave the hub alone. */
  ghost predicate HubIsPaid(s: State, trace: seq<Move>, rows: seq<Row>, a: AppId, hub: AppId)
  {
    Keeps(s, trace, false, Quiet(hub)) ==>
      IsolatedBalance(rows, hub) == IsolatedBalance(s.rows, hub)
                                    + (if IsolatedBalance(s.rows, a) > 0 then IsolatedBalance(s.rows, a) else 0)
  }

  lemma BookedHubIsPaid(s: State, trace: seq<Move>, rows: seq<Row>, out: ReclaimOutcome, a: AppId, hub: AppId)
    requires out.Reclaimed? && !out.writtenOff && out.balance == IsolatedBalance(s.rows, a) && a != hub
    requires ReclaimBooked(s, trace, rows, out, a, Some(hub))
    ensures HubIsPaid(s, trace, rows, a, hub)
  {
  }

  /** From the held slot to the moment before the deletion, or to a failure. */
  method SweepBalance(db: Store, a: AppId, parent: AppId, hash: nat, invoiceOk: bool, preimage: bool, now: int,
                      budgetStart: int, nodeInfoOk: bool)
    returns (out: ReclaimOutcome, ghost trace: seq<Move>)
    requires Coherent(db.Abs()) && a in db.apps && db.apps[a].parent == Some(parent)
    modifies db
    ensures out.Reclaimed? || out == TransferFailed || out == StillTransferring
    ensures db.Abs() == After(old(db.Abs()), trace) && a in db.apps && LedgerOnly(trace)
    ensures Keeps(old(db.Abs()), trace, true, TouchesOnly(Invoice(hash)))
    ensures out.Reclaimed? ==> out.balance == IsolatedBalance(old(db.rows), a)
    ensures IsolatedBalance(old(db.rows), a) <= 0 ==> out.Reclaimed?
    ensures WrittenOffRightly(old(db.Abs()), db.Abs(), out, parent)
    ensures ReclaimUndisturbed(old(db.Abs()), trace, a, Invoice(hash)) ==>
              && Keeps(old(db.Abs()), trace, true, KeepsBooks())
              && ReclaimAnswer(old(db.Abs()), db.Abs(), out, a, Some(parent), Invoice(hash))
              && (invoiceOk && preimage && IsolatedBalance(old(db.rows), a) <= MAX_INT64 ==> out.Reclaimed?)
  {
    hide Coherent, Books, KeepsBooks, Private, Quiet, TouchesOnly, Next, Transferred, Untouched, IsUnused,
      IsolatedBalance, Keeps, After;
    ghost var s0 := db.Abs();
    var balance := IsolatedBalance(db.rows, a);
    ghost var gap := Interference(db);
    AfterFacts(s0, gap);
    AppsGrow(s0, gap);
    GapIsNothing(s0, gap, Invoice(hash));
    assert gap + [] == gap;
    if balance <= 0 || parent !in db.apps {
      out, trace := Reclaimed(balance, balance > 0), gap;
      if ReclaimUndisturbed(s0, trace, a, Invoice(hash)) {
        GapKeepsPremises(s0, gap, [], a, Invoice(hash));
        StaysUnused(s0, gap, Invoice(hash));
      }
      return;
    }
    ghost var s1 := db.Abs();
    var moved;
    ghost var rest;
    moved, rest := Transfer(db, Some(a), Some(parent), balance, hash, invoiceOk, preimage, now, budgetStart,
                            nodeInfoOk);
    ghost var s2 := db.Abs();
    AppsGrow(s1, rest);
    ghost var end := Interference(db);
    AppsGrow(s2, end);
    GapIsNothing(s2, end, Invoice(hash));
    out := match moved case Done => Reclaimed(balance, false) case Open => StillTransferring case _ => TransferFailed;
    trace := gap + (rest + end);
    AfterConcat(s0, gap, rest + end);
    AfterConcat(s1, rest, end);
    SplitReclaim(s0, gap, rest + end, a, Invoice(hash));
    SplitReclaim(s1, rest, end, a, Invoice(hash));
    if ReclaimUndisturbed(s0, trace, a, Invoice(hash)) {
      GapKeepsPremises(s0, gap, rest + end, a, Invoice(hash));
      assert Undisturbed(s1, rest, Invoice(hash));
      SweptBalance(s1, rest, end, moved, a, Some(parent), Invoice(hash), balance);
      SweepConcluded(s0, s1, db.Abs(), out, a, Some(parent), Invoice(hash), balance);
    }
  }

  lemma SweepConcluded(s0: State, s1: State, last: State, out: ReclaimOutcome, a: AppId, to: Option<AppId>,
                       hash: PaymentHash, balance: nat)
    requires balance > 0 && balance == IsolatedBalance(s0.rows, a) == IsolatedBalance(s1.rows, a)
    requires out == Reclaimed(balance, false) || out == TransferFailed
    requires out.Reclaimed? ==> Transferred(last.rows, Some(a), to, hash, balance)
                                && IsolatedBalance(last.rows, a) == IsolatedBalance(s1.rows, a) - balance
    requires out == TransferFailed ==>
              IsolatedBalance(last.rows, a) == IsolatedBalance(s1.rows, a) && Untouched(last.rows, hash)
    ensures ReclaimAnswer(s0, last, out, a, to, hash)
  {
  }

  lemma SweptBalance(s: State, rest: seq<Move>, end: seq<Move>, moved: TransferOutcome, a: AppId, to: Option<AppId>,
                     hash: PaymentHash,
                     balance: nat)
    requires ReclaimUndisturbed(s, rest + end, a, hash) && AllOthers(end) && to == s.apps[a].parent
    requires Keeps(s, rest, true, TouchesOnly(hash))
             && TransferAnswer(After(s, rest).rows, moved, Some(a), to, hash, balance)
    ensures moved == Done ==> Transferred(After(s, rest + end).rows, Some(a), to, hash, balance)
                              && IsolatedBalance(After(s, rest + end).rows, a) == IsolatedBalance(s.rows, a) - balance
    ensures moved == NotPaid || moved == NoInvoice ==>
              && IsolatedBalance(After(s, rest + end).rows, a) == IsolatedBalance(s.rows, a)
              && Untouched(After(s, rest + end).rows, hash)
  {
    hide Books, KeepsBooks, Private, Quiet, TouchesOnly, Transferred, Untouched;
    SplitReclaim(s, rest, end, a, hash);
    QuietGap(After(s, rest), end, a);
    BalanceAfterTransfer(s, rest, a, to, hash, balance);
    match moved {
      case Done => TransferredStays(After(s, rest), end, Some(a), to, hash, balance);
      case _ => UntouchedStays(After(s, rest), end, hash);
    }
  }

  method DeleteChild(db: Store, a: AppId)
    modifies db
    ensures Deleted(db, old(db.apps), old(db.rows), old(db.slices), {a})
    ensures db.rows == WithoutRows(old(db.rows), {a}) && db.owed == old(db.owed) && db.log == old(db.log)
    ensures LedgerTotal(db.rows) == LedgerTotal(old(db.rows)) - IsolatedBalance(old(db.rows), a)
    ensures forall other :: other != a ==> IsolatedBalance(db.rows, other) == IsolatedBalance(old(db.rows), other)
  {
    ghost var rows := db.rows;
    DeleteRows(db, {a});
    forall other ensures other != a ==> IsolatedBalance(db.rows, other) == IsolatedBalance(rows, other) {
      DeletionTakesItsBalance(rows, a, other);
    }
    DeletionTakesItsBalance(rows, a, a);
  }

  /**
   ReclaimAndDeleteSubWallet. Whoever takes the slot sweeps the whole positive balance to the parent and deletes the
   child. `last` is the state before the deletion. Undisturbed, the parent has then gained exactly the positive part of
   the balance, and the deletion changes the ledger total by exactly the negative part; a failed sweep leaves the
   balance as it was and the slot free.
   */
  method ReclaimAndDeleteSubWallet(db: Store, slots: S.Slots, me: nat, a: AppId, hash: nat, invoiceOk: bool,
                                   preimage: bool, now: int, budgetStart: int, nodeInfoOk: bool)
    returns (out: ReclaimOutcome, ghost trace: seq<Move>, ghost last: State)
    requires Coherent(db.Abs()) && a in db.apps && slots.Valid() && (a, me) !in slots.inside
    modifies db, slots
    ensures slots.Valid() && last == After(old(db.Abs()), trace) && LedgerOnly(trace)
    ensures Keeps(old(db.Abs()), trace, true, TouchesOnly(Invoice(hash)))
    ensures out == HasNoParent <==> old(db.apps)[a].parent.None?
    ensures out == StillSettling <==>
              out != HasNoParent
              && exists i :: 0 <= i < |old(db.rows)| && old(db.rows)[i].app == Some(a)
                             && old(db.rows)[i].direction == Incoming && old(db.rows)[i].status == Pending
    ensures out == AlreadyReclaiming ==> a in slots.busy
    ensures out == TransferFailed ==> a !in slots.busy
    ensures (a, me) in slots.inside <==> out == StillTransferring || out.Reclaimed?
    ensures !out.Reclaimed? ==> db.Abs() == last
    ensures old(db.apps)[a].parent.Some? ==>
              WrittenOffRightly(old(db.Abs()), last, out, old(db.apps)[a].parent.value)
    ensures out.Reclaimed? && ReclaimUndisturbed(old(db.Abs()), trace, a, Invoice(hash))
            && old(db.apps)[a].parent.value in old(db.apps) ==>
              HubIsPaid(old(db.Abs()), trace, db.rows, a, old(db.apps)[a].parent.value)
    ensures out.Reclaimed? ==>
              && Deleted(db, last.apps, last.rows, last.slices, {a}) && db.owed == last.owed && db.log == last.log
              && LedgerTotal(db.rows) == LedgerTotal(last.rows) - IsolatedBalance(last.rows, a)
              && forall other :: other != a ==> IsolatedBalance(db.rows, other) == IsolatedBalance(last.rows, other)
    ensures ReclaimUndisturbed(old(db.Abs()), trace, a, Invoice(hash)) ==>
              && Keeps(old(db.Abs()), trace, true, KeepsBooks())
              && ReclaimAnswer(old(db.Abs()), last, out, a, old(db.apps)[a].parent, Invoice(hash))
              && ReclaimBooked(old(db.Abs()), trace, db.rows, out, a, old(db.apps)[a].parent)
              && (invoiceOk && preimage && IsolatedBalance(old(db.rows), a) <= MAX_INT64 ==>
                    out.Reclaimed? || out == AlreadyReclaiming || out == StillSettling || out == HasNoParent)
  {
    hide Coherent, Books, KeepsBooks, Private, Quiet, TouchesOnly, Next, LedgerTotal, LedgerOnly,
      ReclaimUndisturbed, ReclaimAnswer, ReclaimBooked, IsolatedBalance, Keeps, Deleted, WithoutRows, HubIsPaid,
      WrittenOffRightly, Extends;
    ghost var s0 := db.Abs();
    last, trace := s0, [];
    NothingReclaimed(s0, [], HasNoParent, a, Invoice(hash));
    NothingReclaimed(s0, [], StillSettling, a, Invoice(hash));
    var app := db.apps[a];
    if app.parent.None? {
      return HasNoParent, trace, last;
    }
    if HasPendingIncoming(db.rows, a) {
      return StillSettling, trace, last;
    }
    ghost var gap := Interference(db);
    AfterFacts(s0, gap);
    AppsGrow(s0, gap);
    NothingReclaimed(s0, gap, AlreadyReclaiming, a, Invoice(hash));
    slots.Others(me);
    var taken := slots.TryTake(a, me);
    if !taken {
      return AlreadyReclaiming, gap, db.Abs();
    }
    ghost var s1 := db.Abs();
    ghost var rest;
    out, rest := SweepBalance(db, a, app.parent.value, hash, invoiceOk, preimage, now, budgetStart, nodeInfoOk);
    trace, last := gap + rest, db.Abs();
    LedgerOnlyAround(gap, rest);
    RightlyFromStart(s0, s1, last, out, app.parent.value);
    SplitReclaim(s0, gap, rest, a, Invoice(hash));
    if ReclaimUndisturbed(s0, trace, a, Invoice(hash)) {
      GapKeepsPremises(s0, gap, rest, a, Invoice(hash));
      AnswerFromStart(s0, gap, last, out, a, app.parent, Invoice(hash));
    }
    slots.Others(me);
    if out == TransferFailed {
      slots.Release(a, me);
    } else if out.Reclaimed? {
      DeleteChild(db, a);
    }
    if ReclaimUndisturbed(s0, trace, a, Invoice(hash)) {
      AnswerIsBooked(s0, trace, db.rows, out, a, app.parent, Invoice(hash));
      if out.Reclaimed? && app.parent.value in s0.apps {
        SweptToHub(s0, trace, last, db.rows, out, a, app.parent.value, Invoice(hash));
      }
    }
  }

  lemma RightlyFromStart(s: State, s1: State, last: State, out: ReclaimOutcome, parent: AppId)
    requires Extends(s.apps, s1.apps) && WrittenOffRightly(s1, last, out, parent)
    ensures WrittenOffRightly(s, last, out, parent)
  {
  }

  lemma SweptToHub(s: State, trace: seq<Move>, last: State, rows: seq<Row>, out: ReclaimOutcome, a: AppId, hub: AppId,
                   hash: PaymentHash)
    requires ReclaimUndisturbed(s, trace, a, hash) && s.apps[a].parent == Some(hub) && hub in s.apps
    requires out.Reclaimed? && WrittenOffRightly(s, last, out, hub) && ReclaimAnswer(s, last, out, a, Some(hub), hash)
             && ReclaimBooked(s, trace, rows, out, a, Some(hub))
    ensures HubIsPaid(s, trace, rows, a, hub)
  {
    hide ReclaimBooked, Leftover, HubIsPaid, Undisturbed, Keeps;
    BookedHubIsPaid(s, trace, rows, out, a, hub);
  }

  lemma NothingReclaimed(s: State, gap: seq<Move>, out: ReclaimOutcome, a: AppId, hash: PaymentHash)
    requires AllOthers(gap) && (out == HasNoParent || out == StillSettling || out == AlreadyReclaiming)
    ensures LedgerOnly(gap) && Keeps(s, gap, true, TouchesOnly(hash)) && Keeps(s, gap, true, KeepsBooks())
    ensures forall parent :: WrittenOffRightly(s, After(s, gap), out, parent)
    ensures ReclaimUndisturbed(s, gap, a, hash) ==>
              forall parent :: ReclaimAnswer(s, After(s, gap), out, a, parent, hash)
                && ReclaimBooked(s, gap, After(s, gap).rows, out, a, parent)
  {
    hide ReclaimBooked;
    GapIsNothing(s, gap, hash);
    if ReclaimUndisturbed(s, gap, a, hash) {
      QuietGap(s, gap, a);
      StaysUnused(s, gap, hash);
      forall parent
        ensures ReclaimAnswer(s, After(s, gap), out, a, parent, hash)
        ensures ReclaimBooked(s, gap, After(s, gap).rows, out, a, parent)
      {
        AnswerIsBooked(s, gap, After(s, gap).rows, out, a, parent, hash);
      }
    }
  }

  /** The sweep read the balance that the call found. */
  lemma AnswerFromStart(s: State, gap: seq<Move>, last: State, out: ReclaimOutcome, a: AppId, parent: Option<AppId>,
                        hash: PaymentHash)
    requires ReclaimAnswer(After(s, gap), last, out, a, parent, hash)
    requires IsolatedBalance(After(s, gap).rows, a) == IsolatedBalance(s.rows, a)
    ensures ReclaimAnswer(s, last, out, a, parent, hash)
  {
  }

  /**
   The exact change of the ledger total: nothing for a swept wallet, the whole balance for one that is written off.
   */
  lemma DeletionChangesTotal(rows: seq<Row>, last: State, a: AppId, parent: Option<AppId>, hash: PaymentHash,
                             balance: int, writtenOff: bool)
    requires Leftover(last, a, parent, hash, balance, writtenOff) && rows == WithoutRows(last.rows, {a})
    ensures LedgerTotal(rows) == LedgerTotal(last.rows) + (if writtenOff then -balance else Positive(-balance))
  {
    DeletionTakesItsBalance(last.rows, a, a);
  }
}
