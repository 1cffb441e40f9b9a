/**
 The administrator's removal of one recipient as a whole: take the slice out, sweep it, and reclaim the wallet once its
 last recipient is gone.
 */
module JitHubApi {
  import opened Wrappers
  import Fees
  import opened Ledger
  import opened Admission
  import opened Protocol
  import opened Settlement
  import opened Conservation
  import opened Threads
  import opened TransactionsService
  import opened InternalTransfer
  import opened JitClaims
  import JitHubService
  import opened AppsService
  import opened Reclaim
  import S = Slots

  /** The rows that the listing of a wallet's claims returns, claimed ones included. */
  predicate HasClaims(slices: seq<Slice>, wallet: AppId)
  {
    exists k :: 0 <= k < |slices| && slices[k].wallet == wallet && !slices[k].status.Removed?
  }

  method ListsClaims(db: Store, wallet: AppId) returns (some: bool)
    ensures some <==> HasClaims(db.slices, wallet)
  {
    for k := 0 to |db.slices|
      invariant forall i :: 0 <= i < k ==> !(db.slices[i].wallet == wallet && !db.slices[i].status.Removed?)
    {
      if db.slices[k].wallet == wallet && !db.slices[k].status.Removed? {
        return true;
      }
    }
    some := false;
  }

  predicate TookOut(out: JitHubService.RemovalOutcome)
  {
    out.Swept? || out == JitHubService.RemovedEmpty
  }

  function SweptAmount(out: JitHubService.RemovalOutcome, amount: nat): nat
  {
    if out.Swept? then amount else 0
  }

  function ReclaimedAmount(reclaimed: Option<ReclaimOutcome>): nat
  {
    if reclaimed.Some? then Swept(reclaimed.value) else 0
  }

  /** What the reclaim brings the hub, by the balance that it found. */
  function LeftIn(listed: State, reclaimed: Option<ReclaimOutcome>, wallet: AppId): int
  {
    if reclaimed.Some? && reclaimed.value.Reclaimed? && IsolatedBalance(listed.rows, wallet) > 0 then
      IsolatedBalance(listed.rows, wallet)
    else 0
  }

  lemma HubGains(s: State, trace: seq<Move>, rows: seq<Row>, listed: State, last: State,
                 reclaimed: Option<ReclaimOutcome>, wallet: AppId, hub: AppId, swept: nat, hash: PaymentHash)
    requires wallet != hub && Keeps(s, trace, false, Quiet(hub))
    requires Moved(s, trace, rows, Some(wallet), Some(hub), swept + ReclaimedAmount(reclaimed), Gone(reclaimed, wallet))
    requires reclaimed.Some? ==> ReclaimAnswer(listed, last, reclaimed.value, wallet, Some(hub), hash)
    requires reclaimed.Some? && reclaimed.value.Reclaimed? ==> !reclaimed.value.writtenOff
    ensures IsolatedBalance(rows, hub) == IsolatedBalance(s.rows, hub) + swept + LeftIn(listed, reclaimed, wallet)
  {
    hide Keeps, IsolatedBalance, Leftover;
  }

  function Gone(reclaimed: Option<ReclaimOutcome>, wallet: AppId): set<AppId>
  {
    if reclaimed.Some? && reclaimed.value.Reclaimed? then {wallet} else {}
  }

  /** Two stretches of one call, both between the wallet and its hub. */
  lemma MovesAddUp(s: State, first: seq<Move>, second: seq<Move>, rows: seq<Row>, wallet: AppId, hub: AppId, x: nat,
                   y: nat, gone: set<AppId>)
    requires Moved(s, first, After(s, first).rows, Some(wallet), Some(hub), x, {})
    requires Moved(After(s, first), second, rows, Some(wallet), Some(hub), y, gone)
    ensures Moved(s, first + second, rows, Some(wallet), Some(hub), x + y, gone)
  {
    hide Keeps, Quiet, IsolatedBalance;
    forall a: AppId | a !in gone && Keeps(s, first + second, false, Quiet(a))
      ensures IsolatedBalance(rows, a) == IsolatedBalance(s.rows, a) + MoveOf(Some(wallet), Some(hub), x + y, a)
    {
      KeepsConcat(s, first, second, false, Quiet(a));
    }
  }

  lemma GapMovesNothing(s: State, gap: seq<Move>, wallet: AppId, hub: AppId)
    requires AllOthers(gap)
    ensures Moved(s, gap, After(s, gap).rows, Some(wallet), Some(hub), 0, {})
  {
    hide Keeps, Quiet, IsolatedBalance;
    forall a: AppId | Keeps(s, gap, false, Quiet(a))
      ensures IsolatedBalance(After(s, gap).rows, a) == IsolatedBalance(s.rows, a)
    {
      QuietGap(s, gap, a);
    }
  }

  /** The end of the call: the claims are listed, and a wallet without any is reclaimed. */
  method ReclaimIfEmpty(db: Store, slots: S.Slots, me: nat, hub: AppId, wallet: AppId, hash: nat, invoiceOk: bool,
                        preimage: bool, now: int, budgetStart: int, nodeInfoOk: bool)
    returns (reclaimed: Option<ReclaimOutcome>, ghost gap: seq<Move>, ghost rest: seq<Move>, ghost listed: State,
             ghost last: State)
    requires Coherent(db.Abs()) && wallet in db.apps && db.apps[wallet].parent == Some(hub) && hub in db.apps
    requires slots.Valid() && (wallet, me) !in slots.inside
    modifies db, slots
    ensures AllOthers(gap) && listed == After(old(db.Abs()), gap) && last == After(listed, rest)
    ensures LedgerOnly(rest) && Keeps(listed, rest, true, TouchesOnly(Invoice(hash)))
    ensures reclaimed.Some? <==> !HasClaims(listed.slices, wallet)
    ensures reclaimed.Some? && reclaimed.value.Reclaimed? ==> !reclaimed.value.writtenOff
    ensures reclaimed.None? || !reclaimed.value.Reclaimed? ==> db.Abs() == last
    ensures reclaimed.Some? && reclaimed.value.Reclaimed? ==> Deleted(db, last.apps, last.rows, last.slices, {wallet})
    ensures reclaimed.Some? && ReclaimUndisturbed(listed, rest, wallet, Invoice(hash)) ==>
              && ReclaimAnswer(listed, last, reclaimed.value, wallet, Some(hub), Invoice(hash))
              && (invoiceOk && preimage && IsolatedBalance(listed.rows, wallet) <= Fees.MAX_INT64 ==>
                    reclaimed.value.Reclaimed? || reclaimed == Some(AlreadyReclaiming)
                      || reclaimed == Some(StillSettling))
    ensures (reclaimed.Some? ==> ReclaimUndisturbed(listed, rest, wallet, Invoice(hash))) ==>
              Moved(old(db.Abs()), gap + rest, db.rows, Some(wallet), Some(hub), ReclaimedAmount(reclaimed),
                    Gone(reclaimed, wallet))
  {
    hide Coherent, Next, ReclaimUndisturbed, ReclaimAnswer, TouchesOnly, Moved, KeepsBooks, Deleted;
    ghost var s0 := db.Abs();
    gap := Interference(db);
    AfterFacts(s0, gap);
    AppsGrow(s0, gap);
    GapMovesNothing(s0, gap, wallet, hub);
    reclaimed, rest, listed, last := None, [], db.Abs(), db.Abs();
    var left := ListsClaims(db, wallet);
    if left {
      assert gap + [] == gap;
      return;
    }
    var r;
    r, rest, last := ReclaimAndDeleteSubWallet(db, slots, me, wallet, hash, invoiceOk, preimage, now, budgetStart,
                                               nodeInfoOk);
    reclaimed := Some(r);
    if ReclaimUndisturbed(listed, rest, wallet, Invoice(hash)) {
      MovesAddUp(s0, gap, rest, db.rows, wallet, hub, 0, Swept(r), Gone(reclaimed, wallet));
    }
  }

  /**
   The removal guarantees its steps on the slices as before. A wallet is reclaimed exactly when its slice was taken out
   and swept and none was left when the claims were listed, in the state `listed`; what then holds is what the reclaim
   promises from there on. A removal that fails, or whose sweep fails, reclaims nothing. Undisturbed, the hub has gained
   exactly the slice and what was reclaimed, the wallet has lost it, and nobody else's balance has moved.
   */
  method DeleteJITWalletClaim(db: Store, slots: S.Slots, me: nat, hub: AppId, wallet: AppId, k: nat, holder: nat,
                              hash: Option<nat>, preimage: bool, now: int, budgetStart: int, nodeInfoOk: bool,
                              reclaimHash: nat, reclaimInvoiceOk: bool, reclaimPreimage: bool)
    returns (out: JitHubService.RemovalOutcome, reclaimed: Option<ReclaimOutcome>, ghost removal: seq<Move>,
             ghost gap: seq<Move>, ghost rest: seq<Move>, ghost listed: State, ghost last: State)
    requires Coherent(db.Abs()) && SlicesSound(db.Abs()) && JitHubService.FreshHolder(db.Abs(), holder)
    requires slots.Valid() && (wallet, me) !in slots.inside
    modifies db, slots
    ensures Guarantees(old(db.Abs()), removal, JitHubService.Foreign(holder), KeepsSlices())
    ensures Keeps(old(db.Abs()), removal, false, JitHubService.Foreign(holder)) ==>
              var removed := After(old(db.Abs()), removal);
              && SlicesSound(removed)
              && JitHubService.RemovalAnswer(removed, out, wallet, k, holder, JitHubService.SweepHash(hash))
    ensures !TookOut(out) ==> reclaimed.None? && gap == [] && rest == [] && db.Abs() == After(old(db.Abs()), removal)
    ensures AllOthers(gap) && listed == After(After(old(db.Abs()), removal), gap) && last == After(listed, rest)
    ensures LedgerOnly(rest) && JitHubService.RemovesOnly(removal, k, holder)
            && Keeps(old(db.Abs()), removal, true, TouchesOnly(JitHubService.SweepHash(hash)))
            && Keeps(listed, rest, true, TouchesOnly(Invoice(reclaimHash)))
    ensures reclaimed.Some? <==>
              TookOut(out) && forall i :: 0 <= i < |listed.slices| && listed.slices[i].wallet == wallet ==>
                listed.slices[i].status.Removed?
    ensures reclaimed.Some? && reclaimed.value.Reclaimed? ==> !reclaimed.value.writtenOff
    ensures reclaimed.None? || !reclaimed.value.Reclaimed? ==> db.Abs() == last
    ensures reclaimed.Some? && reclaimed.value.Reclaimed? ==> Deleted(db, last.apps, last.rows, last.slices, {wallet})
    ensures reclaimed.Some? && ReclaimUndisturbed(listed, rest, wallet, Invoice(reclaimHash)) ==>
              && ReclaimAnswer(listed, last, reclaimed.value, wallet, Some(hub), Invoice(reclaimHash))
              && (reclaimInvoiceOk && reclaimPreimage && IsolatedBalance(listed.rows, wallet) <= Fees.MAX_INT64 ==>
                    reclaimed.value.Reclaimed? || reclaimed == Some(AlreadyReclaiming)
                      || reclaimed == Some(StillSettling))
    ensures Undisturbed(old(db.Abs()), removal, JitHubService.SweepHash(hash))
            && (reclaimed.Some? ==> ReclaimUndisturbed(listed, rest, wallet, Invoice(reclaimHash))) ==>
              Moved(old(db.Abs()), removal + (gap + rest), db.rows, Some(wallet), Some(hub),
                    SweptAmount(out, JitHubService.AmountAt(old(db.slices), k)) + ReclaimedAmount(reclaimed),
                    Gone(reclaimed, wallet))
              && (Keeps(old(db.Abs()), removal + (gap + rest), false, Quiet(hub)) && out != JitHubService.NotAHub
                  && out != JitHubService.NotAChild ==>
                    IsolatedBalance(db.rows, hub)
                     == IsolatedBalance(old(db.rows), hub)
                        + SweptAmount(out, JitHubService.AmountAt(old(db.slices), k))
                        + LeftIn(listed, reclaimed, wallet))
  {
    hide Coherent, SlicesSound, JitHubService.FreshHolder, JitHubService.Foreign, KeepsSlices,
      JitHubService.RemovalAnswer, Next, ReclaimUndisturbed, ReclaimAnswer, Books, Undisturbed, TouchesOnly, Moved,
      JitHubService.SweepAnswer, KeepsBooks, Affordable, Deleted, Guarantees, IsolatedBalance, Quiet, LeftIn;
    ghost var s0 := db.Abs();
    out, removal := JitHubService.DeleteJITWalletClaim(db, hub, wallet, k, holder, hash, preimage, now, budgetStart,
                                                       nodeInfoOk);
    AfterFacts(s0, removal);
    AppsGrow(s0, removal);
    ghost var removed := db.Abs();
    ghost var swept := SweptAmount(out, JitHubService.AmountAt(s0.slices, k));
    reclaimed, gap, rest, listed, last := None, [], [], removed, removed;
    if TookOut(out) {
      reclaimed, gap, rest, listed, last := ReclaimIfEmpty(db, slots, me, hub, wallet, reclaimHash, reclaimInvoiceOk,
                                                           reclaimPreimage, now, budgetStart, nodeInfoOk);
    } else {
      GapMovesNothing(removed, [], wallet, hub);
      assert gap + rest == [];
    }
    if Undisturbed(s0, removal, JitHubService.SweepHash(hash))
      && (reclaimed.Some? ==> ReclaimUndisturbed(listed, rest, wallet, Invoice(reclaimHash)))
    {
      MovesAddUp(s0, removal, gap + rest, db.rows, wallet, hub, swept, ReclaimedAmount(reclaimed),
                 Gone(reclaimed, wallet));
      if Keeps(s0, removal + (gap + rest), false, Quiet(hub)) && out != JitHubService.NotAHub
        && out != JitHubService.NotAChild
      {
        HubGains(s0, removal + (gap + rest), db.rows, listed, last, reclaimed, wallet, hub, swept,
                 Invoice(reclaimHash));
      }
    }
  }
}
