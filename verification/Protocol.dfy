/**
 The shared database and the atomic transactions that goroutines interleave on it. One Step is one
 db.Transaction body, or one statement where the code uses none; Run is any interleaving of them.
 */
module Protocol {
  import opened Wrappers
  import opened Ledger
  import opened Admission

  /** A settlement or a cancellation, named by its row, that subscribers are told about. */
  datatype Event = RowSettled(row: nat) | HoldCanceled(row: nat)

  /** A recipient of a JIT wallet, by Nostr pubkey or by a connection key that an authority attests. */
  datatype Identity = Pubkey(value: string) | ConnectionKey(value: string)

  datatype Share = Share(identity: Identity, amount: nat)

  /** A row of the claims table. `holder` is the goroutine whose conditional write took it; a removed row is gone. */
  datatype SliceStatus = Unclaimed | Claimed(holder: nat) | Removed(holder: nat)

  datatype Slice = Slice(id: nat, wallet: AppId, identity: Identity, amount: nat, status: SliceStatus)

  /** `owed` are the events of committed transactions that are not published yet, `log` the published ones. */
  datatype State = State(
    apps: Apps,
    rows: seq<Row>,
    owed: set<Event>,
    log: seq<Event>,
    slices: seq<Slice>)

  datatype Step =
    | ChangeApps(newApps: Apps)
    | MakeInvoice(app: Option<AppId>, hash: nat, amount: nat, hold: bool, preimage: bool, selfPayment: bool, now: int)
    | SendPayment(req: Request)
    | MarkSettled(id: nat, fee: nat, selfPayment: bool)
    | ReceiveUnknown(app: Option<AppId>, hash: nat, amount: nat, fee: nat, now: int)
    | MarkFailed(id: nat)
    | SweepStale(id: nat)
    | AcceptHold(id: nat, selfPayment: bool)
    | CancelHold(id: nat)
    | Publish(event: Event)
    | AddSlices(wallet: AppId, shares: seq<Share>)
    | ClaimSlice(slice: nat, holder: nat)
    | UnclaimSlice(slice: nat, holder: nat)
    | RemoveSlice(slice: nat, holder: nat)

  /** The step writes the claims table or pays a slice. */
  predicate TouchesSlices(step: Step)
  {
    match step
    case SendPayment(req) => req.purpose.ClaimPayout? || req.purpose.SweepBack?
    case _ => step.AddSlices? || step.ClaimSlice? || step.UnclaimSlice? || step.RemoveSlice?
  }

  /** The step writes payments, if anything: neither apps nor claims, and no payment of a slice. */
  predicate IsLedgerStep(step: Step)
  {
    !TouchesSlices(step) && !step.ChangeApps?
  }

  const Empty: State := State(map[], [], {}, [], [])

  /** Apps may be added and reconfigured; kind and lineage never change. */
  predicate Extends(before: Apps, after: Apps)
  {
    forall a <- before :: a in after && after[a].kind == before[a].kind
      && after[a].parent == before[a].parent && after[a].parentKind == before[a].parentKind
  }

  function SettledRow(r: Row, fee: nat, selfPayment: bool): Row
  {
    r.(status := Settled, fee := fee, reserve := 0, preimage := true, selfPayment := selfPayment)
  }

  function FeeCredit(hub: AppId, r: Row): Row
  {
    Row(Some(hub), Incoming, Settled, r.skim, 0, 0, 0, FeeSkimOf(r.hash), true, false, false, Ordinary, r.createdAt)
  }

  /**
   markTransactionSettled: nothing if the hash is already settled in this direction, else settle and credit the hub.
   */
  function SettleEffect(s: State, id: nat, fee: nat, selfPayment: bool): Effect
  {
    if id >= |s.rows| then Same
    else
      var r := s.rows[id];
      var settled := SettledRow(r, fee, selfPayment);
      if HasSettled(s.rows, r.direction, r.hash) then Same
      else if r.direction == Incoming || r.skim == 0 then Update(id, settled)
      else if r.app.None? || r.app.value !in s.apps then Same
      else
        match s.apps[r.app.value].parent
        case None => Update(id, settled)
        case Some(hub) => UpdateAndInsert(id, settled, FeeCredit(hub, r))
  }

  /** markPaymentFailed never leaves SETTLED and never repeats. */
  function FailEffect(rows: seq<Row>, id: nat): Effect
  {
    if id < |rows| && rows[id].status != Failed && rows[id].status != Settled then
      Update(id, rows[id].(status := Failed, reserve := 0))
    else Same
  }

  function EffectOf(s: State, step: Step): Effect
  {
    match step
    case MakeInvoice(app, hash, amount, hold, preimage, selfPayment, now) =>
      Insert(Row(app, Incoming, Pending, amount, 0, 0, 0, Invoice(hash), selfPayment, hold, preimage, Ordinary, now))
    case SendPayment(req) =>
      (match Admit(s.apps, s.rows, req) case Ok(row) => Insert(row) case Err(_) => Same)
    case MarkSettled(id, fee, selfPayment) => SettleEffect(s, id, fee, selfPayment)
    case ReceiveUnknown(app, hash, amount, fee, now) =>
      if HasIncoming(s.rows, Invoice(hash)) then Same
      else Insert(Row(app, Incoming, Settled, amount, fee, 0, 0, Invoice(hash), false, false, true, Ordinary, now))
    case MarkFailed(id) => FailEffect(s.rows, id)
    case SweepStale(id) =>
      if id < |s.rows| && s.rows[id].direction == Outgoing && s.rows[id].status == Pending then
        Update(id, s.rows[id].(status := Failed))
      else Same
    case AcceptHold(id, selfPayment) =>
      if id < |s.rows| && s.rows[id].direction == Incoming && s.rows[id].status == Pending then
        Update(id, s.rows[id].(status := Accepted, selfPayment := selfPayment))
      else Same
    case CancelHold(id) =>
      if id < |s.rows| && s.rows[id].direction == Incoming && s.rows[id].status == Accepted then FailEffect(s.rows, id)
      else Same
    case _ => Same
  }

  lemma EffectFits(s: State, step: Step)
    ensures Fits(s.rows, EffectOf(s, step))
  {
  }

  /** The event a step leaves to be published, if any. */
  function Owes(s: State, step: Step): set<Event>
  {
    match step
    case MarkSettled(id, _, _) => if EffectOf(s, step) != Same then {RowSettled(id)} else {}
    case ReceiveUnknown(_, _, _, _, _) => if EffectOf(s, step) != Same then {RowSettled(|s.rows|)} else {}
    case CancelHold(id) => if EffectOf(s, step) != Same then {HoldCanceled(id)} else {}
    case _ => {}
  }

  function WithStatus(slices: seq<Slice>, k: nat, status: SliceStatus): seq<Slice>
    requires k < |slices|
  {
    slices[k := slices[k].(status := status)]
  }

  predicate SameKey(a: Slice, b: Slice)
  {
    a.wallet == b.wallet && a.identity == b.identity && !a.status.Removed? && !b.status.Removed?
  }

  /** The unique index of the claims table. */
  predicate UniqueKeys(slices: seq<Slice>)
  {
    forall i, j | 0 <= i < |slices| && 0 <= j < |slices| && SameKey(slices[i], slices[j]) :: i == j
  }

  function WithShares(slices: seq<Slice>, wallet: AppId, shares: seq<Share>): seq<Slice>
  {
    slices + seq(|shares|, i requires 0 <= i < |shares| =>
                   Slice(|slices| + i, wallet, shares[i].identity, shares[i].amount, Unclaimed))
  }

  /** The conditional writes on the claims table; a condition that does not hold affects no row. */
  function SlicesAfter(slices: seq<Slice>, step: Step): seq<Slice>
  {
    match step
    case AddSlices(wallet, shares) =>
      if UniqueKeys(WithShares(slices, wallet, shares)) then WithShares(slices, wallet, shares) else slices
    case ClaimSlice(k, holder) =>
      if k < |slices| && slices[k].status == Unclaimed then WithStatus(slices, k, Claimed(holder)) else slices
    case UnclaimSlice(k, holder) =>
      if k < |slices| && slices[k].status.Claimed? then WithStatus(slices, k, Unclaimed) else slices
    case RemoveSlice(k, holder) =>
      if k < |slices| && slices[k].status == Unclaimed then WithStatus(slices, k, Removed(holder)) else slices
    case _ => slices
  }

  function Next(s: State, step: Step): State
  {
    EffectFits(s, step);
    State(
      if step.ChangeApps? && Extends(s.apps, step.newApps) then step.newApps else s.apps,
      Apply(s.rows, EffectOf(s, step)),
      if step.Publish? then s.owed - {step.event} else s.owed + Owes(s, step),
      if step.Publish? && step.event in s.owed then s.log + [step.event] else s.log,
      SlicesAfter(s.slices, step))
  }

  function Run(s: State, steps: seq<Step>): State
  {
    if |steps| == 0 then s else Next(Run(s, steps[..|steps| - 1]), steps[|steps| - 1])
  }

  lemma {:induction false} RunConcat(s: State, a: seq<Step>, b: seq<Step>)
    ensures Run(s, a + b) == Run(Run(s, a), b)
  {
    if |b| == 0 {
      assert a + b == a;
    } else {
      var init := b[..|b| - 1];
      RunConcat(s, a, init);
      assert (a + b)[..|a + b| - 1] == a + init;
    }
  }

  lemma RunSnoc(s: State, a: seq<Step>, step: Step)
    ensures Run(s, a + [step]) == Next(Run(s, a), step)
  {
    assert (a + [step])[..|a|] == a;
  }

  /** Every step of the run meets the rule in the state it is taken in. */
  ghost predicate Along(s: State, steps: seq<Step>, rule: (State, Step) -> bool)
  {
    |steps| == 0 ||
    (Along(s, steps[..|steps| - 1], rule) && rule(Run(s, steps[..|steps| - 1]), steps[|steps| - 1]))
  }

  lemma OneStepRun(s: State, step: Step, rule: (State, Step) -> bool)
    ensures Run(s, []) == s && Along(s, [], rule)
    ensures Run(s, [step]) == Next(s, step) && (Along(s, [step], rule) <==> rule(s, step))
  {
    assert [step][..0] == [];
  }

  lemma {:induction false} AlongConcat(s: State, a: seq<Step>, b: seq<Step>, rule: (State, Step) -> bool)
    ensures Along(s, a + b, rule) <==> Along(s, a, rule) && Along(Run(s, a), b, rule)
  {
    if |b| == 0 {
      assert a + b == a;
    } else {
      var init := b[..|b| - 1];
      AlongConcat(s, a, init, rule);
      RunConcat(s, a, init);
      assert (a + b)[..|a + b| - 1] == a + init;
    }
  }
}
