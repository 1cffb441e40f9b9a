/**
 Creating and deleting apps. Hubs and their child wallets form a forest that no interleaving of creations and deletions
 breaks; a deletion takes the app's payments and slices with it.
 */
module AppsService {
  import opened Wrappers
  import opened Sums
  import opened Ledger
  import opened Admission
  import opened Protocol
  import opened Threads

  predicate IsHub(kind: Kind)
  {
    kind == CircleHub || kind == JITHub
  }

  /** The hub kind a parent_kind expects. */
  predicate HubFor(parentKind: ParentKind, kind: Kind)
  {
    (parentKind == CircleParent && kind == CircleHub) || (parentKind == JITParent && kind == JITHub)
  }

  /** verifyParentHubTx. */
  predicate ParentOk(apps: Apps, app: App)
  {
    app.parent.Some? ==> app.parent.value in apps && HubFor(app.parentKind, apps[app.parent.value].kind)
  }

  function ChildrenOf(apps: Apps, hub: AppId, parentKind: ParentKind): set<AppId>
  {
    set a | a in apps && apps[a].parent == Some(hub) && apps[a].parentKind == parentKind
  }

  function ChildKindOf(kind: Kind): ParentKind
  {
    if kind == JITHub then JITParent else CircleParent
  }

  // ---------- the forest ----------

  datatype AppStep =
    | Create(id: AppId, app: App)
    | Reconfigure(id: AppId, hasPayScope: bool, maxAmountLoki: nat, feesPpm: int)
    | Delete(id: AppId)
    | DeleteReclaimed(id: AppId)
    | DeleteCircle(hub: AppId, kept: set<AppId>)

  /** What each transaction leaves of the apps table, with the guards it checks inside the transaction. */
  function AfterAppStep(apps: Apps, step: AppStep): Apps
  {
    match step
    case Create(id, app) => if id !in apps && ParentOk(apps, app) then apps[id := app] else apps
    case Reconfigure(id, hasPayScope, maxAmountLoki, feesPpm) =>
      if id in apps then
        apps[id := apps[id].(hasPayScope := hasPayScope, maxAmountLoki := maxAmountLoki, feesPpm := feesPpm)]
      else apps
    case Delete(id) => if id in apps && MayDelete(apps, id) then apps - {id} else apps
    case DeleteReclaimed(id) => if id in apps && apps[id].parent.Some? then apps - {id} else apps
    case DeleteCircle(hub, kept) =>
      if hub in apps && apps[hub].kind == CircleHub then apps - CircleDoomed(apps, hub, kept) else apps
  }

  /** A hub is deleted only without children of its own parent kind. */
  predicate MayDelete(apps: Apps, id: AppId)
    requires id in apps
  {
    IsHub(apps[id].kind) ==> ChildrenOf(apps, id, ChildKindOf(apps[id].kind)) == {}
  }

  /** The children that are not kept, and the hub if none is. */
  function CircleDoomed(apps: Apps, hub: AppId, kept: set<AppId>): set<AppId>
  {
    var children := ChildrenOf(apps, hub, CircleParent);
    (children - kept) + (if children * kept == {} then {hub} else {})
  }

  /** Every app with a parent has an existing parent of the kind its parent_kind names. */
  ghost predicate ForestIntact(apps: Apps)
  {
    forall a <- apps :: ParentOk(apps, apps[a])
  }

  /** No hub is a child. */
  ghost predicate HubsAreRoots(apps: Apps)
  {
    forall a <- apps :: IsHub(apps[a].kind) ==> apps[a].parent.None?
  }

  /** The only creators that pass a parent create a jit_wallet or a circle_wallet. */
  predicate ParentsOnlyWallets(step: AppStep)
  {
    step.Create? && step.app.parent.Some? ==> !IsHub(step.app.kind)
  }

  function AfterAppSteps(apps: Apps, steps: seq<AppStep>): Apps
  {
    if |steps| == 0 then apps else AfterAppStep(AfterAppSteps(apps, steps[..|steps| - 1]), steps[|steps| - 1])
  }

  lemma StepKeepsForest(apps: Apps, step: AppStep)
    requires ForestIntact(apps) && HubsAreRoots(apps) && ParentsOnlyWallets(step)
    ensures ForestIntact(AfterAppStep(apps, step)) && HubsAreRoots(AfterAppStep(apps, step))
  {
    var apps' := AfterAppStep(apps, step);
    forall a | a in apps' ensures ParentOk(apps', apps'[a]) {
      if a in apps && apps[a].parent.Some? {
        assert ParentOk(apps, apps[a]);
        ParentSurvives(apps, step, a);
      }
    }
  }

  /** A deletion that removes a parent removes its children too: the guard counts exactly the children there are. */
  lemma ParentSurvives(apps: Apps, step: AppStep, a: AppId)
    requires ForestIntact(apps) && HubsAreRoots(apps)
    requires a in apps && apps[a].parent.Some? && a in AfterAppStep(apps, step)
    ensures apps[a].parent.value in AfterAppStep(apps, step)
  {
    var p := apps[a].parent.value;
    assert ParentOk(apps, apps[a]);
    assert a in ChildrenOf(apps, p, ChildKindOf(apps[p].kind));
  }

  /** The forest is intact in every reachable state, and every child's parent is a root: the depth is at most one. */
  lemma {:induction false} ForestStaysIntact(steps: seq<AppStep>)
    requires forall i :: 0 <= i < |steps| ==> ParentsOnlyWallets(steps[i])
    ensures var apps := AfterAppSteps(map[], steps);
            && ForestIntact(apps) && HubsAreRoots(apps)
            && forall a <- apps :: apps[a].parent.Some? ==>
              apps[a].parent.value in apps && apps[apps[a].parent.value].parent.None?
  {
    if |steps| > 0 {
      ForestStaysIntact(steps[..|steps| - 1]);
      StepKeepsForest(AfterAppSteps(map[], steps[..|steps| - 1]), steps[|steps| - 1]);
    }
    var apps := AfterAppSteps(map[], steps);
    forall a | a in apps && apps[a].parent.Some?
      ensures apps[a].parent.value in apps && apps[apps[a].parent.value].parent.None?
    {
      assert ParentOk(apps, apps[a]);
      assert IsHub(apps[apps[a].parent.value].kind);
    }
  }

  // ---------- what a deletion takes along ----------

  /** Payments of the deleted apps are deleted in cascade. */
  function WithoutRows(rows: seq<Row>, gone: set<AppId>): seq<Row>
  {
    if |rows| == 0 then []
    else
      var init, last := WithoutRows(rows[..|rows| - 1], gone), rows[|rows| - 1];
      if last.app.Some? && last.app.value in gone then init else init + [last]
  }

  /** So are their slices; a removed slice is no row of the claims table. */
  function WithoutSlices(slices: seq<Slice>, gone: set<AppId>): seq<Slice>
  {
    seq(|slices|, k requires 0 <= k < |slices| =>
      if slices[k].wallet in gone then slices[k].(status := Removed(0)) else slices[k])
  }

  predicate IsOf(r: Row, gone: set<AppId>)
  {
    r.app.Some? && r.app.value in gone
  }

  /** The cascade removes every row of the deleted apps, keeps every other one, and keeps their order. */
  lemma {:induction false} CascadeIsExact(rows: seq<Row>, gone: set<AppId>)
    ensures forall r :: multiset(WithoutRows(rows, gone))[r] == if IsOf(r, gone) then 0 else multiset(rows)[r]
    ensures (forall i :: 0 <= i < |rows| ==> !IsOf(rows[i], gone)) ==> WithoutRows(rows, gone) == rows
    ensures forall n :: 0 <= n <= |rows| ==> WithoutRows(rows[..n], gone) <= WithoutRows(rows, gone)
  {
    if |rows| > 0 {
      var init, last := rows[..|rows| - 1], rows[|rows| - 1];
      CascadeIsExact(init, gone);
      assert rows == init + [last];
      forall n | 0 <= n <= |rows| ensures WithoutRows(rows[..n], gone) <= WithoutRows(rows, gone) {
        if n < |rows| {
          assert rows[..n] == init[..n];
        } else {
          assert rows[..n] == rows;
        }
      }
    }
  }

  ghost function Of(app: AppId, f: Row -> int): Row -> int
  {
    (r: Row) => if r.app == Some(app) then f(r) else 0
  }

  lemma {:induction false} RowsWithoutApp(rows: seq<Row>, a: AppId, f: Row -> int)
    ensures Sum(WithoutRows(rows, {a}), f) == Sum(rows, f) - Sum(rows, Of(a, f))
  {
    if |rows| > 0 {
      var init, last := rows[..|rows| - 1], rows[|rows| - 1];
      RowsWithoutApp(init, a, f);
      SumSnoc(WithoutRows(init, {a}), last, f);
    }
  }

  /** What a row holds for whoever owns it. */
  ghost function Holding(): Row -> int
  {
    (r: Row) =>
      if r.direction == Incoming then (if r.status == Settled then r.amount else 0)
      else if Live(r) then 0 - Cost(r) else 0
  }

  ghost function LedgerTotal(rows: seq<Row>): int
  {
    Sum(rows, Holding())
  }

  /** Deleting an app takes exactly its balance out of the ledger and leaves every other balance as it was. */
  lemma DeletionTakesItsBalance(rows: seq<Row>, a: AppId, other: AppId)
    ensures LedgerTotal(WithoutRows(rows, {a})) == LedgerTotal(rows) - IsolatedBalance(rows, a)
    ensures IsolatedBalance(WithoutRows(rows, {a}), other) == if a == other then 0 else IsolatedBalance(rows, other)
  {
    RowsWithoutApp(rows, a, Holding());
    SumCongruent(rows, Of(a, Holding()), BalanceOf(a));
    RowsWithoutApp(rows, a, BalanceOf(other));
    if a == other {
      SumCongruent(rows, Of(a, BalanceOf(other)), BalanceOf(other));
    } else {
      SumOfZeros(rows, Of(a, BalanceOf(other)));
    }
  }

  predicate Deleted(db: Store, apps: Apps, rows: seq<Row>, slices: seq<Slice>, gone: set<AppId>)
    reads db
  {
    db.apps == apps - gone && db.rows == WithoutRows(rows, gone) && db.slices == WithoutSlices(slices, gone)
  }

  // ---------- the service ----------

  /** The id a new app gets. */
  method FreshId(apps: Apps) returns (id: AppId)
    ensures id !in apps
  {
    id := 0;
    var rest := apps.Keys;
    while id in rest
      invariant forall a :: a in apps ==> a in rest || a < id
      decreases |rest|
    {
      rest, id := rest - {id}, id + 1;
    }
  }

  /** saveAppTx: refuses a child whose parent is gone or of the wrong kind. */
  method CreateApp(db: Store, id: AppId, app: App) returns (ok: bool)
    requires id !in db.apps
    modifies db`apps
    ensures ok <==>
              app.parent.None?
              || (app.parent.value in old(db.apps)
                  && ((app.parentKind == CircleParent && old(db.apps)[app.parent.value].kind == CircleHub)
                      || (app.parentKind == JITParent && old(db.apps)[app.parent.value].kind == JITHub)))
    ensures db.apps == AfterAppStep(old(db.apps), Create(id, app))
    ensures ok ==> db.apps == old(db.apps)[id := app]
  {
    if app.parent.Some? {
      if app.parentKind == NoParent || app.parent.value !in db.apps {
        return false;
      }
      var expected := if app.parentKind == CircleParent then CircleHub else JITHub;
      if db.apps[app.parent.value].kind != expected {
        return false;
      }
    }
    db.apps := db.apps[id := app];
    ok := true;
  }

  method DeleteRows(db: Store, gone: set<AppId>)
    modifies db`apps, db`rows, db`slices
    ensures Deleted(db, old(db.apps), old(db.rows), old(db.slices), gone)
  {
    db.apps := db.apps - gone;
    db.slices := WithoutSlices(db.slices, gone);
    ghost var before := db.rows;
    var kept: seq<Row> := [];
    for i := 0 to |db.rows|
      invariant db.rows == before && kept == WithoutRows(before[..i], gone)
    {
      assert before[..i + 1][..i] == before[..i];
      if !(db.rows[i].app.Some? && db.rows[i].app.value in gone) {
        kept := kept + [db.rows[i]];
      }
    }
    assert before[..|before|] == before;
    db.rows := kept;
  }

  /** DeleteApp: a hub that still has children is not deleted. */
  method DeleteApp(db: Store, id: AppId) returns (ok: bool)
    requires id in db.apps
    modifies db`apps, db`rows, db`slices
    ensures ok <==>
              forall a <- old(db.apps) :: old(db.apps)[a].parent == Some(id) ==>
                !(old(db.apps)[id].kind == JITHub && old(db.apps)[a].parentKind == JITParent)
                && !(old(db.apps)[id].kind == CircleHub && old(db.apps)[a].parentKind == CircleParent)
    ensures db.apps == if ok then old(db.apps) - {id} else old(db.apps)
    ensures db.apps == AfterAppStep(old(db.apps), Delete(id))
    ensures if ok then Deleted(db, old(db.apps), old(db.rows), old(db.slices), {id})
            else db.rows == old(db.rows) && db.slices == old(db.slices)
  {
    ChildlessIff(db.apps, id);
    var kind := db.apps[id].kind;
    if IsHub(kind) && |ChildrenOf(db.apps, id, ChildKindOf(kind))| > 0 {
      return false;
    }
    DeleteRows(db, {id});
    ok := true;
  }

  lemma ChildlessIff(apps: Apps, id: AppId)
    requires id in apps
    ensures MayDelete(apps, id) <==>
              forall a <- apps :: apps[a].parent == Some(id) ==>
                !(apps[id].kind == JITHub && apps[a].parentKind == JITParent)
                && !(apps[id].kind == CircleHub && apps[a].parentKind == CircleParent)
  {
    if !MayDelete(apps, id) {
      var a :| a in ChildrenOf(apps, id, ChildKindOf(apps[id].kind));
    }
    forall a | a in apps && apps[a].parent == Some(id) && MayDelete(apps, id) && IsHub(apps[id].kind)
      ensures apps[a].parentKind != ChildKindOf(apps[id].kind)
    {
      assert a !in ChildrenOf(apps, id, ChildKindOf(apps[id].kind));
    }
  }

  lemma NothingListed(xs: seq<AppId>, s: set<AppId>)
    requires forall x :: x in xs <==> x in s
    ensures xs == [] <==> s == {}
  {
    if |xs| > 0 {
      assert xs[0] in xs;
    }
  }

  datatype CircleDeletion = CircleDeletion(deleted: seq<AppId>, skipped: seq<AppId>, hubDeleted: bool)

  predicate NoneTwice(xs: seq<AppId>)
  {
    forall i, j :: 0 <= i < j < |xs| ==> xs[i] != xs[j]
  }

  ghost predicate ListsSet(xs: seq<AppId>, s: set<AppId>)
  {
    (forall x :: x in xs <==> x in s) && NoneTwice(xs)
  }

  predicate IsCircleChild(apps: Apps, a: AppId, hub: AppId)
  {
    a in apps && apps[a].parent == Some(hub) && apps[a].parentKind == CircleParent
  }

  function NonEmptyChildren(apps: Apps, rows: seq<Row>, hub: AppId): set<AppId>
  {
    set a | a in ChildrenOf(apps, hub, CircleParent) && IsolatedBalance(rows, a) != 0
  }

  /**
   DeleteCircleHub, one transaction. The children are partitioned into deleted and skipped, each listed once; in
   empty-only mode exactly those with a balance are skipped; the hub goes if and only if nobody is skipped.
   */
  method DeleteCircleHub(db: Store, hub: AppId, emptyOnly: bool) returns (r: Option<CircleDeletion>)
    requires hub in db.apps
    modifies db`apps, db`rows, db`slices
    ensures r.None? <==> old(db.apps)[hub].kind != CircleHub
    ensures r.None? ==> db.apps == old(db.apps) && db.rows == old(db.rows) && db.slices == old(db.slices)
    ensures r.Some? ==>
              && (forall a :: a in r.value.skipped <==>
                    IsCircleChild(old(db.apps), a, hub) && emptyOnly && IsolatedBalance(old(db.rows), a) != 0)
              && (forall a :: a in r.value.deleted <==>
                    IsCircleChild(old(db.apps), a, hub) && !(emptyOnly && IsolatedBalance(old(db.rows), a) != 0))
              && NoneTwice(r.value.skipped) && NoneTwice(r.value.deleted)
              && (r.value.hubDeleted <==> r.value.skipped == [])
              && (old(db.apps)[hub].parent != Some(hub) ==> (r.value.hubDeleted <==> hub !in db.apps))
    ensures r.Some? ==>
              var gone := (set a | a in r.value.deleted) + (if r.value.skipped == [] then {hub} else {});
              && db.apps.Keys == old(db.apps).Keys - gone && (forall a <- db.apps :: db.apps[a] == old(db.apps)[a])
              && (forall row :: multiset(db.rows)[row] == if IsOf(row, gone) then 0 else multiset(old(db.rows))[row])
              && |db.slices| == |old(db.slices)|
              && (forall k :: 0 <= k < |db.slices| ==>
                    if old(db.slices)[k].wallet in gone then db.slices[k].status.Removed?
                    else db.slices[k] == old(db.slices)[k])
    ensures r.Some? ==>
              var kept := if emptyOnly then NonEmptyChildren(old(db.apps), old(db.rows), hub) else {};
              && db.apps == AfterAppStep(old(db.apps), DeleteCircle(hub, kept))
              && Deleted(db, old(db.apps), old(db.rows), old(db.slices), CircleDoomed(old(db.apps), hub, kept))
  {
    hide IsolatedBalance, WithoutRows, CircleDoomed, NonEmptyChildren;
    if db.apps[hub].kind != CircleHub {
      return None;
    }
    var deleted, skipped := SplitChildren(db, hub, emptyOnly);
    var gone := set a | a in deleted;
    if skipped == [] {
      gone := gone + {hub};
    }
    CascadeIsExact(db.rows, gone);
    assert gone == (set a | a in deleted) + (if skipped == [] then {hub} else {});
    GoneIsDoomed(db.apps, db.rows, hub, emptyOnly, deleted, skipped);
    DeleteRows(db, gone);
    r := Some(CircleDeletion(deleted, skipped, skipped == []));
  }

  lemma GoneIsDoomed(apps: Apps, rows: seq<Row>, hub: AppId, emptyOnly: bool, deleted: seq<AppId>,
                     skipped: seq<AppId>)
    requires forall a :: a in skipped <==> IsCircleChild(apps, a, hub) && emptyOnly && IsolatedBalance(rows, a) != 0
    requires forall a :: a in deleted <==>
               IsCircleChild(apps, a, hub) && !(emptyOnly && IsolatedBalance(rows, a) != 0)
    ensures (set a | a in deleted) + (if skipped == [] then {hub} else {})
         == CircleDoomed(apps, hub, if emptyOnly then NonEmptyChildren(apps, rows, hub) else {})
  {
    hide IsolatedBalance;
    var kept := if emptyOnly then NonEmptyChildren(apps, rows, hub) else {};
    NothingListed(skipped, kept);
    assert ChildrenOf(apps, hub, CircleParent) * kept == kept;
    assert (set a | a in deleted) == ChildrenOf(apps, hub, CircleParent) - kept;
  }

  /** Every child once, in one list or the other; nothing is deleted yet. */
  method SplitChildren(db: Store, hub: AppId, emptyOnly: bool) returns (deleted: seq<AppId>, skipped: seq<AppId>)
    ensures forall a :: a in skipped <==>
              IsCircleChild(db.apps, a, hub) && emptyOnly && IsolatedBalance(db.rows, a) != 0
    ensures forall a :: a in deleted <==>
              IsCircleChild(db.apps, a, hub) && !(emptyOnly && IsolatedBalance(db.rows, a) != 0)
    ensures NoneTwice(skipped) && NoneTwice(deleted)
  {
    var rest := ChildrenOf(db.apps, hub, CircleParent);
    deleted, skipped := [], [];
    while rest != {}
      invariant forall a <- rest :: IsCircleChild(db.apps, a, hub)
      invariant forall a :: a in skipped <==>
                  IsCircleChild(db.apps, a, hub) && a !in rest && emptyOnly && IsolatedBalance(db.rows, a) != 0
      invariant forall a :: a in deleted <==>
                  IsCircleChild(db.apps, a, hub) && a !in rest && !(emptyOnly && IsolatedBalance(db.rows, a) != 0)
      invariant NoneTwice(skipped) && NoneTwice(deleted)
    {
      var child :| child in rest;
      if emptyOnly && IsolatedBalance(db.rows, child) != 0 {
        skipped := skipped + [child];
      } else {
        deleted := deleted + [child];
      }
      rest := rest - {child};
    }
  }

  ghost function BalanceIn(rows: seq<Row>): AppId -> int
  {
    (a: AppId) => IsolatedBalance(rows, a)
  }

  lemma {:induction false} DeletionTakesBalances(rows: seq<Row>, gone: set<AppId>, list: seq<AppId>)
    requires ListsSet(list, gone)
    ensures LedgerTotal(WithoutRows(rows, gone)) == LedgerTotal(rows) - Sum(list, BalanceIn(rows))
  {
    if |rows| == 0 {
      SumOfZeros(list, BalanceIn(rows));
    } else {
      var init, last := rows[..|rows| - 1], rows[|rows| - 1];
      DeletionTakesBalances(init, gone, list);
      SumSnoc(WithoutRows(init, gone), last, Holding());
      if last.app.Some? && last.app.value in gone {
        var k :| 0 <= k < |list| && list[k] == last.app.value;
        SumDiffersAt(list, k, BalanceIn(init), BalanceIn(rows));
      } else {
        SumCongruent(list, BalanceIn(init), BalanceIn(rows));
      }
    }
  }

  /** Deleting the empty children of a hub, and only those, destroys no money. */
  lemma EmptyChildrenHoldNothing(apps: Apps, rows: seq<Row>, hub: AppId, deleted: seq<AppId>)
    requires ListsSet(deleted, ChildrenOf(apps, hub, CircleParent) - NonEmptyChildren(apps, rows, hub))
    ensures LedgerTotal(WithoutRows(rows, set a | a in deleted)) == LedgerTotal(rows)
  {
    forall i | 0 <= i < |deleted| ensures BalanceIn(rows)(deleted[i]) == 0 {
      assert deleted[i] in deleted;
    }
    SumOfZeros(deleted, BalanceIn(rows));
    DeletionTakesBalances(rows, (set a | a in deleted), deleted);
  }
}
