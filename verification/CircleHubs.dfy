/** The configuration of circle hubs: the bounds on a hub's fee that the skim arithmetic rests on. */
module CircleHubs {
  import opened Wrappers
  import opened Fees
  import opened Ledger
  import opened Admission
  import opened Threads
  import opened AppsService

  const MONTHLY: string := "monthly"
  const RENEWALS: seq<string> := ["daily", "weekly", "monthly", "yearly", "never"]

  datatype CircleConfig = CircleConfig(maxExpSecs: int, feesPpm: int, perWalletMaxMloki: int, minBudgetRenewal: string)

  datatype ConfigError = InvalidConfig | NoIdentity | SaveFailed | NoConfigRow

  predicate ValidConfig(c: CircleConfig)
  {
    c.maxExpSecs > 0 && ValidFeesPpm(c.feesPpm) && c.perWalletMaxMloki > 0 && c.minBudgetRenewal in RENEWALS
  }

  /** Only circle hubs charge, and at the rate of their configuration. */
  ghost predicate RatesAgree(apps: Apps, configs: map<AppId, CircleConfig>)
  {
    && (forall a <- configs :: ValidConfig(configs[a]))
    && (forall a <- apps :: if apps[a].kind == CircleHub then a in configs && apps[a].feesPpm == configs[a].feesPpm
                            else apps[a].feesPpm == 0)
  }

  /**
   With the rates in order no child ever pays its hub more than the payment, and exactly the floor where uint64 holds
   it.
   */
  lemma SkimsAreFair(apps: Apps, configs: map<AppId, CircleConfig>, app: App, req: Request)
    requires RatesAgree(apps, configs)
    ensures ValidFeesPpm(FeesPpmFor(apps, app))
    ensures SkimFor(apps, app, req) <= req.amount
    ensures req.amount * PPM_DIVISOR < UINT64_RANGE && app.kind == CircleWallet && !req.selfPayment ==>
              IsFloorOfShare(SkimFor(apps, app, req), req.amount, FeesPpmFor(apps, app))
  {
    var ppm := FeesPpmFor(apps, app);
    SkimAtMostAmount(req.amount, ppm);
    ProductMonotone(req.amount, ppm, PPM_DIVISOR);
    SkimExactIffNoWrap(req.amount, ppm);
  }

  /** Every value that an update gives is one that a stored configuration may have. */
  predicate ValidUpdate(maxExpSecs: Option<int>, feesPpm: Option<int>, perWalletMaxMloki: Option<int>,
                        minBudgetRenewal: Option<string>)
  {
    && (maxExpSecs.Some? ==> maxExpSecs.value > 0)
    && (feesPpm.Some? ==> ValidFeesPpm(feesPpm.value))
    && (perWalletMaxMloki.Some? ==> perWalletMaxMloki.value > 0)
    && (minBudgetRenewal.Some? ==> minBudgetRenewal.value in RENEWALS)
  }

  class CircleHubs {
    var configs: map<AppId, CircleConfig>

    constructor ()
      ensures configs == map[]
    {
      configs := map[];
    }

    /** A hub that cannot store its configuration is deleted again; an invalid configuration creates nothing. */
    method CreateCircleHub(db: Store, id: AppId, config: CircleConfig, hasPayScope: bool, maxAmountLoki: nat,
                           identityOk: bool, saveOk: bool)
      returns (r: Result<AppId, ConfigError>)
      requires id !in db.apps && id !in configs && ForestIntact(db.apps) && RatesAgree(db.apps, configs)
      modifies this, db`apps, db`rows, db`slices
      ensures RatesAgree(db.apps, configs) && ForestIntact(db.apps)
      ensures var stored := if config.minBudgetRenewal == "" then config.(minBudgetRenewal := MONTHLY) else config;
              && (r.Ok? <==> ValidConfig(stored) && identityOk && saveOk)
              && (r.Ok? <==>
                    && config.maxExpSecs > 0 && 0 <= config.feesPpm <= 1_000_000 && config.perWalletMaxMloki > 0
                    && config.minBudgetRenewal in ["", "daily", "weekly", "monthly", "yearly", "never"]
                    && identityOk && saveOk)
              && (r == Err(InvalidConfig) <==> !ValidConfig(stored))
              && (r == Err(NoIdentity) <==> ValidConfig(stored) && !identityOk)
              && (r == Err(SaveFailed) <==> ValidConfig(stored) && identityOk && !saveOk)
              && (r.Err? ==> db.apps == old(db.apps) && configs == old(configs))
              && (r.Ok? ==> db.rows == old(db.rows) && db.slices == old(db.slices))
              && (r.Err? ==> db.rows == old(db.rows) || db.rows == WithoutRows(old(db.rows), {id}))
              && (r.Ok? ==> configs == old(configs)[id := stored]
                            && db.apps == old(db.apps)[id := App(CircleHub, None, NoParent, hasPayScope, maxAmountLoki,
                                                                 config.feesPpm)])
    {
      if config.maxExpSecs <= 0 || config.perWalletMaxMloki <= 0 {
        return Err(InvalidConfig);
      }
      if config.feesPpm < 0 || config.feesPpm > MAX_FEES_PPM {
        return Err(InvalidConfig);
      }
      var stored := if config.minBudgetRenewal == "" then config.(minBudgetRenewal := MONTHLY) else config;
      if stored.minBudgetRenewal !in RENEWALS {
        return Err(InvalidConfig);
      }
      if !identityOk {
        return Err(NoIdentity);
      }
      ghost var before := db.apps;
      var hub := App(CircleHub, None, NoParent, hasPayScope, maxAmountLoki, config.feesPpm);
      var created := CreateApp(db, id, hub);
      NewHubIsChildless(before, id, hub);
      if !saveOk {
        var deleted := DeleteApp(db, id);
        assert db.apps == before;
        return Err(SaveFailed);
      }
      configs := configs[id := stored];
      r := Ok(id);
    }

    /** Fields that are given must be valid, the others stay; giving none succeeds even for an app that is no hub. */
    method UpdateCircleHubConfig(db: Store, id: AppId, maxExpSecs: Option<int>, feesPpm: Option<int>,
                                 perWalletMaxMloki: Option<int>, minBudgetRenewal: Option<string>)
      returns (r: Result<AppId, ConfigError>)
      requires RatesAgree(db.apps, configs)
      requires forall a <- configs :: a in db.apps && db.apps[a].kind == CircleHub
      modifies this, db`apps
      ensures RatesAgree(db.apps, configs)
      ensures r.Ok? <==>
                && ValidUpdate(maxExpSecs, feesPpm, perWalletMaxMloki, minBudgetRenewal)
                && (id in old(configs) ||
                    (maxExpSecs.None? && feesPpm.None? && perWalletMaxMloki.None? && minBudgetRenewal.None?))
      ensures r == Err(InvalidConfig) <==> !ValidUpdate(maxExpSecs, feesPpm, perWalletMaxMloki, minBudgetRenewal)
      ensures r.Err? ==> r.error == InvalidConfig || r.error == NoConfigRow
      ensures r.Err? || id !in old(configs) ==> db.apps == old(db.apps) && configs == old(configs)
      ensures r.Ok? && id in old(configs) ==>
                var c := old(configs)[id];
                configs == old(configs)[id := CircleConfig(
                  if maxExpSecs.Some? then maxExpSecs.value else c.maxExpSecs,
                  if feesPpm.Some? then feesPpm.value else c.feesPpm,
                  if perWalletMaxMloki.Some? then perWalletMaxMloki.value else c.perWalletMaxMloki,
                  if minBudgetRenewal.Some? then minBudgetRenewal.value else c.minBudgetRenewal)]
                && db.apps == old(db.apps)[id := old(db.apps)[id].(feesPpm := configs[id].feesPpm)]
    {
      if maxExpSecs.Some? && maxExpSecs.value <= 0 {
        return Err(InvalidConfig);
      }
      if feesPpm.Some? && (feesPpm.value < 0 || feesPpm.value > MAX_FEES_PPM) {
        return Err(InvalidConfig);
      }
      if perWalletMaxMloki.Some? && perWalletMaxMloki.value <= 0 {
        return Err(InvalidConfig);
      }
      if minBudgetRenewal.Some? && minBudgetRenewal.value !in RENEWALS {
        return Err(InvalidConfig);
      }
      if maxExpSecs.None? && feesPpm.None? && perWalletMaxMloki.None? && minBudgetRenewal.None? {
        assert id in configs ==> configs == configs[id := configs[id]];
        assert id in configs ==> db.apps == db.apps[id := db.apps[id].(feesPpm := configs[id].feesPpm)];
        return Ok(id);
      }
      if id !in configs {
        return Err(NoConfigRow);
      }
      var c := configs[id];
      if maxExpSecs.Some? {
        c := c.(maxExpSecs := maxExpSecs.value);
      }
      if feesPpm.Some? {
        c := c.(feesPpm := feesPpm.value);
      }
      if perWalletMaxMloki.Some? {
        c := c.(perWalletMaxMloki := perWalletMaxMloki.value);
      }
      if minBudgetRenewal.Some? {
        c := c.(minBudgetRenewal := minBudgetRenewal.value);
      }
      configs := configs[id := c];
      db.apps := db.apps[id := db.apps[id].(feesPpm := c.feesPpm)];
      r := Ok(id);
    }
  }

  lemma NewHubIsChildless(apps: Apps, id: AppId, hub: App)
    requires ForestIntact(apps) && id !in apps && hub.parent.None?
    ensures ForestIntact(apps[id := hub]) && ChildrenOf(apps[id := hub], id, CircleParent) == {}
    ensures apps[id := hub] - {id} == apps
  {
    forall a | a in apps ensures apps[a].parent != Some(id) {
      assert ParentOk(apps, apps[a]);
    }
    var apps' := apps[id := hub];
    forall a | a in apps' ensures ParentOk(apps', apps'[a]) {
      if a != id {
        assert ParentOk(apps, apps[a]);
      }
    }
  }
}
