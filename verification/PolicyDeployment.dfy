/** Deploying the pipelines that are not in place yet: all or nothing, and what a failed
  * attempt leaves behind. */
module PolicyDeployment {
  import opened PolicyModel
  import opened PolicyTables
  import opened PolicyGrowth
  import opened PolicyInvariants
  import opened PolicyBudget
  import opened PolicyPruning

  // ---- One model ---------------------------------------------------------------------------

  /** The sessions of a pipeline that is being deployed. */
  predicate PipelineSessions(w: World, models: seq<CModel>, ss: seq<string>) {
    && ss != []
    && models != []
    && DistinctStrings(ss)
    && DistinctModelIds(models)
    && forall s :: s in ss ==> KeyModels(w, s) == models
  }

  lemma DeployGood(w: World, p: Pool, m: string, ss: seq<string>)
    requires Good(w, p) && DistinctStrings(ss) && ServesAll(p.table, ss, m)
    requires forall s :: s in ss ==> HasModel(KeyModels(w, s), m)
    ensures var d := Deploy(p, w.cat, m, ss);
            && Good(w, d.0)
            && WithinBudget(w.cat, d.0, p)
            && (d.1.None? <==> Saturated(p, w.cat, m))
            && (d.1.None? ==> d.0 == p)
            && (d.1.Some? ==>
                 && d.0 == DeployOn(p, w.cat, m, ss, d.1.value)
                 && d.1.value in BackendNames(p.backends)
                 && !Runs(p.table, m, d.1.value))
  {
    ChooseIsBest(p, w.cat, m);
    match Choose(p, w.cat, m)
    case None =>
    case Some(b) =>
      var bp, live := NewBackendPlan(w.cat, m, b.name), BackendNames(p.backends);
      var i :| 0 <= i < |p.backends| && p.backends[i] == b;
      assert b.name in live;
      assert RightKind(w, m, b.name);
      DeployBudget(p, w.cat, m, ss, b);
      AddPlansInv(w, live, p.table, ss, m, bp);
      SameBackendsOk(w, DeployOn(p, w.cat, m, ss, b.name).backends, p.backends);
  }

  lemma {:induction false} PlansInEmpty(plans: seq<CModelPlan>, m: string)
    ensures forall q :: q in PlansIn(plans, m) <==> q in plans && q.model == m
  {
    if plans != [] {
      assert plans == plans[..|plans| - 1] + [plans[|plans| - 1]];
      PlansInEmpty(plans[..|plans| - 1], m);
    }
  }

  predicate HasPlan(t: Table, q: CModelPlan) {
    exists i :: 0 <= i < |t| && q in t[i].models
  }

  lemma {:induction false} PlansOfExact(t: Table, m: string)
    ensures forall q :: q in PlansOf(t, m) <==> HasPlan(t, q) && q.model == m
  {
    if t != [] {
      var init, e := t[..|t| - 1], t[|t| - 1];
      PlansOfExact(init, m);
      PlansInEmpty(e.models, m);
      forall q ensures HasPlan(t, q) <==> HasPlan(init, q) || q in e.models {
        if i :| 0 <= i < |init| && q in init[i].models {
          assert t[i] == init[i];
        }
        if q in e.models {
          assert q in t[|t| - 1].models;
        }
      }
    }
  }

  lemma UnplannedIsNoPlans(t: Table, m: string)
    ensures Unplanned(t, m) <==> PlansOf(t, m) == []
  {
    PlansOfExact(t, m);
    if PlansOf(t, m) != [] {
      var q := PlansOf(t, m)[0];
      assert q in PlansOf(t, m);
      var i :| 0 <= i < |t| && q in t[i].models;
      assert Plans(t[i], m);
    }
    if !Unplanned(t, m) {
      var i :| 0 <= i < |t| && Plans(t[i], m);
      var j :| 0 <= j < |t[i].models| && t[i].models[j].model == m;
      assert HasPlan(t, t[i].models[j]);
    }
  }

  lemma PlannedIsHosted(t: Table, m: string)
    requires Shape(t)
    ensures Unplanned(t, m) <==> Hosts(t, m) == {}
  {
    if Unplanned(t, m) {
      UnplannedHosts(t, m);
    } else {
      var i :| 0 <= i < |t| && Plans(t[i], m);
      var j :| 0 <= j < |t[i].models| && t[i].models[j].model == m;
      NamesNonEmpty(t[i].models[j].backends);
      var b :| b in Names(t[i].models[j].backends);
      assert EntryRuns(t[i], m, b);
      assert b in Hosts(t, m);
    }
  }

  // ---- The models of one pipeline -------------------------------------------------------------

  predicate Deployed(pairs: seq<(string, string)>, m: string) {
    exists k :: 0 <= k < |pairs| && pairs[k].0 == m
  }

  /** Only sessions outside `ss` count: they are the same, in the same order. */
  predicate OthersSame(r: Table, t: Table, ss: seq<string>) {
    DropAll(r, ss) == DropAll(t, ss)
  }

  /** What is known after some models of a pipeline have been tried: the deployed ones are new,
    * each on the one backend chosen for it and used by exactly the pipeline's sessions. */
  ghost predicate ProgressOk(w: World, p: Pool, ss: seq<string>, models: seq<CModel>, g: Progress) {
    && Good(w, g.pool)
    && WithinBudget(w.cat, g.pool, p)
    && TableProgress(p.table, ss, models, g.pool.table, g.deployed)
  }

  predicate DeployedFor(before: Table, after: Table, ss: seq<string>, models: seq<CModel>, pair: (string, string)) {
    && HasModel(models, pair.0)
    && Unplanned(before, pair.0)
    && (forall i :: 0 <= i < |after| ==> (Plans(after[i], pair.0) <==> after[i].session in ss))
    && (forall s :: s in ss ==> HasSession(after, s))
  }

  /** Every model of the list is planned for every session, or was planned before. */
  predicate Tried(t: Table, models: seq<CModel>, g: Progress) {
    forall k :: 0 <= k < |models| ==> Deployed(g.deployed, models[k].uuid) || !Unplanned(t, models[k].uuid)
  }

  lemma {:induction false} DropAllPointwise(r: Table, t: Table, ss: seq<string>)
    requires |r| == |t|
    requires forall i :: 0 <= i < |t| ==> if t[i].session in ss then r[i].session in ss else r[i] == t[i]
    ensures DropAll(r, ss) == DropAll(t, ss)
  {
    if t != [] {
      DropAllPointwise(r[..|r| - 1], t[..|t| - 1], ss);
    }
  }

  lemma {:induction false} DropAllTail(t: Table, x: Table, ss: seq<string>)
    requires forall i :: 0 <= i < |x| ==> x[i].session in ss
    ensures DropAll(t + x, ss) == DropAll(t, ss)
  {
    if x == [] {
      assert t + x == t;
    } else {
      DropAllTail(t, x[..|x| - 1], ss);
      assert (t + x)[..|t + x| - 1] == t + x[..|x| - 1];
    }
  }

  lemma AddPlansOthers(t: Table, ss: seq<string>, m: string, bp: BackendPlan)
    requires DistinctSessions(t) && DistinctStrings(ss)
    ensures OthersSame(AddPlans(t, ss, m, bp), t, ss)
    ensures forall s :: HasSession(t, s) ==> HasSession(AddPlans(t, ss, m, bp), s)
    ensures |t| <= |AddPlans(t, ss, m, bp)|
    ensures forall i :: 0 <= i < |t| ==> AddPlans(t, ss, m, bp)[i].session == t[i].session
  {
    AddPlansTable(t, ss, m, bp);
    var r := AddPlans(t, ss, m, bp);
    forall i | 0 <= i < |t| ensures r[i].session == t[i].session {
      AddToEntrySession(t[i], m, bp);
    }
    var head := r[..|t|];
    assert r == head + r[|t|..];
    DropAllPointwise(head, t, ss);
    DropAllTail(head, r[|t|..], ss);
    forall s | HasSession(t, s) ensures HasSession(r, s) {
      var i :| 0 <= i < |t| && t[i].session == s;
      assert r[i].session == s;
    }
  }

  lemma NotRunning(t: Table, m: string, b: string, i: nat)
    requires !Runs(t, m, b)
    ensures i < |t| ==> !EntryRuns(t[i], m, b)
  {
  }

  /** Who plans which model after a placement was added. */
  lemma AddPlansPlans(t: Table, ss: seq<string>, m: string, bp: BackendPlan, i: nat, x: string)
    requires Shape(t) && DistinctStrings(ss) && !Runs(t, m, bp.backend)
    requires i < |AddPlans(t, ss, m, bp)|
    ensures var r := AddPlans(t, ss, m, bp);
            Plans(r[i], x) <==> (i < |t| && Plans(t[i], x)) || (x == m && r[i].session in ss)
  {
    hide OthersSame, AddPlans, Runs;
    AddPlansTable(t, ss, m, bp);
    AddPlansOthers(t, ss, m, bp);
    var r := AddPlans(t, ss, m, bp);
    NotRunning(t, m, bp.backend, i);
    if i >= |t| {
      assert r[i].models[0].model == m;
    } else if t[i].session in ss {
      AddToEntryShape(t[i], m, bp);
      if Plans(t[i], x) {
        var j :| 0 <= j < |t[i].models| && t[i].models[j].model == x;
        assert r[i].models[j].model == x;
      }
      if !Plans(t[i], m) {
        assert r[i].models[|t[i].models|].model == m;
      } else {
        var j :| 0 <= j < |t[i].models| && t[i].models[j].model == m;
        assert r[i].models[j].model == m;
      }
    }
  }

  lemma StillUnplanned(r: Table, t: Table, m: string)
    requires Shape(r) && Shape(t)
    requires forall y :: Runs(r, m, y) ==> Runs(t, m, y)
    requires Unplanned(t, m)
    ensures Unplanned(r, m)
  {
    PlannedIsHosted(r, m);
    PlannedIsHosted(t, m);
    forall y ensures y !in Hosts(r, m) {
    }
  }

  lemma DeployedStays(before: Table, t: Table, ss: seq<string>, models: seq<CModel>, pair: (string, string),
                      m: string, bp: BackendPlan)
    requires Shape(t) && DistinctStrings(ss) && ss != [] && !Runs(t, m, bp.backend) && Unplanned(t, m)
    requires DeployedFor(before, t, ss, models, pair)
    ensures DeployedFor(before, AddPlans(t, ss, m, bp), ss, models, pair)
    ensures pair.0 != m
  {
    NotDeployedYet(before, t, ss, models, pair, m);
    var r := AddPlans(t, ss, m, bp);
    AddPlansOthers(t, ss, m, bp);
    AddPlansTable(t, ss, m, bp);
    forall i | 0 <= i < |r| ensures Plans(r[i], pair.0) <==> r[i].session in ss {
      AddPlansPlans(t, ss, m, bp, i, pair.0);
    }
  }

  lemma JustDeployed(before: Table, t: Table, ss: seq<string>, models: seq<CModel>, m: string, bp: BackendPlan)
    requires Shape(t) && DistinctStrings(ss) && !Runs(t, m, bp.backend) && Unplanned(t, m)
    requires HasModel(models, m) && Unplanned(before, m)
    ensures DeployedFor(before, AddPlans(t, ss, m, bp), ss, models, (m, bp.backend))
  {
    var r := AddPlans(t, ss, m, bp);
    AddPlansTable(t, ss, m, bp);
    forall i | 0 <= i < |r| ensures Plans(r[i], m) <==> r[i].session in ss {
      AddPlansPlans(t, ss, m, bp, i, m);
    }
  }

  lemma DeployStepPairs(before: Table, t: Table, ss: seq<string>, models: seq<CModel>,
                        pairs: seq<(string, string)>, m: string, bp: BackendPlan)
    requires Shape(t) && DistinctStrings(ss) && ss != [] && !Runs(t, m, bp.backend) && Unplanned(t, m)
    requires HasModel(models, m) && Unplanned(before, m)
    requires forall k :: 0 <= k < |pairs| ==> DeployedFor(before, t, ss, models, pairs[k])
    ensures forall k :: 0 <= k < |pairs| ==> pairs[k].0 != m
    ensures var next := pairs + [(m, bp.backend)];
            forall k :: 0 <= k < |next| ==> DeployedFor(before, AddPlans(t, ss, m, bp), ss, models, next[k])
  {
    var next := pairs + [(m, bp.backend)];
    forall k | 0 <= k < |next|
      ensures DeployedFor(before, AddPlans(t, ss, m, bp), ss, models, next[k])
      ensures k < |pairs| ==> pairs[k].0 != m
    {
      if k < |pairs| {
        DeployedStays(before, t, ss, models, pairs[k], m, bp);
      } else {
        JustDeployed(before, t, ss, models, m, bp);
      }
    }
  }

  lemma DeployStepRuns(before: Table, t: Table, ss: seq<string>, pairs: seq<(string, string)>, m: string, bp: BackendPlan)
    requires Shape(t) && DistinctStrings(ss) && ss != [] && !Runs(t, m, bp.backend)
    requires forall x, y :: Runs(t, x, y) <==> Runs(before, x, y) || (x, y) in pairs
    ensures forall x, y :: Runs(AddPlans(t, ss, m, bp), x, y) <==> Runs(before, x, y) || (x, y) in pairs + [(m, bp.backend)]
  {
    AddPlansShape(t, ss, m, bp);
  }

  lemma DeployStepGood(w: World, p: Pool, g: Pool, ss: seq<string>, models: seq<CModel>, m: string)
    requires Good(w, g) && WithinBudget(w.cat, g, p)
    requires PipelineSessions(w, models, ss) && HasModel(models, m) && Unplanned(g.table, m)
    ensures Good(w, Deploy(g, w.cat, m, ss).0)
    ensures WithinBudget(w.cat, Deploy(g, w.cat, m, ss).0, p)
    ensures var d := Deploy(g, w.cat, m, ss).1;
            d.Some? ==> !Runs(g.table, m, d.value)
  {
    DeployGood(w, g, m, ss);
    WithinTransitive(w.cat, Deploy(g, w.cat, m, ss).0, g, p);
  }

  /** The part of `ProgressOk` that is about the table alone. */
  ghost predicate TableProgress(before: Table, ss: seq<string>, models: seq<CModel>, t: Table, pairs: seq<(string, string)>) {
    && OthersSame(t, before, ss)
    && (forall x, y :: Runs(t, x, y) <==> Runs(before, x, y) || (x, y) in pairs)
    && (forall j, k :: 0 <= j < k < |pairs| ==> pairs[j].0 != pairs[k].0)
    && (forall k :: 0 <= k < |pairs| ==> DeployedFor(before, t, ss, models, pairs[k]))
    && (forall s :: HasSession(before, s) ==> HasSession(t, s))
  }

  lemma TableStep(before: Table, ss: seq<string>, models: seq<CModel>, t: Table, pairs: seq<(string, string)>,
                  m: string, bp: BackendPlan)
    requires Shape(t) && Shape(before) && DistinctStrings(ss) && ss != [] && HasModel(models, m)
    requires !Runs(t, m, bp.backend) && Unplanned(t, m)
    requires TableProgress(before, ss, models, t, pairs)
    ensures TableProgress(before, ss, models, AddPlans(t, ss, m, bp), pairs + [(m, bp.backend)])
  {
    hide Unplanned, AddPlans, DropAll, DeployedFor, Runs, HasModel;
    AddPlansOthers(t, ss, m, bp);
    StillUnplanned(before, t, m);
    DeployStepPairs(before, t, ss, models, pairs, m, bp);
    DeployStepRuns(before, t, ss, pairs, m, bp);
  }

  /** One more model deployed. */
  lemma DeployStep(w: World, p: Pool, ss: seq<string>, models: seq<CModel>, g: Progress, m: string)
    requires Good(w, p) && PipelineSessions(w, models, ss) && HasModel(models, m)
    requires ProgressOk(w, p, ss, models, g) && Unplanned(g.pool.table, m)
    requires Deploy(g.pool, w.cat, m, ss).1.Some?
    ensures var d := Deploy(g.pool, w.cat, m, ss);
            ProgressOk(w, p, ss, models, g.(pool := d.0, deployed := g.deployed + [(m, d.1.value)]))
  {
    DeployStepGood(w, p, g.pool, ss, models, m);
    TableStep(p.table, ss, models, g.pool.table, g.deployed, m,
              NewBackendPlan(w.cat, m, Deploy(g.pool, w.cat, m, ss).1.value));
  }

  lemma NotDeployedYet(before: Table, t: Table, ss: seq<string>, models: seq<CModel>, pair: (string, string), m: string)
    requires ss != [] && DeployedFor(before, t, ss, models, pair) && Unplanned(t, m)
    ensures pair.0 != m
  {
    assert ss[0] in ss;
    var i :| 0 <= i < |t| && t[i].session == ss[0];
    assert Plans(t[i], pair.0);
  }

  lemma {:induction false} DeployModelsOk(w: World, p: Pool, all: seq<CModel>, models: seq<CModel>, ss: seq<string>)
    requires Good(w, p) && PipelineSessions(w, all, ss) && models <= all
    ensures var g := DeployModels(p, w.cat, models, ss);
            && ProgressOk(w, p, ss, all, g)
            && (g.ok ==> Tried(p.table, models, g))
  {
    if models == [] {
      WithinRefl(w.cat, p);
    } else {
      var init, c := models[..|models| - 1], models[|models| - 1];
      DeployModelsOk(w, p, all, init, ss);
      var g0, g := DeployModels(p, w.cat, init, ss), DeployModels(p, w.cat, models, ss);
      var t := g0.pool.table;
      UnplannedIsNoPlans(t, c.uuid);
      assert all[|models| - 1] == c;
      if g0.ok {
        if Unplanned(t, c.uuid) && Deploy(g0.pool, w.cat, c.uuid, ss).1.Some? {
          DeployStep(w, p, ss, all, g0, c.uuid);
          assert g.deployed[|g0.deployed|].0 == c.uuid;
        }
        if g.ok {
          forall k | 0 <= k < |models|
            ensures Deployed(g.deployed, models[k].uuid) || !Unplanned(p.table, models[k].uuid)
          {
            TriedStep(w, p, ss, all, init, g0, g, models[k], t);
          }
        }
      }
    }
  }

  lemma PairIsDeployed(pairs: seq<(string, string)>, m: string, b: string)
    ensures (m, b) in pairs ==> Deployed(pairs, m)
  {
    if k :| 0 <= k < |pairs| && pairs[k] == (m, b) {
      assert pairs[k].0 == m;
    }
  }

  lemma TriedStep(w: World, p: Pool, ss: seq<string>, all: seq<CModel>, init: seq<CModel>, g0: Progress, g: Progress, x: CModel, t: Table)
    requires Good(w, p) && ProgressOk(w, p, ss, all, g0) && t == g0.pool.table && Tried(p.table, init, g0)
    requires g0.deployed <= g.deployed
    requires x in init || Deployed(g.deployed, x.uuid) || !Unplanned(t, x.uuid)
    ensures Deployed(g.deployed, x.uuid) || !Unplanned(p.table, x.uuid)
  {
    if Deployed(g0.deployed, x.uuid) {
      var i :| 0 <= i < |g0.deployed| && g0.deployed[i].0 == x.uuid;
      assert g.deployed[i].0 == x.uuid;
    } else if x in init {
      var k :| 0 <= k < |init| && init[k] == x;
    } else if Unplanned(p.table, x.uuid) {
      forall y | Runs(t, x.uuid, y) ensures Runs(p.table, x.uuid, y) {
        PairIsDeployed(g0.deployed, x.uuid, y);
      }
      StillUnplanned(t, p.table, x.uuid);
    }
  }

  lemma WithinRefl(cat: Catalog, p: Pool)
    ensures WithinBudget(cat, p, p)
  {
  }

  // ---- What was found already there ------------------------------------------------------------

  predicate Fresh(t: Table, models: seq<CModel>) {
    forall k :: 0 <= k < |models| ==> Unplanned(t, models[k].uuid)
  }

  lemma PlansKept(t: Table, ss: seq<string>, m: string, bp: BackendPlan, q: CModelPlan)
    requires DistinctSessions(t) && DistinctStrings(ss) && Unplanned(t, m) && HasPlan(t, q)
    ensures HasPlan(AddPlans(t, ss, m, bp), q)
  {
    AddPlansTable(t, ss, m, bp);
    var i :| 0 <= i < |t| && q in t[i].models;
    PlansIsFirst(t[i], m);
    assert q in AddPlans(t, ss, m, bp)[i].models;
  }

  /** What is known of the shared plans: they are still in the table, there are none if all
    * models were new, and all models were new if there are none. */
  ghost predicate SharingKnown(p: Pool, models: seq<CModel>, g: Progress) {
    && (forall m :: Deployed(g.deployed, m) ==> HasModel(models, m))
    && (forall q :: q in g.shared ==> HasPlan(g.pool.table, q))
    && (g.deployed == [] ==> g.pool == p)
    && (Fresh(p.table, models) ==> g.shared == [])
    && (g.ok && g.shared == [] ==> Fresh(p.table, models))
  }

  lemma SharedStep(p: Pool, init: seq<CModel>, c: CModel, g: Progress)
    requires SharingKnown(p, init, g) && g.ok
    requires Unplanned(g.pool.table, c.uuid) <==> Unplanned(p.table, c.uuid)
    requires !Unplanned(g.pool.table, c.uuid)
    ensures SharingKnown(p, init + [c], g.(shared := g.shared + PlansOf(g.pool.table, c.uuid)))
  {
    HasModelSnoc(init, c);
    FreshSnoc(p.table, init, c);
    UnplannedIsNoPlans(g.pool.table, c.uuid);
    PlansOfExact(g.pool.table, c.uuid);
  }

  lemma UnsharedStep(w: World, p: Pool, init: seq<CModel>, c: CModel, ss: seq<string>, g: Progress)
    requires SharingKnown(p, init, g) && g.ok
    requires Good(w, g.pool) && DistinctStrings(ss) && forall s :: s in ss ==> HasModel(KeyModels(w, s), c.uuid)
    requires Unplanned(g.pool.table, c.uuid) && Unplanned(p.table, c.uuid)
    ensures var d := Deploy(g.pool, w.cat, c.uuid, ss);
            && (d.1.None? ==> SharingKnown(p, init + [c], g.(ok := false)))
            && (d.1.Some? ==> SharingKnown(p, init + [c], g.(pool := d.0, deployed := g.deployed + [(c.uuid, d.1.value)])))
  {
    HasModelSnoc(init, c);
    FreshSnoc(p.table, init, c);
    DeployGood(w, g.pool, c.uuid, ss);
    var d := Deploy(g.pool, w.cat, c.uuid, ss);
    if d.1.Some? {
      forall q | q in g.shared ensures HasPlan(d.0.table, q) {
        PlansKept(g.pool.table, ss, c.uuid, NewBackendPlan(w.cat, c.uuid, d.1.value), q);
      }
      DeployedSnoc(g.deployed, g.deployed + [(c.uuid, d.1.value)], c.uuid);
    }
  }

  lemma FailedStep(p: Pool, init: seq<CModel>, c: CModel, g: Progress)
    requires SharingKnown(p, init, g) && !g.ok
    ensures SharingKnown(p, init + [c], g)
  {
    HasModelSnoc(init, c);
    FreshSnoc(p.table, init, c);
  }

  /** Where a model stands when its turn comes: as it did when the pipeline was begun. */
  lemma TurnComes(w: World, p: Pool, all: seq<CModel>, init: seq<CModel>, c: CModel, ss: seq<string>)
    requires Good(w, p) && PipelineSessions(w, all, ss) && init + [c] <= all
    requires SharingKnown(p, init, DeployModels(p, w.cat, init, ss))
    ensures var g := DeployModels(p, w.cat, init, ss);
            && Good(w, g.pool)
            && (Unplanned(g.pool.table, c.uuid) <==> Unplanned(p.table, c.uuid))
            && (Unplanned(g.pool.table, c.uuid) <==> PlansOf(g.pool.table, c.uuid) == [])
  {
    hide Good, Unplanned, PlansOf, TableProgress, WithinBudget, HasPlan, Fresh;
    var g := DeployModels(p, w.cat, init, ss);
    InitIsPrefix(all, init, c);
    DeployModelsOk(w, p, all, init, ss);
    UnplannedIsNoPlans(g.pool.table, c.uuid);
    NotTriedBefore(all, init, c);
    assert !Deployed(g.deployed, c.uuid);
    SameStanding(w, p, ss, all, g, c.uuid);
  }

  lemma InitIsPrefix(all: seq<CModel>, init: seq<CModel>, c: CModel)
    requires init + [c] <= all
    ensures init <= all
    ensures c in all
  {
    assert init == (init + [c])[..|init|] == all[..|init|];
    assert (init + [c])[|init|] == c == all[|init|];
  }

  lemma SharedNext(w: World, p: Pool, all: seq<CModel>, init: seq<CModel>, c: CModel, ss: seq<string>)
    requires Good(w, p) && PipelineSessions(w, all, ss) && init + [c] <= all
    requires SharingKnown(p, init, DeployModels(p, w.cat, init, ss))
    ensures SharingKnown(p, init + [c], DeployModels(p, w.cat, init + [c], ss))
  {
    hide Good, SharingKnown, Unplanned, PlansOf, Deploy, HasModel;
    var models, g := init + [c], DeployModels(p, w.cat, init, ss);
    assert models[..|models| - 1] == init && models[|models| - 1] == c;
    TurnComes(w, p, all, init, c, ss);
    ServedModel(w, all, init, c, ss);
    if !g.ok {
      FailedStep(p, init, c, g);
    } else if Unplanned(g.pool.table, c.uuid) {
      UnsharedStep(w, p, init, c, ss, g);
    } else {
      SharedStep(p, init, c, g);
    }
  }

  lemma ServedModel(w: World, all: seq<CModel>, init: seq<CModel>, c: CModel, ss: seq<string>)
    requires PipelineSessions(w, all, ss) && init + [c] <= all
    ensures forall s :: s in ss ==> HasModel(KeyModels(w, s), c.uuid)
  {
    InitIsPrefix(all, init, c);
    var k :| 0 <= k < |all| && all[k] == c;
  }

  /** Models are shared exactly if they were planned before the pipeline was tried. */
  lemma {:induction false} SharedExact(w: World, p: Pool, all: seq<CModel>, models: seq<CModel>, ss: seq<string>)
    requires Good(w, p) && PipelineSessions(w, all, ss) && models <= all
    ensures SharingKnown(p, models, DeployModels(p, w.cat, models, ss))
  {
    if models != [] {
      hide Good, SharingKnown, DeployModels, PipelineSessions;
      var init, c := models[..|models| - 1], models[|models| - 1];
      assert models == init + [c];
      InitIsPrefix(all, init, c);
      SharedExact(w, p, all, init, ss);
      SharedNext(w, p, all, init, c, ss);
    }
  }

  // ---- Which plans are shared ----------------------------------------------------------------------

  /** All plans of each model of a list, model after model. */
  function PlansOfAll(t: Table, models: seq<CModel>): seq<CModelPlan> {
    if models == [] then [] else PlansOfAll(t, models[..|models| - 1]) + PlansOf(t, models[|models| - 1].uuid)
  }

  lemma PlansInSnoc(plans: seq<CModelPlan>, p: CModelPlan, x: string)
    ensures PlansIn(plans + [p], x) == PlansIn(plans, x) + if p.model == x then [p] else []
  {
    assert (plans + [p])[..|plans|] == plans;
  }

  lemma {:induction false} PlansInUpdate(plans: seq<CModelPlan>, j: nat, p: CModelPlan, x: string)
    requires j < |plans| && plans[j].model != x && p.model != x
    ensures PlansIn(plans[j := p], x) == PlansIn(plans, x)
  {
    var init, last := plans[..|plans| - 1], |plans| - 1;
    if j == last {
      assert plans[j := p][..last] == init;
    } else {
      PlansInUpdate(init, j, p, x);
      assert plans[j := p][..last] == init[j := p];
    }
  }

  lemma AddToEntryOthers(e: SessionPlans, s: string, m: string, bp: BackendPlan, x: string)
    requires x != m
    ensures PlansIn(AddToEntry(e, s, m, bp).models, x) == PlansIn(e.models, x)
  {
    var j := FirstPlan(e.models, m);
    if j == |e.models| {
      PlansInSnoc(e.models, CModelPlan(m, s, [bp]), x);
    } else {
      PlansInUpdate(e.models, j, e.models[j].(backends := e.models[j].backends + [bp]), x);
    }
  }

  lemma {:induction false} PlansOfUpdate(t: Table, i: nat, e: SessionPlans, x: string)
    requires i < |t| && PlansIn(e.models, x) == PlansIn(t[i].models, x)
    ensures PlansOf(t[i := e], x) == PlansOf(t, x)
  {
    var init, last := t[..|t| - 1], |t| - 1;
    if i == last {
      assert t[i := e][..last] == init;
    } else {
      PlansOfUpdate(init, i, e, x);
      assert t[i := e][..last] == init[i := e];
    }
  }

  /** Adding placements of one model leaves the plans of all others alone. */
  lemma {:induction false} AddPlansOtherModels(t: Table, ss: seq<string>, m: string, bp: BackendPlan, x: string)
    requires x != m
    ensures PlansOf(AddPlans(t, ss, m, bp), x) == PlansOf(t, x)
  {
    if ss != [] {
      var init, s := ss[..|ss| - 1], ss[|ss| - 1];
      AddPlansOtherModels(t, init, m, bp, x);
      AddPlanOtherModels(AddPlans(t, init, m, bp), s, m, bp, x);
    }
  }

  lemma AddPlanOtherModels(t: Table, s: string, m: string, bp: BackendPlan, x: string)
    requires x != m
    ensures PlansOf(AddPlan(t, s, m, bp), x) == PlansOf(t, x)
  {
    var i := IndexOf(t, s);
    if i == |t| {
      var e := SessionPlans(s, [CModelPlan(m, s, [bp])]);
      assert (t + [e])[..|t|] == t;
      PlansInSnoc([], CModelPlan(m, s, [bp]), x);
      assert [] + [CModelPlan(m, s, [bp])] == e.models;
    } else {
      AddToEntryOthers(t[i], s, m, bp, x);
      PlansOfUpdate(t, i, AddToEntry(t[i], s, m, bp), x);
    }
  }

  /** Until its turn comes, a model keeps the plans it had when the pipeline was begun. */
  lemma {:induction false} PlansStay(p: Pool, cat: Catalog, models: seq<CModel>, ss: seq<string>, x: string)
    requires !HasModel(models, x)
    ensures PlansOf(DeployModels(p, cat, models, ss).pool.table, x) == PlansOf(p.table, x)
  {
    if models != [] {
      var init, c := models[..|models| - 1], models[|models| - 1];
      assert models == init + [c];
      HasModelSnoc(init, c);
      PlansStay(p, cat, init, ss, x);
      hide PlansOf, Choose;
      var g := DeployModels(p, cat, init, ss);
      var d := Deploy(g.pool, cat, c.uuid, ss);
      if d.1.Some? {
        AddPlansOtherModels(g.pool.table, ss, c.uuid, NewBackendPlan(cat, c.uuid, d.1.value), x);
      }
    }
  }

  /** What a successful attempt shares: exactly the plans that its models had before it, model after model. */
  lemma {:induction false} SharedPlansExact(p: Pool, cat: Catalog, models: seq<CModel>, ss: seq<string>)
    requires DistinctModelIds(models) && DeployModels(p, cat, models, ss).ok
    ensures DeployModels(p, cat, models, ss).shared == PlansOfAll(p.table, models)
  {
    if models != [] {
      var init, c := models[..|models| - 1], models[|models| - 1];
      assert models == init + [c];
      hide PlansOf, Deploy;
      SharedPlansExact(p, cat, init, ss);
      NotTriedBefore(models, init, c);
      PlansStay(p, cat, init, ss, c.uuid);
    }
  }

  lemma FreshSnoc(t: Table, init: seq<CModel>, c: CModel)
    ensures Fresh(t, init + [c]) <==> Fresh(t, init) && Unplanned(t, c.uuid)
  {
    var models := init + [c];
    assert models[|init|] == c;
    if Fresh(t, models) {
      forall k | 0 <= k < |init| ensures Unplanned(t, init[k].uuid) {
        assert models[k] == init[k];
      }
    }
  }

  lemma HasModelSnoc(init: seq<CModel>, c: CModel)
    ensures forall m :: HasModel(init + [c], m) <==> HasModel(init, m) || c.uuid == m
  {
    var models := init + [c];
    forall m ensures HasModel(models, m) <==> HasModel(init, m) || c.uuid == m {
      if k :| 0 <= k < |init| && init[k].uuid == m {
        assert models[k].uuid == m;
      }
      assert models[|init|] == c;
    }
  }

  lemma DeployedSnoc(pairs: seq<(string, string)>, longer: seq<(string, string)>, m: string)
    ensures longer == pairs || (|longer| == |pairs| + 1 && longer[..|pairs|] == pairs && longer[|pairs|].0 == m) ==>
              forall x :: Deployed(longer, x) ==> Deployed(pairs, x) || x == m
  {
  }

  lemma NotTriedBefore(all: seq<CModel>, init: seq<CModel>, c: CModel)
    requires DistinctModelIds(all) && init + [c] <= all
    ensures !HasModel(init, c.uuid)
  {
    var n := |init|;
    assert (init + [c])[n] == c && all[n] == c;
    forall k | 0 <= k < n ensures init[k].uuid != c.uuid {
      assert all[k] == init[k];
    }
  }

  lemma SameStanding(w: World, p: Pool, ss: seq<string>, all: seq<CModel>, g: Progress, m: string)
    requires Good(w, p) && ProgressOk(w, p, ss, all, g) && !Deployed(g.deployed, m)
    ensures Unplanned(g.pool.table, m) <==> Unplanned(p.table, m)
  {
    forall y ensures Runs(g.pool.table, m, y) <==> Runs(p.table, m, y) {
      PairIsDeployed(g.deployed, m, y);
    }
    if Unplanned(p.table, m) {
      StillUnplanned(g.pool.table, p.table, m);
    }
    if Unplanned(g.pool.table, m) {
      StillUnplanned(p.table, g.pool.table, m);
    }
  }

  // ---- Rolling back -----------------------------------------------------------------------------

  lemma {:induction false} RemoveWhole(t: Table, ss: seq<string>, m: string, b: string)
    requires Shape(t)
    requires forall i :: 0 <= i < |t| ==> if t[i].session in ss then EntryWithout(t[i], m, b).None? else !EntryRuns(t[i], m, b)
    ensures Remove(t, m, b) == DropAll(t, ss)
  {
    if t != [] {
      RemoveWhole(t[..|t| - 1], ss, m, b);
      EntryWithoutShape(t[|t| - 1], m, b);
    }
  }

  lemma {:induction false} RemoveNothing(t: Table, m: string, b: string)
    requires Shape(t) && !Runs(t, m, b)
    ensures Remove(t, m, b) == t && !Found(t, m, b)
  {
    FoundIsRuns(t, m, b);
    forall i | 0 <= i < |t| ensures !EntryRuns(t[i], m, b) {
    }
    RemoveWhole(t, [], m, b);
    DropAllNone(t);
  }

  /** The first removal of a rollback takes out the pipeline's sessions altogether. */
  lemma FirstUndo(w: World, p: Pool, models: seq<CModel>, ss: seq<string>, g: Progress)
    requires Good(w, p) && PipelineSessions(w, models, ss) && ProgressOk(w, p, ss, models, g) && g.deployed != []
    ensures Remove(g.pool.table, g.deployed[0].0, g.deployed[0].1) == DropAll(p.table, ss)
    ensures Runs(g.pool.table, g.deployed[0].0, g.deployed[0].1)
  {
    var t, m, b := g.pool.table, g.deployed[0].0, g.deployed[0].1;
    assert (m, b) in g.deployed;
    assert DeployedFor(p.table, t, ss, models, g.deployed[0]);
    OneHost(w, p, models, ss, g);
    forall i | 0 <= i < |t|
      ensures if t[i].session in ss then EntryWithout(t[i], m, b).None? else !EntryRuns(t[i], m, b)
    {
      EntryWithoutShape(t[i], m, b);
      if t[i].session in ss {
        assert Plans(t[i], m);
        var k :| 0 <= k < |t[i].models| && t[i].models[k].model == m;
        assert Names(t[i].models[k].backends) == Hosts(t, t[i].models[k].model);
      } else {
        assert !Plans(t[i], m);
      }
    }
    RemoveWhole(t, ss, m, b);
  }

  lemma FirstPair(pairs: seq<(string, string)>, y: string)
    requires pairs != [] && forall j, k :: 0 <= j < k < |pairs| ==> pairs[j].0 != pairs[k].0
    ensures (pairs[0].0, y) in pairs <==> y == pairs[0].1
  {
    assert (pairs[0].0, pairs[0].1) == pairs[0];
  }

  lemma FirstWasNew(w: World, p: Pool, ss: seq<string>, models: seq<CModel>, g: Progress)
    requires ProgressOk(w, p, ss, models, g) && g.deployed != []
    ensures Unplanned(p.table, g.deployed[0].0)
  {
    hide Good, WithinBudget, OthersSame, Runs, Unplanned;
    assert DeployedFor(p.table, g.pool.table, ss, models, g.deployed[0]);
  }

  lemma OneHost(w: World, p: Pool, models: seq<CModel>, ss: seq<string>, g: Progress)
    requires Good(w, p) && ProgressOk(w, p, ss, models, g) && g.deployed != []
    ensures Hosts(g.pool.table, g.deployed[0].0) == {g.deployed[0].1}
  {
    hide Good, WithinBudget, OthersSame, DeployedFor, Runs, Unplanned, Hosts;
    var m, b := g.deployed[0].0, g.deployed[0].1;
    FirstWasNew(w, p, ss, models, g);
    UnplannedHosts(p.table, m);
    forall y ensures y in Hosts(g.pool.table, m) <==> y == b {
      FirstPair(g.deployed, y);
      assert y !in Hosts(p.table, m);
    }
  }

  lemma {:induction false} UndoAll(w: World, p: Pool, models: seq<CModel>, ss: seq<string>, g: Progress, pairs: seq<(string, string)>)
    requires Good(w, p) && PipelineSessions(w, models, ss) && ProgressOk(w, p, ss, models, g)
    requires pairs != [] && pairs <= g.deployed
    ensures UndeployAll(g.pool, w.cat, pairs) ==
            Pool(DropAll(p.table, ss), Adjust(g.pool.backends, pairs[0].1, Charge(w.cat, pairs[0].0)))
  {
    var init, last := pairs[..|pairs| - 1], pairs[|pairs| - 1];
    if init == [] {
      FirstUndo(w, p, models, ss, g);
      FoundIsRuns(g.pool.table, last.0, last.1);
      assert UndeployAll(g.pool, w.cat, init) == g.pool;
    } else {
      UndoAll(w, p, models, ss, g, init);
      assert DeployedFor(p.table, g.pool.table, ss, models, g.deployed[|pairs| - 1]);
      var t := DropAll(p.table, ss);
      DropAllShape(p.table, ss);
      UnplannedHosts(p.table, last.0);
      assert last.1 !in Hosts(p.table, last.0);
      RemoveNothing(t, last.0, last.1);
    }
  }

  lemma {:induction false} DropAllShape(t: Table, ss: seq<string>)
    requires Shape(t)
    ensures Shape(DropAll(t, ss))
    ensures forall m, b :: Runs(DropAll(t, ss), m, b) ==> Runs(t, m, b)
  {
    if ss == [] {
      DropAllNone(t);
    } else {
      var init, s := ss[..|ss| - 1], ss[|ss| - 1];
      DropAllShape(t, init);
      DropAllSnoc(t, init, s);
      assert init + [s] == ss;
      DropSessionShape(DropAll(t, init), s);
    }
  }

  /** Memory a list of deployments takes from one backend. */
  function Taken(cat: Catalog, pairs: seq<(string, string)>, name: string): (sum: real)
    ensures sum >= 0.0
  {
    if pairs == [] then 0.0
    else
      var last := pairs[|pairs| - 1];
      Taken(cat, pairs[..|pairs| - 1], name) + if last.1 == name then Charge(cat, last.0) else 0.0
  }

  lemma TakenStep(cat: Catalog, p: Pool, g: Pool, pairs: seq<(string, string)>, m: string, ss: seq<string>, i: nat)
    requires i < |p.backends| && p.backends[i].gpu.Some? && DistinctBackends(g.backends)
    requires SameBackends(g.backends, p.backends)
    requires FreeMem(g.backends[i]) == FreeMem(p.backends[i]) - Taken(cat, pairs, p.backends[i].name)
    requires Deploy(g, cat, m, ss).1.Some?
    ensures var d := Deploy(g, cat, m, ss);
            && SameBackends(d.0.backends, p.backends)
            && FreeMem(d.0.backends[i]) == FreeMem(p.backends[i]) - Taken(cat, pairs + [(m, d.1.value)], p.backends[i].name)
  {
    var b := Deploy(g, cat, m, ss).1.value;
    AdjustMem(g.backends, b, -Charge(cat, m), i);
    assert (pairs + [(m, b)])[..|pairs|] == pairs;
  }

  lemma {:induction false} TakenByModels(p: Pool, cat: Catalog, models: seq<CModel>, ss: seq<string>, i: nat)
    requires DistinctBackends(p.backends)
    requires i < |p.backends| && p.backends[i].gpu.Some?
    ensures var g := DeployModels(p, cat, models, ss);
            && SameBackends(g.pool.backends, p.backends)
            && FreeMem(g.pool.backends[i]) == FreeMem(p.backends[i]) - Taken(cat, g.deployed, p.backends[i].name)
  {
    if models != [] {
      var init, c := models[..|models| - 1], models[|models| - 1];
      TakenByModels(p, cat, init, ss, i);
      hide Deploy, PlansOf;
      var g0 := DeployModels(p, cat, init, ss);
      if Deploy(g0.pool, cat, c.uuid, ss).1.Some? {
        TakenStep(cat, p, g0.pool, g0.deployed, c.uuid, ss, i);
      }
    }
  }

  lemma {:induction false} TakenFirst(cat: Catalog, pairs: seq<(string, string)>, name: string)
    requires pairs != []
    ensures Taken(cat, pairs, name) == Taken(cat, pairs[1..], name) + if pairs[0].1 == name then Charge(cat, pairs[0].0) else 0.0
  {
    var init := pairs[..|pairs| - 1];
    if init == [] {
      assert Taken(cat, init, name) == 0.0;
    } else {
      TakenFirst(cat, init, name);
      assert pairs[1..][..|pairs[1..]| - 1] == init[1..];
    }
  }

  /** What a failed pipeline leaves behind. The table loses the pipeline's own sessions and
    * nothing else; every backend gets back what the first deployed model took from it, and
    * nothing of what the later ones took. */
  lemma RollbackExact(w: World, p: Pool, models: seq<CModel>, ss: seq<string>)
    requires Good(w, p) && PipelineSessions(w, models, ss)
    requires !DeployModels(p, w.cat, models, ss).ok
    ensures var pairs, r := DeployModels(p, w.cat, models, ss).deployed, DeployPipeline(p, w.cat, models, ss);
            && r.table == (if pairs == [] then p.table else DropAll(p.table, ss))
            && SameBackends(r.backends, p.backends)
            && forall i :: 0 <= i < |p.backends| && p.backends[i].gpu.Some? ==>
                 FreeMem(r.backends[i]) ==
                 FreeMem(p.backends[i]) - if pairs == [] then 0.0 else Taken(w.cat, pairs[1..], p.backends[i].name)
  {
    var g := DeployModels(p, w.cat, models, ss);
    DeployModelsOk(w, p, models, models, ss);
    SharedExact(w, p, models, models, ss);
    if g.deployed != [] {
      UndoAll(w, p, models, ss, g, g.deployed);
      GivenBack(p, w.cat, models, ss);
    }
  }

  lemma GivenBack(p: Pool, cat: Catalog, models: seq<CModel>, ss: seq<string>)
    requires DistinctBackends(p.backends) && DeployModels(p, cat, models, ss).deployed != []
    ensures var g := DeployModels(p, cat, models, ss);
            var bs := Adjust(g.pool.backends, g.deployed[0].1, Charge(cat, g.deployed[0].0));
            forall i :: 0 <= i < |p.backends| && p.backends[i].gpu.Some? ==>
              SameBackends(bs, p.backends) && FreeMem(bs[i]) == FreeMem(p.backends[i]) - Taken(cat, g.deployed[1..], p.backends[i].name)
  {
    var g := DeployModels(p, cat, models, ss);
    forall i | 0 <= i < |p.backends| && p.backends[i].gpu.Some?
      ensures var bs := Adjust(g.pool.backends, g.deployed[0].1, Charge(cat, g.deployed[0].0));
              SameBackends(bs, p.backends) && FreeMem(bs[i]) == FreeMem(p.backends[i]) - Taken(cat, g.deployed[1..], p.backends[i].name)
    {
      TakenByModels(p, cat, models, ss, i);
      TakenFirst(cat, g.deployed, p.backends[i].name);
      AdjustMem(g.pool.backends, g.deployed[0].1, Charge(cat, g.deployed[0].0), i);
    }
  }

  lemma {:induction false} TakenNothingIff(cat: Catalog, pairs: seq<(string, string)>, name: string)
    ensures Taken(cat, pairs, name) == 0.0 <==> forall k :: 0 <= k < |pairs| && pairs[k].1 == name ==> Charge(cat, pairs[k].0) == 0.0
  {
    if pairs != [] {
      var init := pairs[..|pairs| - 1];
      TakenNothingIff(cat, init, name);
      assert forall k :: 0 <= k < |init| ==> init[k] == pairs[k];
    }
  }

  /** A model that costs memory was put on a backend with a GPU. */
  lemma CostlyIsOnGpu(w: World, p: Pool, models: seq<CModel>, ss: seq<string>, g: Progress, k: nat)
    requires ProgressOk(w, p, ss, models, g) && k < |g.deployed| && Charge(w.cat, g.deployed[k].0) > 0.0
    ensures exists i :: 0 <= i < |p.backends| && p.backends[i].name == g.deployed[k].1 && p.backends[i].gpu.Some?
  {
    hide OthersSame, SameHosts, CpuCap, NoDebt;
    var m, b := g.deployed[k].0, g.deployed[k].1;
    assert (m, b) in g.deployed;
    assert Runs(g.pool.table, m, b);
    var t, live := g.pool.table, BackendNames(g.pool.backends);
    var i :| 0 <= i < |t| && EntryRuns(t[i], m, b);
    var j :| 0 <= j < |t[i].models| && t[i].models[j].model == m && b in Names(t[i].models[j].backends);
    assert PlanFits(w, live, t[i].models[j]) && RightKind(w, m, b);
    var n :| 0 <= n < |g.pool.backends| && g.pool.backends[n].name == b;
    assert p.backends[n].name == b && p.backends[n].gpu.Some?;
  }

  lemma LeaksFrom(w: World, p: Pool, models: seq<CModel>, ss: seq<string>, g: Progress, k: nat)
    requires ProgressOk(w, p, ss, models, g) && 0 < k < |g.deployed| && Charge(w.cat, g.deployed[k].0) > 0.0
    ensures exists i :: 0 <= i < |p.backends| && p.backends[i].gpu.Some? && Taken(w.cat, g.deployed[1..], p.backends[i].name) != 0.0
  {
    hide ProgressOk;
    CostlyIsOnGpu(w, p, models, ss, g, k);
    var i :| 0 <= i < |p.backends| && p.backends[i].name == g.deployed[k].1 && p.backends[i].gpu.Some?;
    TakenNothingIff(w.cat, g.deployed[1..], p.backends[i].name);
    assert g.deployed[1..][k - 1] == g.deployed[k];
  }

  /** A failed attempt gives back all the memory it took exactly if none of the models it deployed
    * after the first costs any. */
  lemma RestoredIffLaterFree(w: World, p: Pool, models: seq<CModel>, ss: seq<string>)
    requires Good(w, p) && PipelineSessions(w, models, ss)
    requires !DeployModels(p, w.cat, models, ss).ok
    ensures var pairs, r := DeployModels(p, w.cat, models, ss).deployed, DeployPipeline(p, w.cat, models, ss);
            && SameBackends(r.backends, p.backends)
            && ((forall i :: 0 <= i < |p.backends| && p.backends[i].gpu.Some? ==> FreeMem(r.backends[i]) == FreeMem(p.backends[i]))
                <==> forall k :: 0 < k < |pairs| ==> Charge(w.cat, pairs[k].0) == 0.0)
  {
    hide Good, PipelineSessions, DropAll, DeployPipeline, WithinBudget, TableProgress;
    var g, r := DeployModels(p, w.cat, models, ss), DeployPipeline(p, w.cat, models, ss);
    RollbackExact(w, p, models, ss);
    DeployModelsOk(w, p, models, models, ss);
    if forall k :: 0 < k < |g.deployed| ==> Charge(w.cat, g.deployed[k].0) == 0.0 {
      forall i | 0 <= i < |p.backends| && p.backends[i].gpu.Some? ensures FreeMem(r.backends[i]) == FreeMem(p.backends[i]) {
        if g.deployed != [] {
          TakenNothingIff(w.cat, g.deployed[1..], p.backends[i].name);
        }
      }
    } else {
      var k :| 0 < k < |g.deployed| && Charge(w.cat, g.deployed[k].0) != 0.0;
      LeaksFrom(w, p, models, ss, g, k);
    }
  }

  /** When none of the pipeline's models was planned before, a failed attempt leaves all plans
    * as they were. */
  lemma RollbackOfFresh(w: World, p: Pool, models: seq<CModel>, ss: seq<string>)
    requires Good(w, p) && PipelineSessions(w, models, ss) && Fresh(p.table, models)
    requires !DeployModels(p, w.cat, models, ss).ok
    ensures DeployPipeline(p, w.cat, models, ss).table == p.table
  {
    RollbackExact(w, p, models, ss);
    forall i | 0 <= i < |p.table| ensures p.table[i].session !in ss {
      EntryIsNotFresh(w, p.table, p.table[i], BackendNames(p.backends));
    }
    DropAllEntries(p.table, ss);
  }

  lemma EntryIsNotFresh(w: World, t: Table, e: SessionPlans, live: set<string>)
    requires e in t && EntryShape(e) && EntryFits(w, live, e)
    ensures !Fresh(t, KeyModels(w, e.session))
  {
    var models, m := KeyModels(w, e.session), e.models[0].model;
    assert HasModel(models, m);
    var k :| 0 <= k < |models| && models[k].uuid == m;
    assert Plans(e, m);
    var i :| 0 <= i < |t| && t[i] == e;
    assert !Unplanned(t, models[k].uuid);
  }
}
