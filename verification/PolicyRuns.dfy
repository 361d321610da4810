/** Whole calls of the policy, and runs of any number of calls. */
module PolicyRuns {
  import opened PolicyModel
  import opened PolicyCosts
  import opened Sums
  import opened PolicyTables
  import opened PolicyGrowth
  import opened PolicyInvariants
  import opened PolicyBudget
  import opened PolicyPruning
  import opened PolicyDeployment
  import opened PolicyAllOrNothing
  import opened PolicyAssignment
  import opened PolicyScaling

  /** What a call may start from: plans that were in order for the backends of the last call,
    * of which `gone` have left, and a well-formed list of backends and requests. */
  ghost predicate CallOk(w: World, p: Pool, live: set<string>, gone: set<string>, reqs: seq<Request>) {
    && WorldOk(w)
    && Inv(w, live, p.table)
    && live - gone <= BackendNames(p.backends)
    && BackendsOk(w, p.backends)
    && NoDebt(p.backends)
    && RequestsOk(w, reqs)
  }

  /** No pipeline deployed in the call shares a model with plans already there. */
  ghost predicate Unshared(w: World, p: Pool, gone: set<string>, reqs: seq<Request>) {
    var q := Prune(p, w.cat, gone, reqs);
    AllClean(q, w.cat, w.pipes, reqs, ToAdd(q.table, reqs))
  }

  /** The pool of a call just before scaling. */
  function BeforeScaling(w: World, p: Pool, gone: set<string>, reqs: seq<Request>): Pool {
    var q := Prune(p, w.cat, gone, reqs);
    var d := DeployPipelines(q, w.cat, w.pipes, reqs, ToAdd(q.table, reqs));
    d.(table := Assign(d.table, reqs))
  }

  lemma ScheduleIsScale(w: World, p: Pool, gone: set<string>, reqs: seq<Request>)
    ensures Schedule(p, w.cat, w.pipes, gone, reqs) == Scale(BeforeScaling(w, p, gone, reqs), w.cat, reqs)
  {
    hide Scale, Assign, DeployPipelines, Prune;
  }

  lemma BeforeScalingGood(w: World, p: Pool, live: set<string>, gone: set<string>, reqs: seq<Request>)
    requires CallOk(w, p, live, gone, reqs) && Unshared(w, p, gone, reqs)
    ensures var a := BeforeScaling(w, p, gone, reqs);
            Good(w, a) && WithinBudget(w.cat, a, p) && AllRequested(a.table, reqs)
  {
    hide WithinBudget;
    var q := Prune(p, w.cat, gone, reqs);
    var todo := ToAdd(q.table, reqs);
    var d := DeployPipelines(q, w.cat, w.pipes, reqs, todo);
    PruneExact(w, p, live, gone, reqs);
    ToAddAreRequested(q.table, reqs);
    DeployPipelinesGood(w, q, reqs, todo);
    AssignInv(w, BackendNames(d.backends), d.table, reqs, reqs);
    FewerRunsWithin(w.cat, BeforeScaling(w, p, gone, reqs), d);
    WithinTransitive(w.cat, d, q, p);
    WithinTransitive(w.cat, BeforeScaling(w, p, gone, reqs), d, p);
  }

  lemma SkeletonRequested(r: Table, t: Table, reqs: seq<Request>)
    requires SameSkeleton(r, t) && AllRequested(t, reqs)
    ensures AllRequested(r, reqs)
  {
    hide Requested;
    forall i | 0 <= i < |r| ensures Requested(reqs, r[i].session) {
      assert SameModels(r[i], t[i]);
    }
  }

  /** One call. Afterwards the plans are in order for the current backends and belong to
    * requested sessions; no backend is in debt; and free memory plus the needs of the models
    * hosted is, on every backend, at most what it was when the call began. */
  lemma ScheduleKeeps(w: World, p: Pool, live: set<string>, gone: set<string>, reqs: seq<Request>)
    requires CallOk(w, p, live, gone, reqs) && Unshared(w, p, gone, reqs)
    ensures var r := Schedule(p, w.cat, w.pipes, gone, reqs);
            Good(w, r) && WithinBudget(w.cat, r, p) && AllRequested(r.table, reqs)
  {
    hide Good, WithinBudget, Inv, BackendsOk, Unshared, BeforeScaling, Scale;
    var a := BeforeScaling(w, p, gone, reqs);
    ScheduleIsScale(w, p, gone, reqs);
    BeforeScalingGood(w, p, live, gone, reqs);
    ScaleReaches(w, a, reqs);
    SkeletonRequested(Scale(a, w.cat, reqs).table, a.table, reqs);
    WithinTransitive(w.cat, Scale(a, w.cat, reqs), a, p);
  }

  // ---- Scaling, as seen from the whole call --------------------------------------------

  lemma {:induction false} WantedIsAsked(reqs: seq<Request>, m: string)
    requires m in Wanted(reqs)
    ensures exists i :: 0 <= i < |reqs| && HasModel(reqs[i].pipeline.models, m)
  {
    var init, q := reqs[..|reqs| - 1], reqs[|reqs| - 1];
    MentionExact(Wanted(init), q.pipeline.models, m);
    if m in Wanted(init) {
      WantedIsAsked(init, m);
      var i :| 0 <= i < |init| && HasModel(init[i].pipeline.models, m);
      assert HasModel(reqs[i].pipeline.models, m);
    } else {
      assert HasModel(reqs[|reqs| - 1].pipeline.models, m);
    }
  }

  lemma WantedKnown(w: World, reqs: seq<Request>, k: nat)
    requires WorldOk(w) && RequestsOk(w, reqs) && k < |Wanted(reqs)|
    ensures Wanted(reqs)[k] in w.cat
  {
    var m := Wanted(reqs)[k];
    WantedIsAsked(reqs, m);
    var i :| 0 <= i < |reqs| && HasModel(reqs[i].pipeline.models, m);
    var j :| 0 <= j < |reqs[i].pipeline.models| && reqs[i].pipeline.models[j].uuid == m;
    assert Registered(w, w.pipes[reqs[i].pipeline.uuid].models[j]);
  }

  /** Every model somebody asks for is unplaced, or ends on exactly the least number of backends
    * that meets the demand, or on fewer, and then no backend was usable for it when its turn to
    * be scaled ended. */
  lemma ScheduleScales(w: World, p: Pool, live: set<string>, gone: set<string>, reqs: seq<Request>, k: nat)
    requires CallOk(w, p, live, gone, reqs) && Unshared(w, p, gone, reqs) && k < |Wanted(reqs)|
    ensures var r, a, m := Schedule(p, w.cat, w.pipes, gone, reqs), BeforeScaling(w, p, gone, reqs), Wanted(reqs)[k];
            Unplanned(r.table, m) ||
            (Settled(w, a, reqs, Wanted(reqs), k)
             && LeastBackends(Target(w.cat, reqs, m), Total(Asked(reqs, m)), Fps(w.cat, m))
             && m in w.cat && SlowestRate(w.cat[m].components, Fps(w.cat, m)))
  {
    hide Good, WithinBudget, Inv, BackendsOk, Unshared, BeforeScaling, Scale, Unplanned, LeastBackends, Settled, SlowestRate;
    WantedKnown(w, reqs, k);
    var a, m := BeforeScaling(w, p, gone, reqs), Wanted(reqs)[k];
    ScheduleIsScale(w, p, gone, reqs);
    BeforeScalingGood(w, p, live, gone, reqs);
    ScaleReaches(w, a, reqs);
    SkeletonSessions(Scale(a, w.cat, reqs).table, a.table, m);
    TargetIsLeast(w.cat, reqs, m);
  }

  // ---- All or nothing, as seen from the whole call -----------------------------------------

  predicate WholeOrKept(w: World, t: Table, before: Table) {
    forall i :: 0 <= i < |t| ==> HasSession(before, t[i].session) || PlansEvery(t[i], KeyModels(w, t[i].session))
  }

  /** One pipeline's turn: its sessions end whole, or every entry is one that was there before. */
  lemma DeployPipelineWhole(w: World, q: Pool, models: seq<CModel>, ss: seq<string>, before: Table)
    requires Good(w, q) && PipelineSessions(w, models, ss) && Clean(q, w.cat, models, ss)
    requires WholeOrKept(w, q.table, before)
    ensures WholeOrKept(w, DeployPipeline(q, w.cat, models, ss).table, before)
  {
    hide Good, Clean, PlansEvery, WithinBudget;
    var g, r := DeployModels(q, w.cat, models, ss), DeployPipeline(q, w.cat, models, ss);
    if g.ok {
      AllOrNothing(w, q, models, ss);
      DeployedDistinct(w, q, models, ss);
      forall i | 0 <= i < |r.table|
        ensures HasSession(before, r.table[i].session) || PlansEvery(r.table[i], KeyModels(w, r.table[i].session))
      {
        if r.table[i].session in ss {
          assert PlacedWhole(r.table, r.table[i].session, models);
        } else {
          OtherWasThere(r.table, q.table, ss, i);
        }
      }
    } else {
      FailureOnlyDrops(w, q, models, ss);
      forall i | 0 <= i < |r.table|
        ensures HasSession(before, r.table[i].session) || PlansEvery(r.table[i], KeyModels(w, r.table[i].session))
      {
        assert r.table[i] in r.table;
      }
    }
  }

  lemma DeployedDistinct(w: World, q: Pool, models: seq<CModel>, ss: seq<string>)
    requires Good(w, q) && PipelineSessions(w, models, ss) && Clean(q, w.cat, models, ss)
    ensures DistinctSessions(DeployPipeline(q, w.cat, models, ss).table)
  {
    DeployPipelineGood(w, q, models, ss);
  }

  lemma OtherWasThere(r: Table, t: Table, ss: seq<string>, i: nat)
    requires OthersSame(r, t, ss) && i < |r| && r[i].session !in ss
    ensures r[i] in t
  {
    DropAllEntries(r, ss);
    DropAllEntries(t, ss);
    assert r[i] in DropAll(r, ss);
  }

  lemma FailureOnlyDrops(w: World, q: Pool, models: seq<CModel>, ss: seq<string>)
    requires Good(w, q) && PipelineSessions(w, models, ss) && !DeployModels(q, w.cat, models, ss).ok
    ensures forall e :: e in DeployPipeline(q, w.cat, models, ss).table ==> e in q.table
  {
    RollbackExact(w, q, models, ss);
    DropAllEntries(q.table, ss);
  }

  lemma {:induction false} DeployPipelinesWhole(w: World, p: Pool, reqs: seq<Request>, todo: seq<string>)
    requires WorldOk(w) && Good(w, p) && RequestsOk(w, reqs) && AllRequested(p.table, reqs)
    requires forall u :: u in todo ==> InUse(reqs, u)
    requires AllClean(p, w.cat, w.pipes, reqs, todo)
    ensures WholeOrKept(w, DeployPipelines(p, w.cat, w.pipes, reqs, todo).table, p.table)
  {
    hide Good, RequestsOk, WorldOk, InUse, Clean, DeployPipeline, PlansEvery;
    if todo == [] {
      forall i | 0 <= i < |p.table| ensures HasSession(p.table, p.table[i].session) {
      }
    } else {
      var init, u := todo[..|todo| - 1], todo[|todo| - 1];
      DeployPipelinesWhole(w, p, reqs, init);
      DeployPipelinesGood(w, p, reqs, init);
      SessionsFit(w, reqs, u);
      DeployPipelineWhole(w, DeployPipelines(p, w.cat, w.pipes, reqs, init), ModelsOf(w.pipes, u), SessionsOf(reqs, u), p.table);
    }
  }

  lemma SkeletonWhole(w: World, r: Table, t: Table, before: Table)
    requires SameSkeleton(r, t) && WholeOrKept(w, t, before)
    ensures WholeOrKept(w, r, before)
  {
    forall i | 0 <= i < |r|
      ensures HasSession(before, r[i].session) || PlansEvery(r[i], KeyModels(w, r[i].session))
    {
      assert SameModels(r[i], t[i]);
      if PlansEvery(t[i], KeyModels(w, t[i].session)) {
        SameModelsEvery(r[i], t[i], KeyModels(w, t[i].session));
      }
    }
  }

  lemma SameModelsEvery(r: SessionPlans, t: SessionPlans, models: seq<CModel>)
    requires SameModels(r, t) && PlansEvery(t, models)
    ensures PlansEvery(r, models)
  {
    forall k | 0 <= k < |models| ensures Plans(r, models[k].uuid) {
      SameModelsPlans(r, t, models[k].uuid);
    }
  }

  lemma AssignedWhole(w: World, r: Table, t: Table, before: Table)
    requires t <= r && WholeOrKept(w, t, before)
    requires forall i :: |t| <= i < |r| ==> PlansEvery(r[i], KeyModels(w, r[i].session))
    ensures WholeOrKept(w, r, before)
  {
    hide PlansEvery, HasSession;
    assert forall i :: 0 <= i < |t| ==> r[i] == t[i];
  }

  lemma BeforeScalingWhole(w: World, p: Pool, live: set<string>, gone: set<string>, reqs: seq<Request>)
    requires CallOk(w, p, live, gone, reqs) && Unshared(w, p, gone, reqs)
    ensures WholeOrKept(w, BeforeScaling(w, p, gone, reqs).table, Prune(p, w.cat, gone, reqs).table)
  {
    hide WholeOrKept, WithinBudget, Prune, PlansEvery;
    var q := Prune(p, w.cat, gone, reqs);
    var todo := ToAdd(q.table, reqs);
    PruneExact(w, p, live, gone, reqs);
    ToAddAreRequested(q.table, reqs);
    DeployPipelinesGood(w, q, reqs, todo);
    DeployPipelinesWhole(w, q, reqs, todo);
    var d := DeployPipelines(q, w.cat, w.pipes, reqs, todo);
    AssignInv(w, BackendNames(d.backends), d.table, reqs, reqs);
    AssignedWhole(w, Assign(d.table, reqs), d.table, q.table);
  }

  /** A session that has plans after a call either had some left when the call pruned its table,
    * or has plans, each with a backend, for every model of its pipeline. */
  lemma ScheduleAllOrNothing(w: World, p: Pool, live: set<string>, gone: set<string>, reqs: seq<Request>)
    requires CallOk(w, p, live, gone, reqs) && Unshared(w, p, gone, reqs)
    ensures WholeOrKept(w, Schedule(p, w.cat, w.pipes, gone, reqs).table, Prune(p, w.cat, gone, reqs).table)
  {
    hide Good, WithinBudget, Inv, BackendsOk, Unshared, BeforeScaling, Scale, WholeOrKept, SameSkeleton, Prune;
    var a := BeforeScaling(w, p, gone, reqs);
    ScheduleIsScale(w, p, gone, reqs);
    BeforeScalingGood(w, p, live, gone, reqs);
    BeforeScalingWhole(w, p, live, gone, reqs);
    ScaleReaches(w, a, reqs);
    SkeletonWhole(w, Scale(a, w.cat, reqs).table, a.table, Prune(p, w.cat, gone, reqs).table);
  }

  // ---- When nothing is shared --------------------------------------------------------------

  predicate DisjointModels(a: seq<CModel>, b: seq<CModel>) {
    forall i, j :: 0 <= i < |a| && 0 <= j < |b| ==> a[i].uuid != b[j].uuid
  }

  /** No model of the pipelines to deploy is planned anywhere, and no two of them share a model. */
  predicate Separate(w: World, t: Table, todo: seq<string>) {
    && (forall i :: 0 <= i < |todo| ==> Fresh(t, ModelsOf(w.pipes, todo[i])))
    && forall i, j :: 0 <= i < j < |todo| ==> DisjointModels(ModelsOf(w.pipes, todo[i]), ModelsOf(w.pipes, todo[j]))
  }

  lemma NotDeployedHere(w: World, q: Pool, models: seq<CModel>, ss: seq<string>, g: Progress, other: seq<CModel>, k: nat)
    requires ProgressOk(w, q, ss, models, g) && DisjointModels(models, other) && k < |other|
    ensures forall y :: Runs(g.pool.table, other[k].uuid, y) ==> Runs(q.table, other[k].uuid, y)
  {
    hide Good, WithinBudget, OthersSame, Runs;
    forall n | 0 <= n < |g.deployed| ensures g.deployed[n].0 != other[k].uuid {
      assert DeployedFor(q.table, g.pool.table, ss, models, g.deployed[n]);
    }
  }

  /** Deploying a fresh pipeline plans no model of another one. */
  lemma FreshStays(w: World, q: Pool, models: seq<CModel>, ss: seq<string>, other: seq<CModel>)
    requires Good(w, q) && PipelineSessions(w, models, ss) && Fresh(q.table, models)
    requires DisjointModels(models, other) && Fresh(q.table, other)
    ensures Clean(q, w.cat, models, ss)
    ensures Fresh(DeployPipeline(q, w.cat, models, ss).table, other)
  {
    hide Runs, WithinBudget, DisjointModels, Unplanned;
    var g := DeployModels(q, w.cat, models, ss);
    SharedExact(w, q, models, models, ss);
    if g.ok {
      DeployModelsOk(w, q, models, models, ss);
      ShareNothing(g.pool.table, ss);
      forall k | 0 <= k < |other| ensures Unplanned(g.pool.table, other[k].uuid) {
        NotDeployedHere(w, q, models, ss, g, other, k);
        StillUnplanned(g.pool.table, q.table, other[k].uuid);
      }
    } else {
      RollbackOfFresh(w, q, models, ss);
    }
  }

  lemma {:induction false} SeparateStays(w: World, p: Pool, reqs: seq<Request>, todo: seq<string>, other: seq<CModel>)
    requires WorldOk(w) && Good(w, p) && RequestsOk(w, reqs) && AllRequested(p.table, reqs)
    requires forall u :: u in todo ==> InUse(reqs, u)
    requires Separate(w, p.table, todo) && Fresh(p.table, other)
    requires forall i :: 0 <= i < |todo| ==> DisjointModels(ModelsOf(w.pipes, todo[i]), other)
    ensures AllClean(p, w.cat, w.pipes, reqs, todo)
    ensures Fresh(DeployPipelines(p, w.cat, w.pipes, reqs, todo).table, other)
  {
    hide WorldOk, Good, RequestsOk, AllRequested, InUse, Fresh, DisjointModels, Clean, DeployPipeline, SessionsOf, ModelsOf;
    if todo != [] {
      var init, u := todo[..|todo| - 1], todo[|todo| - 1];
      SeparateStays(w, p, reqs, init, ModelsOf(w.pipes, u));
      SeparateStays(w, p, reqs, init, other);
      DeployPipelinesGood(w, p, reqs, init);
      SessionsFit(w, reqs, u);
      FreshStays(w, DeployPipelines(p, w.cat, w.pipes, reqs, init), ModelsOf(w.pipes, u), SessionsOf(reqs, u), other);
    }
  }

  /** A condition to check before a call: then no plan is shared in it. */
  lemma SeparateIsUnshared(w: World, p: Pool, live: set<string>, gone: set<string>, reqs: seq<Request>)
    requires CallOk(w, p, live, gone, reqs)
    requires var q := Prune(p, w.cat, gone, reqs); Separate(w, q.table, ToAdd(q.table, reqs))
    ensures Unshared(w, p, gone, reqs)
  {
    hide Inv, BackendsOk, RequestsOk, WorldOk, AllRequested, Separate, WithinBudget, Good, Prune, ToAdd;
    var q := Prune(p, w.cat, gone, reqs);
    PruneExact(w, p, live, gone, reqs);
    ToAddAreRequested(q.table, reqs);
    SeparateStays(w, q, reqs, ToAdd(q.table, reqs), []);
  }

  // ---- Any number of calls -----------------------------------------------------------------

  datatype Call = Call(backends: seq<Backend>, reqs: seq<Request>)

  /** The backends known before the last of some calls. */
  function LastNames(calls: seq<Call>): set<string> {
    if calls == [] then {} else BackendNames(calls[|calls| - 1].backends)
  }

  /** The table after a sequence of calls that starts with no plans at all. */
  function After(w: World, calls: seq<Call>): Table {
    if calls == [] then []
    else
      var init, c := calls[..|calls| - 1], calls[|calls| - 1];
      Schedule(Pool(After(w, init), c.backends), w.cat, w.pipes, LastNames(init) - BackendNames(c.backends), c.reqs).table
  }

  predicate CallFits(w: World, c: Call) {
    BackendsOk(w, c.backends) && NoDebt(c.backends) && RequestsOk(w, c.reqs)
  }

  ghost predicate RunFits(w: World, calls: seq<Call>) {
    calls == [] ||
    var init, c := calls[..|calls| - 1], calls[|calls| - 1];
    && RunFits(w, init)
    && CallFits(w, c)
    && Unshared(w, Pool(After(w, init), c.backends), LastNames(init) - BackendNames(c.backends), c.reqs)
  }

  lemma NoPlansInv(w: World)
    ensures Inv(w, {}, [])
  {
    forall b ensures |ModelsOn([], b)| == 0 {
      assert ModelsOn([], b) == {};
    }
  }

  /** Over every run the plans stay in order: they name only backends of the last call, of the
    * right kind, and only registered models of requested sessions; no entry and no plan is
    * empty; all sessions that use a model use it on the same backends; no backend without a GPU
    * runs more models than allowed. */
  lemma {:induction false} EveryRun(w: World, calls: seq<Call>)
    requires WorldOk(w) && RunFits(w, calls)
    ensures Inv(w, LastNames(calls), After(w, calls))
    ensures calls != [] ==> AllRequested(After(w, calls), calls[|calls| - 1].reqs)
  {
    hide Inv, CallFits, Unshared, Schedule, AllRequested;
    if calls == [] {
      NoPlansInv(w);
    } else {
      var init, c := calls[..|calls| - 1], calls[|calls| - 1];
      EveryRun(w, init);
      RunStep(w, Pool(After(w, init), c.backends), LastNames(init), c);
    }
  }

  lemma RunStep(w: World, p: Pool, live: set<string>, c: Call)
    requires WorldOk(w) && Inv(w, live, p.table) && p.backends == c.backends && CallFits(w, c)
    requires Unshared(w, p, live - BackendNames(c.backends), c.reqs)
    ensures var r := Schedule(p, w.cat, w.pipes, live - BackendNames(c.backends), c.reqs).table;
            Inv(w, BackendNames(c.backends), r) && AllRequested(r, c.reqs)
  {
    hide Inv, Unshared, Schedule, AllRequested;
    var gone := live - BackendNames(c.backends);
    ScheduleKeeps(w, p, live, gone, c.reqs);
    SameBackendsOk(w, Schedule(p, w.cat, w.pipes, gone, c.reqs).backends, p.backends);
  }
}
