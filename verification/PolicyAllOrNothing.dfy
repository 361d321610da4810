/** A pipeline is deployed whole or not at all; when its models were new, the plans stay in
  * good order, and otherwise they do not. */
module PolicyAllOrNothing {
  import opened PolicyModel
  import opened PolicyTables
  import opened PolicyGrowth
  import opened PolicyInvariants
  import opened PolicyBudget
  import opened PolicyPruning
  import opened PolicyDeployment

  // ---- Handing out plans that were already there -----------------------------------------

  /** The table after sharing: the listed sessions have the plans appended, the others stay. */
  predicate SharedTable(r: Table, t: Table, ss: seq<string>, plans: seq<CModelPlan>) {
    && |t| <= |r|
    && (forall i :: 0 <= i < |t| ==>
          r[i] == if t[i].session in ss then t[i].(models := t[i].models + plans) else t[i])
    && (forall i :: |t| <= i < |r| ==> r[i].session in ss && !HasSession(t, r[i].session) && r[i].models == plans)
    && (forall s :: s in ss ==> HasSession(r, s))
    && DistinctSessions(r)
  }

  lemma {:induction false} ShareTable(t: Table, ss: seq<string>, plans: seq<CModelPlan>)
    requires DistinctSessions(t) && DistinctStrings(ss) && plans != []
    ensures SharedTable(Share(t, ss, plans), t, ss, plans)
  {
    if ss != [] {
      var init, s := ss[..|ss| - 1], ss[|ss| - 1];
      assert ss == init + [s];
      ShareTable(t, init, plans);
      ShareStep(Share(t, init, plans), t, init, s, plans);
    }
  }

  lemma KeptSessions(r': Table, r: Table, init: seq<string>, s: string, i: nat)
    requires |r| <= |r'| && forall k :: 0 <= k < |r| ==> r'[k].session == r[k].session
    requires i < |r'| && r'[i].session == s
    requires forall x :: x in init ==> HasSession(r, x)
    ensures forall x :: x in init + [s] ==> HasSession(r', x)
  {
    forall x | x in init + [s] ensures HasSession(r', x) {
      if x != s {
        var k :| 0 <= k < |r| && r[k].session == x;
        assert r'[k].session == x;
      }
    }
  }

  /** Where appended plans go. */
  lemma AppendedAt(r: Table, s: string, plans: seq<CModelPlan>)
    requires DistinctSessions(r) && plans != []
    ensures var r', i := AppendPlans(r, s, plans), IndexOf(r, s);
            && DistinctSessions(r')
            && |r'| == (if i < |r| then |r| else |r| + 1)
            && r'[i] == SessionPlans(s, (if i < |r| then r[i].models else []) + plans)
            && (forall k :: 0 <= k < |r| && k != i ==> r'[k] == r[k])
            && (HasSession(r, s) <==> i < |r|)
  {
    assert [] + plans == plans;
  }

  lemma ShareStep(r: Table, t: Table, init: seq<string>, s: string, plans: seq<CModelPlan>)
    requires DistinctSessions(t) && s !in init && plans != []
    requires SharedTable(r, t, init, plans)
    ensures SharedTable(AppendPlans(r, s, plans), t, init + [s], plans)
  {
    hide AppendPlans, DistinctSessions;
    AppendedAt(r, s, plans);
    var r', i := AppendPlans(r, s, plans), IndexOf(r, s);
    assert forall k :: 0 <= k < |t| ==> r[k].session == t[k].session;
    assert i < |t| || i == |r|;
    if i == |r| {
      forall k | 0 <= k < |t| ensures t[k].session != s {
        assert r[k].session == t[k].session;
      }
    }
    assert [] + plans == plans;
    KeptSessions(r', r, init, s, i);
  }

  lemma {:induction false} ShareNothing(t: Table, ss: seq<string>)
    ensures Share(t, ss, []) == t
  {
    if ss != [] {
      ShareNothing(t, ss[..|ss| - 1]);
    }
  }

  lemma ShareOthers(t: Table, ss: seq<string>, plans: seq<CModelPlan>)
    requires DistinctSessions(t) && DistinctStrings(ss)
    ensures OthersSame(Share(t, ss, plans), t, ss)
  {
    var r := Share(t, ss, plans);
    if plans == [] {
      ShareNothing(t, ss);
    } else {
      ShareTable(t, ss, plans);
      var head := r[..|t|];
      assert r == head + r[|t|..];
      DropAllPointwise(head, t, ss);
      DropAllTail(head, r[|t|..], ss);
    }
  }

  // ---- All or nothing ------------------------------------------------------------------------

  /** The entry has a plan for every one of the models. */
  predicate PlansEvery(e: SessionPlans, models: seq<CModel>) {
    forall k :: 0 <= k < |models| ==> Plans(e, models[k].uuid)
  }

  predicate PlacedWhole(t: Table, s: string, models: seq<CModel>) {
    exists i :: 0 <= i < |t| && t[i].session == s && PlansEvery(t[i], models)
  }

  lemma PlansAfterShare(e: SessionPlans, e': SessionPlans, plans: seq<CModelPlan>, m: string)
    requires e'.models == e.models + plans
    ensures Plans(e', m) <==> Plans(e, m) || exists q :: q in plans && q.model == m
  {
    if j :| 0 <= j < |e.models| && e.models[j].model == m {
      assert e'.models[j].model == m;
    }
    if q :| q in plans && q.model == m {
      var k :| 0 <= k < |plans| && plans[k] == q;
      assert e'.models[|e.models| + k].model == m;
    }
  }

  /** Every model that was already planned is among the shared plans. */
  lemma {:induction false} SharedCovers(w: World, p: Pool, all: seq<CModel>, models: seq<CModel>, ss: seq<string>, m: string)
    requires Good(w, p) && PipelineSessions(w, all, ss) && models <= all && HasModel(models, m)
    requires DeployModels(p, w.cat, models, ss).ok
    ensures var g := DeployModels(p, w.cat, models, ss);
            Deployed(g.deployed, m) || exists q :: q in g.shared && q.model == m
  {
    hide Good, PlansOf, Deploy, PipelineSessions;
    var init, c := models[..|models| - 1], models[|models| - 1];
    var g0, g := DeployModels(p, w.cat, init, ss), DeployModels(p, w.cat, models, ss);
    HasModelSnoc(init, c);
    assert models == init + [c];
    if HasModel(init, m) {
      SharedCovers(w, p, all, init, ss, m);
      if Deployed(g0.deployed, m) {
        var k :| 0 <= k < |g0.deployed| && g0.deployed[k].0 == m;
        assert g.deployed[k].0 == m;
      }
    } else if PlansOf(g0.pool.table, m) != [] {
      PlansOfExact(g0.pool.table, m);
      var q := PlansOf(g0.pool.table, m)[0];
      assert q in PlansOf(g0.pool.table, m) && q in g.shared;
    } else {
      assert g.deployed[|g0.deployed|].0 == m;
    }
  }

  /** All or nothing. On success every session of the pipeline ends up with a plan for each of
    * its models; on failure none of them enters the table. Other sessions keep their plans. */
  lemma AllOrNothing(w: World, p: Pool, models: seq<CModel>, ss: seq<string>)
    requires Good(w, p) && PipelineSessions(w, models, ss)
    ensures var g, r := DeployModels(p, w.cat, models, ss), DeployPipeline(p, w.cat, models, ss);
            && OthersSame(r.table, p.table, ss)
            && (g.ok ==> forall s :: s in ss ==> PlacedWhole(r.table, s, models))
            && (!g.ok ==> forall s :: s in ss && !HasSession(p.table, s) ==> !HasSession(r.table, s))
  {
    var g, r := DeployModels(p, w.cat, models, ss), DeployPipeline(p, w.cat, models, ss);
    DeployModelsOk(w, p, models, models, ss);
    if g.ok {
      ShareOthers(g.pool.table, ss, g.shared);
      forall s | s in ss ensures PlacedWhole(r.table, s, models) {
        WholeOnSuccess(w, p, models, ss, s);
      }
    } else {
      RollbackExact(w, p, models, ss);
      DropAllEntries(p.table, ss);
      DropAllTwice(p.table, ss);
      forall s | s in ss && !HasSession(p.table, s) ensures !HasSession(r.table, s) {
        forall i | 0 <= i < |r.table| ensures r.table[i].session != s {
          assert r.table[i] in p.table;
        }
      }
    }
  }

  lemma DropAllTwice(t: Table, ss: seq<string>)
    ensures DropAll(DropAll(t, ss), ss) == DropAll(t, ss)
  {
    DropAllEntries(t, ss);
    var r := DropAll(t, ss);
    forall i | 0 <= i < |r| ensures r[i].session !in ss {
      assert r[i] in r;
    }
    DropAllEntries(r, ss);
  }

  lemma DeployedEverywhere(w: World, p: Pool, models: seq<CModel>, ss: seq<string>, g: Progress, m: string, i: nat)
    requires ProgressOk(w, p, ss, models, g) && Deployed(g.deployed, m)
    requires i < |g.pool.table| && g.pool.table[i].session in ss
    ensures Plans(g.pool.table[i], m)
  {
    var k :| 0 <= k < |g.deployed| && g.deployed[k].0 == m;
    assert DeployedFor(p.table, g.pool.table, ss, models, g.deployed[k]);
  }

  lemma DeployedSessions(w: World, p: Pool, models: seq<CModel>, ss: seq<string>, g: Progress, m: string)
    requires ProgressOk(w, p, ss, models, g)
    ensures Deployed(g.deployed, m) ==> forall s :: s in ss ==> HasSession(g.pool.table, s)
  {
    if k :| 0 <= k < |g.deployed| && g.deployed[k].0 == m {
      assert DeployedFor(p.table, g.pool.table, ss, models, g.deployed[k]);
    }
  }

  lemma WholeUnshared(w: World, p: Pool, models: seq<CModel>, ss: seq<string>, s: string)
    requires Good(w, p) && PipelineSessions(w, models, ss) && s in ss
    requires DeployModels(p, w.cat, models, ss).ok && DeployModels(p, w.cat, models, ss).shared == []
    ensures PlacedWhole(DeployModels(p, w.cat, models, ss).pool.table, s, models)
  {
    hide Good;
    var g := DeployModels(p, w.cat, models, ss);
    DeployModelsOk(w, p, models, models, ss);
    SharedCovers(w, p, models, models, ss, models[0].uuid);
    DeployedSessions(w, p, models, ss, g, models[0].uuid);
    var i :| 0 <= i < |g.pool.table| && g.pool.table[i].session == s;
    forall n | 0 <= n < |models| ensures Plans(g.pool.table[i], models[n].uuid) {
      SharedCovers(w, p, models, models, ss, models[n].uuid);
      DeployedEverywhere(w, p, models, ss, g, models[n].uuid, i);
    }
  }

  lemma WholeShared(w: World, p: Pool, models: seq<CModel>, ss: seq<string>, s: string)
    requires Good(w, p) && PipelineSessions(w, models, ss) && s in ss
    requires DeployModels(p, w.cat, models, ss).ok && DeployModels(p, w.cat, models, ss).shared != []
    ensures var g := DeployModels(p, w.cat, models, ss); PlacedWhole(Share(g.pool.table, ss, g.shared), s, models)
  {
    hide Good;
    var g := DeployModels(p, w.cat, models, ss);
    GoodShape(w, p, models, ss);
    ShareTable(g.pool.table, ss, g.shared);
    var r := Share(g.pool.table, ss, g.shared);
    var i :| 0 <= i < |r| && r[i].session == s;
    forall n | 0 <= n < |models| ensures Plans(r[i], models[n].uuid) {
      PlansEither(w, p, models, ss, g, i, models[n].uuid);
    }
  }

  lemma GoodShape(w: World, p: Pool, models: seq<CModel>, ss: seq<string>)
    requires Good(w, p) && PipelineSessions(w, models, ss)
    ensures DistinctSessions(DeployModels(p, w.cat, models, ss).pool.table)
  {
    DeployModelsOk(w, p, models, models, ss);
  }

  lemma WholeOnSuccess(w: World, p: Pool, models: seq<CModel>, ss: seq<string>, s: string)
    requires Good(w, p) && PipelineSessions(w, models, ss) && s in ss
    requires DeployModels(p, w.cat, models, ss).ok
    ensures PlacedWhole(DeployPipeline(p, w.cat, models, ss).table, s, models)
  {
    hide Good, PlacedWhole, DeployModels;
    if DeployModels(p, w.cat, models, ss).shared == [] {
      WholeUnshared(w, p, models, ss, s);
      ShareNothing(DeployModels(p, w.cat, models, ss).pool.table, ss);
    } else {
      WholeShared(w, p, models, ss, s);
    }
  }

  lemma PlansEither(w: World, p: Pool, models: seq<CModel>, ss: seq<string>, g: Progress, i: nat, m: string)
    requires Good(w, p) && PipelineSessions(w, models, ss) && g == DeployModels(p, w.cat, models, ss)
    requires g.ok && g.shared != [] && HasModel(models, m)
    requires i < |Share(g.pool.table, ss, g.shared)| && Share(g.pool.table, ss, g.shared)[i].session in ss
    ensures Plans(Share(g.pool.table, ss, g.shared)[i], m)
  {
    var t, r := g.pool.table, Share(g.pool.table, ss, g.shared);
    DeployModelsOk(w, p, models, models, ss);
    ShareTable(t, ss, g.shared);
    SharedCovers(w, p, models, models, ss, m);
    if i < |t| {
      PlansAfterShare(t[i], r[i], g.shared, m);
      if Deployed(g.deployed, m) {
        DeployedEverywhere(w, p, models, ss, g, m, i);
      }
    } else {
      DeployedSessions(w, p, models, ss, g, m);
      PlansAfterShare(SessionPlans(r[i].session, []), r[i], g.shared, m);
    }
  }

  // ---- When the plans stay in order -----------------------------------------------------------

  /** The attempt shares no plan of an earlier deployment. */
  predicate Clean(p: Pool, cat: Catalog, models: seq<CModel>, ss: seq<string>) {
    var g := DeployModels(p, cat, models, ss);
    g.ok ==> g.shared == []
  }

  lemma DeployPipelineGood(w: World, p: Pool, models: seq<CModel>, ss: seq<string>)
    requires Good(w, p) && PipelineSessions(w, models, ss) && Clean(p, w.cat, models, ss)
    ensures Good(w, DeployPipeline(p, w.cat, models, ss))
    ensures WithinBudget(w.cat, DeployPipeline(p, w.cat, models, ss), p)
  {
    var g := DeployModels(p, w.cat, models, ss);
    DeployModelsOk(w, p, models, models, ss);
    if g.ok {
      ShareNothing(g.pool.table, ss);
    } else {
      UndeployAllGood(w, g.pool, g.deployed);
      WithinTransitive(w.cat, DeployPipeline(p, w.cat, models, ss), g.pool, p);
    }
  }

  /** After a shared plan is handed out, some entry carries another session's plan or has two
    * plans for one model. */
  lemma SharedBreaksShape(t: Table, ss: seq<string>, plans: seq<CModelPlan>)
    requires Shape(t) && DistinctStrings(ss) && ss != [] && plans != []
    requires forall q :: q in plans ==> HasPlan(t, q)
    ensures !Shape(Share(t, ss, plans))
  {
    ShareTable(t, ss, plans);
    var r, s, q := Share(t, ss, plans), ss[0], plans[0];
    assert s in ss && q in plans;
    var i :| 0 <= i < |r| && r[i].session == s;
    var j := if i < |t| then |t[i].models| else 0;
    assert r[i].models[j] == q;
    var i' :| 0 <= i' < |t| && q in t[i'].models;
    var j' :| 0 <= j' < |t[i'].models| && t[i'].models[j'] == q;
    if q.session == s {
      assert t[i'].session == s;
      assert HasSession(t, s);
      assert i' == i;
      assert r[i].models[j'] == q && j' < j;
      assert !DistinctModels(r[i].models);
    } else {
      assert !EntryShape(r[i]);
    }
  }

  /** The plans stay in order exactly when the attempt fails or shares nothing; and a successful
    * one shares nothing exactly when none of its models was planned before. */
  lemma OrderedIffClean(w: World, p: Pool, models: seq<CModel>, ss: seq<string>)
    requires Good(w, p) && PipelineSessions(w, models, ss)
    ensures Shape(DeployPipeline(p, w.cat, models, ss).table) <==> Clean(p, w.cat, models, ss)
    ensures Clean(p, w.cat, models, ss) <==> !DeployModels(p, w.cat, models, ss).ok || Fresh(p.table, models)
  {
    var g := DeployModels(p, w.cat, models, ss);
    DeployModelsOk(w, p, models, models, ss);
    SharedExact(w, p, models, models, ss);
    if Clean(p, w.cat, models, ss) {
      DeployPipelineGood(w, p, models, ss);
    } else {
      SharedBreaksShape(g.pool.table, ss, g.shared);
    }
  }

  // ---- All pipelines of a call ------------------------------------------------------------------

  /** No pipeline of the list, when its turn comes, shares plans of an earlier one. */
  ghost predicate AllClean(p: Pool, cat: Catalog, pipes: map<string, Pipeline>, reqs: seq<Request>, todo: seq<string>) {
    todo == [] ||
    var init, u := todo[..|todo| - 1], todo[|todo| - 1];
    && AllClean(p, cat, pipes, reqs, init)
    && Clean(DeployPipelines(p, cat, pipes, reqs, init), cat, ModelsOf(pipes, u), SessionsOf(reqs, u))
  }

  lemma {:induction false} SessionsOfExact(reqs: seq<Request>, u: string)
    ensures forall s :: s in SessionsOf(reqs, u) <==> exists i :: 0 <= i < |reqs| && reqs[i].session == s && reqs[i].pipeline.uuid == u
  {
    if reqs != [] {
      var init, q := reqs[..|reqs| - 1], reqs[|reqs| - 1];
      SessionsOfExact(init, u);
      forall s ensures s in SessionsOf(reqs, u) <==> exists i :: 0 <= i < |reqs| && reqs[i].session == s && reqs[i].pipeline.uuid == u {
        if s in SessionsOf(init, u) {
          var i :| 0 <= i < |init| && init[i].session == s && init[i].pipeline.uuid == u;
          assert reqs[i].session == s;
        } else if s in SessionsOf(reqs, u) {
          assert reqs[|reqs| - 1].session == s;
        }
      }
    }
  }

  lemma {:induction false} SessionsOfDistinct(reqs: seq<Request>, u: string)
    requires forall i, j :: 0 <= i < j < |reqs| ==> reqs[i].session != reqs[j].session
    ensures DistinctStrings(SessionsOf(reqs, u))
  {
    if reqs != [] {
      var init, q := reqs[..|reqs| - 1], reqs[|reqs| - 1];
      SessionsOfDistinct(init, u);
      SessionsOfExact(init, u);
      assert q.session !in SessionsOf(init, u);
    }
  }

  predicate InUse(reqs: seq<Request>, u: string) {
    exists i :: 0 <= i < |reqs| && reqs[i].pipeline.uuid == u
  }

  lemma {:induction false} ToAddAreRequested(t: Table, reqs: seq<Request>)
    ensures forall u :: u in ToAdd(t, reqs) ==> InUse(reqs, u)
  {
    if reqs != [] {
      var init := reqs[..|reqs| - 1];
      ToAddAreRequested(t, init);
      forall u | u in ToAdd(t, reqs) ensures InUse(reqs, u) {
        if u in ToAdd(t, init) {
          var i :| 0 <= i < |init| && init[i].pipeline.uuid == u;
          assert reqs[i].pipeline.uuid == u;
        } else {
          assert reqs[|reqs| - 1].pipeline.uuid == u;
        }
      }
    }
  }

  lemma SessionsFit(w: World, reqs: seq<Request>, u: string)
    requires WorldOk(w) && RequestsOk(w, reqs) && InUse(reqs, u)
    ensures PipelineSessions(w, ModelsOf(w.pipes, u), SessionsOf(reqs, u))
    ensures forall s :: s in SessionsOf(reqs, u) ==> Requested(reqs, s)
  {
    SessionsOfExact(reqs, u);
    SessionsOfDistinct(reqs, u);
    var i :| 0 <= i < |reqs| && reqs[i].pipeline.uuid == u;
    assert reqs[i].session in SessionsOf(reqs, u);
    forall s | s in SessionsOf(reqs, u) ensures KeyModels(w, s) == ModelsOf(w.pipes, u) && Requested(reqs, s) {
      var k :| 0 <= k < |reqs| && reqs[k].session == s && reqs[k].pipeline.uuid == u;
    }
  }

  lemma KeptRequested(r: Table, t: Table, ss: seq<string>, reqs: seq<Request>)
    requires OthersSame(r, t, ss) && AllRequested(t, reqs)
    requires forall s :: s in ss ==> Requested(reqs, s)
    ensures AllRequested(r, reqs)
  {
    DropAllEntries(r, ss);
    DropAllEntries(t, ss);
    forall i | 0 <= i < |r| ensures Requested(reqs, r[i].session) {
      if r[i].session !in ss {
        assert r[i] in DropAll(r, ss);
        var k :| 0 <= k < |t| && t[k] == r[i];
      }
    }
  }

  lemma {:induction false} DeployPipelinesGood(w: World, p: Pool, reqs: seq<Request>, todo: seq<string>)
    requires WorldOk(w) && Good(w, p) && RequestsOk(w, reqs) && AllRequested(p.table, reqs)
    requires forall u :: u in todo ==> InUse(reqs, u)
    requires AllClean(p, w.cat, w.pipes, reqs, todo)
    ensures var r := DeployPipelines(p, w.cat, w.pipes, reqs, todo);
            Good(w, r) && WithinBudget(w.cat, r, p) && AllRequested(r.table, reqs)
  {
    if todo == [] {
      WithinRefl(w.cat, p);
    } else {
      var init, u := todo[..|todo| - 1], todo[|todo| - 1];
      DeployPipelinesGood(w, p, reqs, init);
      var q := DeployPipelines(p, w.cat, w.pipes, reqs, init);
      var models, ss := ModelsOf(w.pipes, u), SessionsOf(reqs, u);
      SessionsFit(w, reqs, u);
      DeployPipelineGood(w, q, models, ss);
      AllOrNothing(w, q, models, ss);
      KeptRequested(DeployPipeline(q, w.cat, models, ss).table, q.table, ss, reqs);
      WithinTransitive(w.cat, DeployPipeline(q, w.cat, models, ss), q, p);
    }
  }
}
