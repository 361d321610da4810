/** A call deploys its pipelines without upsetting the order of the table exactly if none of them shares
  * a model that was planned before its turn and then succeeds. */
module PolicySharing {
  import opened Options
  import opened PolicyModel
  import opened PolicyTables
  import opened PolicyGrowth
  import opened PolicyInvariants
  import opened PolicyBudget
  import opened PolicyPruning
  import opened PolicyDeployment
  import opened PolicyAllOrNothing
  import opened PolicyPlacement
  import opened PolicyRuns
  import opened PolicyOmissions

  // ---- Entries of other sessions stay, in any table ---------------------------------------------------

  lemma {:induction false} AddPlansLeaves(t: Table, ss: seq<string>, m: string, bp: BackendPlan, e: SessionPlans)
    requires e in t && e.session !in ss
    ensures e in AddPlans(t, ss, m, bp)
  {
    if ss != [] {
      var init, s := ss[..|ss| - 1], ss[|ss| - 1];
      AddPlansLeaves(t, init, m, bp, e);
      var r := AddPlans(t, init, m, bp);
      var k :| 0 <= k < |r| && r[k] == e;
      assert AddPlan(r, s, m, bp)[k] == e;
    }
  }

  lemma {:induction false} ShareLeaves(t: Table, ss: seq<string>, plans: seq<CModelPlan>, e: SessionPlans)
    requires e in t && e.session !in ss
    ensures e in Share(t, ss, plans)
  {
    if ss != [] {
      var init, s := ss[..|ss| - 1], ss[|ss| - 1];
      ShareLeaves(t, init, plans, e);
      var r := Share(t, init, plans);
      var k :| 0 <= k < |r| && r[k] == e;
      assert AppendPlans(r, s, plans)[k] == e;
    }
  }

  lemma {:induction false} RemoveLeaves(t: Table, m: string, b: string, e: SessionPlans)
    requires e in t && !Plans(e, m)
    ensures e in Remove(t, m, b)
  {
    var init, last := t[..|t| - 1], t[|t| - 1];
    assert EntryWithout(e, m, b) == Some(e);
    if last != e {
      assert t == init + [last];
      RemoveLeaves(init, m, b, e);
    }
  }

  lemma NotPlannedIn(t: Table, m: string, e: SessionPlans)
    requires e in t && PlansOf(t, m) == []
    ensures !Plans(e, m)
  {
    PlansOfExact(t, m);
    forall j | 0 <= j < |e.models| ensures e.models[j].model != m {
      assert HasPlan(t, e.models[j]);
    }
  }

  predicate PlansNone(e: SessionPlans, pairs: seq<(string, string)>) {
    forall k :: 0 <= k < |pairs| ==> !Plans(e, pairs[k].0)
  }

  /** The attempt at a pipeline leaves entries of other sessions alone and deploys none of their models. */
  lemma {:induction false} AttemptLeaves(p: Pool, cat: Catalog, models: seq<CModel>, ss: seq<string>, e: SessionPlans)
    requires e in p.table && e.session !in ss
    ensures var g := DeployModels(p, cat, models, ss); e in g.pool.table && PlansNone(e, g.deployed)
  {
    if models != [] {
      hide PlansOf, Choose, Plans;
      var init, m := models[..|models| - 1], models[|models| - 1].uuid;
      AttemptLeaves(p, cat, init, ss, e);
      var g := DeployModels(p, cat, init, ss);
      if g.ok && PlansOf(g.pool.table, m) == [] {
        NotPlannedIn(g.pool.table, m, e);
        var d := Deploy(g.pool, cat, m, ss);
        if d.1.Some? {
          AddPlansLeaves(g.pool.table, ss, m, NewBackendPlan(cat, m, d.1.value), e);
        }
      }
    }
  }

  lemma {:induction false} UndoLeaves(p: Pool, cat: Catalog, pairs: seq<(string, string)>, e: SessionPlans)
    requires e in p.table && PlansNone(e, pairs)
    ensures e in UndeployAll(p, cat, pairs).table
  {
    if pairs != [] {
      var init, last := pairs[..|pairs| - 1], pairs[|pairs| - 1];
      UndoLeaves(p, cat, init, e);
      RemoveLeaves(UndeployAll(p, cat, init).table, last.0, last.1, e);
    }
  }

  lemma DeployLeaves(p: Pool, cat: Catalog, models: seq<CModel>, ss: seq<string>, e: SessionPlans)
    requires e in p.table && e.session !in ss
    ensures e in DeployPipeline(p, cat, models, ss).table
  {
    var g := DeployModels(p, cat, models, ss);
    AttemptLeaves(p, cat, models, ss, e);
    if g.ok {
      ShareLeaves(g.pool.table, ss, g.shared, e);
    } else {
      UndoLeaves(g.pool, cat, g.deployed, e);
    }
  }

  // ---- What sharing breaks stays broken -----------------------------------------------------------------

  /** A successful attempt that shares leaves an entry out of order, of one of its own sessions. */
  lemma SharedEntry(w: World, p: Pool, models: seq<CModel>, ss: seq<string>) returns (e: SessionPlans)
    requires Good(w, p) && PipelineSessions(w, models, ss) && !Clean(p, w.cat, models, ss)
    ensures e in DeployPipeline(p, w.cat, models, ss).table && !EntryShape(e) && e.session in ss
  {
    var g, r := DeployModels(p, w.cat, models, ss), DeployPipeline(p, w.cat, models, ss);
    DeployModelsOk(w, p, models, models, ss);
    SharedExact(w, p, models, models, ss);
    SharedBreaksShape(g.pool.table, ss, g.shared);
    ShareTable(g.pool.table, ss, g.shared);
    hide Good, PipelineSessions, DeployModels, EntryShape, TableProgress, WithinBudget, SharingKnown;
    OutOfOrder(r.table, g.pool.table, ss, g.shared);
    var i :| 0 <= i < |r.table| && !EntryShape(r.table[i]) && r.table[i].session in ss;
    e := r.table[i];
  }

  lemma OutOfOrder(r: Table, t: Table, ss: seq<string>, plans: seq<CModelPlan>)
    requires SharedTable(r, t, ss, plans) && Shape(t) && !Shape(r)
    ensures exists i :: 0 <= i < |r| && !EntryShape(r[i]) && r[i].session in ss
  {
    hide EntryShape;
    var i :| 0 <= i < |r| && !EntryShape(r[i]);
    assert i < |t| ==> EntryShape(t[i]);
  }

  lemma {:induction false} SharingStays(w: World, p: Pool, reqs: seq<Request>, todo: seq<string>) returns (e: SessionPlans, n: nat)
    requires WorldOk(w) && Good(w, p) && RequestsOk(w, reqs) && AllRequested(p.table, reqs)
    requires DistinctStrings(todo) && forall u :: u in todo ==> InUse(reqs, u)
    requires !AllClean(p, w.cat, w.pipes, reqs, todo)
    ensures n < |todo| && e.session in SessionsOf(reqs, todo[n])
    ensures e in DeployPipelines(p, w.cat, w.pipes, reqs, todo).table && !EntryShape(e)
  {
    hide WorldOk, Good, AllRequested, InUse, Clean, DeployPipeline, SessionsOf, ModelsOf, EntryShape;
    var init, u := todo[..|todo| - 1], todo[|todo| - 1];
    var q, models, ss := DeployPipelines(p, w.cat, w.pipes, reqs, init), ModelsOf(w.pipes, u), SessionsOf(reqs, u);
    if AllClean(p, w.cat, w.pipes, reqs, init) {
      DeployPipelinesGood(w, p, reqs, init);
      SessionsFit(w, reqs, u);
      e := SharedEntry(w, q, models, ss);
      n := |todo| - 1;
    } else {
      e, n := SharingStays(w, p, reqs, init);
      OwnPipeline(reqs, todo[n], e.session);
      if e.session in ss {
        OwnPipeline(reqs, u, e.session);
      }
      DeployLeaves(q, w.cat, models, ss, e);
    }
  }

  /** Once the pipelines of a call are deployed, its table is in good order if and only if none of them, when
    * its turn came, shared a plan: each either had only new models or found no room for one of its new ones. */
  lemma CallOrderedIff(w: World, p: Pool, live: set<string>, gone: set<string>, reqs: seq<Request>)
    requires CallOk(w, p, live, gone, reqs)
    ensures var q := Prune(p, w.cat, gone, reqs);
            Shape(DeployPipelines(q, w.cat, w.pipes, reqs, ToAdd(q.table, reqs)).table) <==> Unshared(w, p, gone, reqs)
  {
    hide WithinBudget, Inv, BackendsOk, WorldOk, RequestsOk, Prune, DeployPipelines, AllClean, ToAdd, EntryShape;
    var q := Prune(p, w.cat, gone, reqs);
    var todo := ToAdd(q.table, reqs);
    PruneExact(w, p, live, gone, reqs);
    ToAddAreRequested(q.table, reqs);
    ToAddExact(q.table, reqs);
    if Unshared(w, p, gone, reqs) {
      DeployPipelinesGood(w, q, reqs, todo);
      GoodIsShape(w, DeployPipelines(q, w.cat, w.pipes, reqs, todo));
    } else {
      var e, n := SharingStays(w, q, reqs, todo);
    }
  }

  /** No pipeline of the list shares, exactly if each, when its turn comes, has only new models or finds no
    * room for one of its new ones. */
  lemma {:induction false} AllCleanIff(w: World, p: Pool, reqs: seq<Request>, todo: seq<string>)
    requires WorldOk(w) && Good(w, p) && RequestsOk(w, reqs) && AllRequested(p.table, reqs)
    requires forall u :: u in todo ==> InUse(reqs, u)
    ensures AllClean(p, w.cat, w.pipes, reqs, todo) <==>
            forall i :: 0 <= i < |todo| ==>
              NoRoomAt(w, p, reqs, todo, i) || Fresh(AtTurn(w, p, reqs, todo, i).table, ModelsOf(w.pipes, todo[i]))
  {
    hide WorldOk, Good, RequestsOk, AllRequested, InUse, Clean, DeployPipelines, Roomy, Fresh, SessionsOf, ModelsOf;
    if todo != [] {
      var last := |todo| - 1;
      var init, u := todo[..last], todo[last];
      AllCleanIff(w, p, reqs, init);
      forall i | 0 <= i < last
        ensures NoRoomAt(w, p, reqs, init, i) == NoRoomAt(w, p, reqs, todo, i)
        ensures AtTurn(w, p, reqs, init, i) == AtTurn(w, p, reqs, todo, i)
      {
        assert init[..i] == todo[..i];
      }
      if AllClean(p, w.cat, w.pipes, reqs, init) {
        DeployPipelinesGood(w, p, reqs, init);
        SessionsFit(w, reqs, u);
        OrderedIff(w, AtTurn(w, p, reqs, todo, last), ModelsOf(w.pipes, u), SessionsOf(reqs, u));
      }
    }
  }
}
