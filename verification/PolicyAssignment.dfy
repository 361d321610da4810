/** Sessions whose models are all in place already join the backends that run them. */
module PolicyAssignment {
  import opened PolicyModel
  import opened PolicyTables
  import opened PolicyGrowth
  import opened PolicyInvariants
  import opened PolicyDeployment
  import opened PolicyAllOrNothing

  lemma {:induction false} MergeNames(into: seq<BackendPlan>, plans: seq<BackendPlan>)
    requires DistinctNames(into)
    ensures Names(Merge(into, plans)) == Names(into) + Names(plans)
    ensures DistinctNames(Merge(into, plans))
    ensures into <= Merge(into, plans)
  {
    if plans == [] {
      NamesNonEmpty(plans);
    } else {
      var init, p := plans[..|plans| - 1], plans[|plans| - 1];
      MergeNames(into, init);
      assert plans == init + [p];
      NamesSnoc(init, p);
      var r := Merge(into, init);
      NamesSnoc(r, p);
      if p.backend !in Names(r) {
        forall k | 0 <= k < |r| ensures r[k].backend != p.backend {
          assert r[k].backend in Names(r);
        }
      }
    }
  }

  function NamesOfAll(plans: seq<CModelPlan>): set<string> {
    set k, b | 0 <= k < |plans| && b in Names(plans[k].backends) :: b
  }

  lemma {:induction false} MergeAllNames(plans: seq<CModelPlan>)
    ensures Names(MergeAll(plans)) == NamesOfAll(plans)
    ensures DistinctNames(MergeAll(plans))
  {
    if plans == [] {
      NamesNonEmpty(MergeAll(plans));
    } else {
      var init, p := plans[..|plans| - 1], plans[|plans| - 1];
      MergeAllNames(init);
      MergeNames(MergeAll(init), p.backends);
      forall b ensures b in NamesOfAll(plans) <==> b in NamesOfAll(init) || b in Names(p.backends) {
        if b in NamesOfAll(init) {
          var k :| 0 <= k < |init| && b in Names(init[k].backends);
          assert plans[k] == init[k];
        }
        if b in Names(p.backends) {
          assert plans[|plans| - 1] == p;
        }
      }
    }
  }

  /** The merged plans for a model name exactly its hosts. */
  lemma MergedHosts(t: Table, m: string)
    ensures Names(MergeAll(PlansOf(t, m))) == Hosts(t, m)
    ensures DistinctNames(MergeAll(PlansOf(t, m)))
  {
    var plans := PlansOf(t, m);
    MergeAllNames(plans);
    PlansOfExact(t, m);
    forall b ensures b in NamesOfAll(plans) <==> Runs(t, m, b) {
      if k :| 0 <= k < |plans| && b in Names(plans[k].backends) {
        assert plans[k] in plans;
        var i :| 0 <= i < |t| && plans[k] in t[i].models;
        assert EntryRuns(t[i], m, b);
      }
      if i :| 0 <= i < |t| && EntryRuns(t[i], m, b) {
        var j :| 0 <= j < |t[i].models| && t[i].models[j].model == m && b in Names(t[i].models[j].backends);
        assert HasPlan(t, t[i].models[j]);
        assert t[i].models[j] in plans;
      }
    }
  }

  lemma {:induction false} BorrowedPlans(t: Table, s: string, models: seq<CModel>)
    ensures |BorrowPlans(t, s, models)| == |models|
    ensures forall k :: 0 <= k < |models| ==>
              BorrowPlans(t, s, models)[k] == CModelPlan(models[k].uuid, s, MergeAll(PlansOf(t, models[k].uuid)))
  {
    hide MergeAll, PlansOf;
    if models != [] {
      BorrowedPlans(t, s, models[..|models| - 1]);
    }
  }

  lemma BorrowedEntry(w: World, live: set<string>, t: Table, q: Request)
    requires Shape(t) && Fits(w, live, t) && AllPlanned(t, q.pipeline.models)
    requires q.pipeline.models != [] && DistinctModelIds(q.pipeline.models) && KeyModels(w, q.session) == q.pipeline.models
    ensures var e := SessionPlans(q.session, BorrowPlans(t, q.session, q.pipeline.models));
            && EntryShape(e) && EntryFits(w, live, e) && PlansEvery(e, q.pipeline.models)
            && forall j :: 0 <= j < |e.models| ==> Names(e.models[j].backends) == Hosts(t, e.models[j].model)
  {
    var models := q.pipeline.models;
    var e := SessionPlans(q.session, BorrowPlans(t, q.session, models));
    BorrowedPlans(t, q.session, models);
    forall j | 0 <= j < |e.models|
      ensures e.models[j].backends != [] && DistinctNames(e.models[j].backends)
      ensures Names(e.models[j].backends) == Hosts(t, e.models[j].model)
      ensures HasModel(models, e.models[j].model) && PlanFits(w, live, e.models[j])
      ensures Plans(e, models[j].uuid)
    {
      var m := models[j].uuid;
      MergedHosts(t, m);
      UnplannedIsNoPlans(t, m);
      PlannedIsHosted(t, m);
      NamesNonEmpty(e.models[j].backends);
      HostsFit(w, live, t, m);
      assert e.models[j].model == m;
    }
  }

  lemma HostsFit(w: World, live: set<string>, t: Table, m: string)
    requires Fits(w, live, t)
    ensures Hosts(t, m) <= live && forall b :: b in Hosts(t, m) ==> RightKind(w, m, b)
  {
    forall b | Runs(t, m, b) ensures b in live && RightKind(w, m, b) {
      var i :| 0 <= i < |t| && EntryRuns(t[i], m, b);
      var j :| 0 <= j < |t[i].models| && t[i].models[j].model == m && b in Names(t[i].models[j].backends);
      assert PlanFits(w, live, t[i].models[j]);
    }
  }

  lemma JoinSameHosts(t: Table, e: SessionPlans)
    requires SameHosts(t)
    requires forall j :: 0 <= j < |e.models| ==> Names(e.models[j].backends) == Hosts(t, e.models[j].model)
    ensures SameHosts(t + [e])
    ensures forall m, b :: Runs(t + [e], m, b) <==> Runs(t, m, b)
  {
    var r := t + [e];
    forall i, k | 0 <= i < |r| && 0 <= k < |r[i].models|
      ensures Names(r[i].models[k].backends) == Hosts(t, r[i].models[k].model)
    {
      if i < |t| {
        assert Names(t[i].models[k].backends) == Hosts(t, t[i].models[k].model);
      }
    }
    SameHostsFrom(r, m => Hosts(t, m));
    forall m, b ensures Runs(r, m, b) <==> Runs(t, m, b) {
      RunsSnoc(t, e, m, b);
      if EntryRuns(e, m, b) {
        var j :| 0 <= j < |e.models| && e.models[j].model == m && b in Names(e.models[j].backends);
        assert b in Hosts(t, m);
      }
    }
  }

  lemma JoinShape(w: World, live: set<string>, t: Table, e: SessionPlans)
    requires Shape(t) && Fits(w, live, t) && EntryShape(e) && EntryFits(w, live, e) && !HasSession(t, e.session)
    ensures Shape(t + [e]) && Fits(w, live, t + [e])
  {
  }

  lemma JoinInv(w: World, live: set<string>, t: Table, e: SessionPlans)
    requires Inv(w, live, t)
    requires EntryShape(e) && EntryFits(w, live, e) && !HasSession(t, e.session)
    requires forall j :: 0 <= j < |e.models| ==> Names(e.models[j].backends) == Hosts(t, e.models[j].model)
    ensures Inv(w, live, t + [e])
    ensures forall m, b :: Runs(t + [e], m, b) <==> Runs(t, m, b)
  {
    JoinShape(w, live, t, e);
    JoinSameHosts(t, e);
    FewerRunsCap(w, t + [e], t);
  }

  /** Joining adds the session with all its models and places nothing new. */
  lemma AssignOneInv(w: World, live: set<string>, t: Table, q: Request)
    requires Inv(w, live, t)
    requires q.pipeline.models != [] && DistinctModelIds(q.pipeline.models) && KeyModels(w, q.session) == q.pipeline.models
    ensures Inv(w, live, AssignOne(t, q))
    ensures forall m, b :: Runs(AssignOne(t, q), m, b) <==> Runs(t, m, b)
    ensures t <= AssignOne(t, q)
    ensures forall i :: |t| <= i < |AssignOne(t, q)| ==>
              AssignOne(t, q)[i].session == q.session && PlansEvery(AssignOne(t, q)[i], q.pipeline.models)
  {
    if !HasSession(t, q.session) && AllPlanned(t, q.pipeline.models) {
      var e := SessionPlans(q.session, BorrowPlans(t, q.session, q.pipeline.models));
      BorrowedEntry(w, live, t, q);
      JoinInv(w, live, t, e);
    }
  }

  lemma {:induction false} AssignInv(w: World, live: set<string>, t: Table, reqs: seq<Request>, all: seq<Request>)
    requires WorldOk(w) && Inv(w, live, t) && RequestsOk(w, all) && reqs <= all && AllRequested(t, all)
    ensures var r := Assign(t, reqs);
            && Inv(w, live, r)
            && AllRequested(r, all)
            && (forall m, b :: Runs(r, m, b) <==> Runs(t, m, b))
            && t <= r
            && forall i :: |t| <= i < |r| ==> PlansEvery(r[i], KeyModels(w, r[i].session))
  {
    if reqs != [] {
      var init, q := reqs[..|reqs| - 1], reqs[|reqs| - 1];
      AssignInv(w, live, t, init, all);
      assert all[|reqs| - 1] == q;
      AssignOneInv(w, live, Assign(t, init), q);
    }
  }

  /** A session left without a place afterwards wants some model that nobody has. */
  lemma {:induction false} AssignComplete(t: Table, reqs: seq<Request>, k: nat)
    requires k < |reqs|
    ensures HasSession(Assign(t, reqs), reqs[k].session) || !AllPlanned(t, reqs[k].pipeline.models)
  {
    var init, q := reqs[..|reqs| - 1], reqs[|reqs| - 1];
    var r0, r := Assign(t, init), Assign(t, reqs);
    if k < |init| {
      AssignComplete(t, init, k);
      if i :| 0 <= i < |r0| && r0[i].session == reqs[k].session {
        assert r[i].session == reqs[k].session;
      }
    } else if AllPlanned(t, q.pipeline.models) {
      AssignKeepsPlans(t, init, q.pipeline.models);
      if HasSession(r0, q.session) {
        var i :| 0 <= i < |r0| && r0[i].session == q.session;
        assert r[i].session == q.session;
      } else {
        assert r[|r0|].session == q.session;
      }
    }
  }

  lemma {:induction false} AssignKeepsPlans(t: Table, reqs: seq<Request>, models: seq<CModel>)
    requires AllPlanned(t, models)
    ensures AllPlanned(Assign(t, reqs), models)
  {
    if reqs != [] {
      AssignKeepsPlans(t, reqs[..|reqs| - 1], models);
      var r0, r := Assign(t, reqs[..|reqs| - 1]), Assign(t, reqs);
      if r != r0 {
        assert r[..|r| - 1] == r0;
      }
    }
  }
}
