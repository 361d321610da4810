/** What backends are told to run a model with: whoever is given a model is given its components at
  * their fastest profile, and no later step changes that. */
module PolicyComponents {
  import opened PolicyModel
  import opened PolicyTables
  import opened PolicyDeployment
  import opened PolicyRuns
  import opened PolicyInvariants
  import opened SchedulingCall
  import opened Regrouping

  /** The plan runs each component of the model with the batch size of the first of its fastest
    * profile entries, component by component. */
  ghost predicate Fastest(components: seq<Component>, plans: seq<ComponentPlan>) {
    && |plans| == |components|
    && forall i :: 0 <= i < |plans| ==> FastestOne(components[i], plans[i])
  }

  ghost predicate FastestOne(c: Component, p: ComponentPlan) {
    p.uuid == c.uuid && exists k :: FirstFastest(c.profile, k) && c.profile[k].batchSize == p.batchSize
  }

  lemma {:induction false} ComponentPlansAreFastest(components: seq<Component>)
    requires forall i :: 0 <= i < |components| ==> BestProfile(components[i].profile).Some?
    ensures Fastest(components, ComponentPlans(components))
  {
    hide FirstFastest;
    if components != [] {
      var init, c := components[..|components| - 1], components[|components| - 1];
      ComponentPlansAreFastest(init);
      hide BestProfile, FastestOne;
      var p := ComponentPlan(c.uuid, BestProfile(c.profile).value.batchSize);
      OneIsFastest(c);
      assert ComponentPlans(components) == ComponentPlans(init) + [p];
      assert FastestOne(c, p);
    }
  }

  lemma OneIsFastest(c: Component)
    requires BestProfile(c.profile).Some?
    ensures FastestOne(c, ComponentPlan(c.uuid, BestProfile(c.profile).value.batchSize))
  {
    BestProfileIsFastest(c.profile);
    hide BestProfile;
    var k :| FirstFastest(c.profile, k) && c.profile[k] == BestProfile(c.profile).value;
  }

  // ---- Tables whose plans are all as they were made -----------------------------------------------

  predicate AsMade(cat: Catalog, m: string, plans: seq<BackendPlan>) {
    forall k :: 0 <= k < |plans| ==> plans[k] == NewBackendPlan(cat, m, plans[k].backend)
  }

  predicate AllAsMade(cat: Catalog, plans: seq<CModelPlan>) {
    forall j :: 0 <= j < |plans| ==> AsMade(cat, plans[j].model, plans[j].backends)
  }

  predicate Configured(cat: Catalog, t: Table) {
    forall i :: 0 <= i < |t| ==> AllAsMade(cat, t[i].models)
  }

  // ---- Steps that only take away ----------------------------------------------------------------------

  lemma {:induction false} StripAsMade(cat: Catalog, m: string, plans: seq<BackendPlan>, gone: set<string>)
    requires AsMade(cat, m, plans)
    ensures AsMade(cat, m, Strip(plans, gone))
  {
    if plans != [] {
      StripAsMade(cat, m, plans[..|plans| - 1], gone);
    }
  }

  lemma {:induction false} ExpirePlansAsMade(cat: Catalog, plans: seq<CModelPlan>, gone: set<string>)
    requires AllAsMade(cat, plans)
    ensures AllAsMade(cat, ExpirePlans(plans, gone))
  {
    if plans != [] {
      ExpirePlansAsMade(cat, plans[..|plans| - 1], gone);
      var p := plans[|plans| - 1];
      StripAsMade(cat, p.model, p.backends, gone);
    }
  }

  lemma {:induction false} ExpireConfigured(cat: Catalog, t: Table, gone: set<string>)
    requires Configured(cat, t)
    ensures Configured(cat, Expire(t, gone))
  {
    if t != [] {
      ExpireConfigured(cat, t[..|t| - 1], gone);
      ExpirePlansAsMade(cat, t[|t| - 1].models, gone);
    }
  }

  lemma {:induction false} RemoveConfigured(cat: Catalog, t: Table, m: string, b: string)
    requires Configured(cat, t)
    ensures Configured(cat, Remove(t, m, b))
  {
    if t != [] {
      RemoveConfigured(cat, t[..|t| - 1], m, b);
      var e := t[|t| - 1];
      assert AllAsMade(cat, e.models);
      var j := FirstPlan(e.models, m);
      if j < |e.models| {
        StripAsMade(cat, e.models[j].model, e.models[j].backends, {b});
      }
    }
  }

  lemma {:induction false} UndeployAllConfigured(cat: Catalog, p: Pool, pairs: seq<(string, string)>)
    requires Configured(cat, p.table)
    ensures Configured(cat, UndeployAll(p, cat, pairs).table)
  {
    if pairs != [] {
      var init, last := pairs[..|pairs| - 1], pairs[|pairs| - 1];
      UndeployAllConfigured(cat, p, init);
      RemoveConfigured(cat, UndeployAll(p, cat, init).table, last.0, last.1);
    }
  }

  lemma {:induction false} RemoveSessionsConfigured(cat: Catalog, p: Pool, ss: seq<string>)
    requires Configured(cat, p.table)
    ensures Configured(cat, RemoveSessions(p, cat, ss).table)
  {
    if ss != [] {
      var q, s := RemoveSessions(p, cat, ss[..|ss| - 1]), ss[|ss| - 1];
      RemoveSessionsConfigured(cat, p, ss[..|ss| - 1]);
      var i := IndexOf(q.table, s);
      var pairs := if i < |q.table| then SessionLonePairs(q.table, s, q.table[i].models) else [];
      UndeployAllConfigured(cat, q, pairs);
      DropSessionEntries(UndeployAll(q, cat, pairs).table, s);
    }
  }

  // ---- Steps that add or copy ---------------------------------------------------------------------------

  lemma AddPlanConfigured(cat: Catalog, t: Table, s: string, m: string, b: string)
    requires Configured(cat, t)
    ensures Configured(cat, AddPlan(t, s, m, NewBackendPlan(cat, m, b)))
  {
    var i := IndexOf(t, s);
    if i < |t| {
      assert AllAsMade(cat, t[i].models);
    }
  }

  lemma {:induction false} AddPlansConfigured(cat: Catalog, t: Table, ss: seq<string>, m: string, b: string)
    requires Configured(cat, t)
    ensures Configured(cat, AddPlans(t, ss, m, NewBackendPlan(cat, m, b)))
  {
    hide Configured;
    if ss != [] {
      var init := ss[..|ss| - 1];
      AddPlansConfigured(cat, t, init, m, b);
      AddPlanConfigured(cat, AddPlans(t, init, m, NewBackendPlan(cat, m, b)), ss[|ss| - 1], m, b);
    }
  }

  lemma DeployConfigured(cat: Catalog, p: Pool, m: string, ss: seq<string>)
    requires Configured(cat, p.table)
    ensures Configured(cat, Deploy(p, cat, m, ss).0.table)
  {
    hide Configured, Choose;
    if Choose(p, cat, m).Some? {
      AddPlansConfigured(cat, p.table, ss, m, Choose(p, cat, m).value.name);
    }
  }

  lemma PlansOfAsMade(cat: Catalog, t: Table, m: string)
    requires Configured(cat, t)
    ensures AllAsMade(cat, PlansOf(t, m))
  {
    PlansOfExact(t, m);
    var plans := PlansOf(t, m);
    forall j | 0 <= j < |plans| ensures AsMade(cat, plans[j].model, plans[j].backends) {
      assert plans[j] in plans;
      var i :| 0 <= i < |t| && plans[j] in t[i].models;
      assert AllAsMade(cat, t[i].models);
    }
  }

  lemma {:induction false} DeployModelsConfigured(cat: Catalog, p: Pool, models: seq<CModel>, ss: seq<string>)
    requires Configured(cat, p.table)
    ensures var g := DeployModels(p, cat, models, ss);
            Configured(cat, g.pool.table) && AllAsMade(cat, g.shared)
  {
    hide Configured, AsMade, Deploy;
    if models != [] {
      var init, m := models[..|models| - 1], models[|models| - 1].uuid;
      DeployModelsConfigured(cat, p, init, ss);
      var g := DeployModels(p, cat, init, ss);
      DeployConfigured(cat, g.pool, m, ss);
      PlansOfAsMade(cat, g.pool.table, m);
    }
  }

  lemma {:induction false} ShareConfigured(cat: Catalog, t: Table, ss: seq<string>, plans: seq<CModelPlan>)
    requires Configured(cat, t) && AllAsMade(cat, plans)
    ensures Configured(cat, Share(t, ss, plans))
  {
    if ss != [] {
      var r, s := Share(t, ss[..|ss| - 1], plans), ss[|ss| - 1];
      ShareConfigured(cat, t, ss[..|ss| - 1], plans);
      var i := IndexOf(r, s);
      if i < |r| {
        assert AllAsMade(cat, r[i].models);
      }
    }
  }

  lemma {:induction false} DeployPipelinesConfigured(cat: Catalog, p: Pool, pipes: map<string, Pipeline>,
                                                     reqs: seq<Request>, todo: seq<string>)
    requires Configured(cat, p.table)
    ensures Configured(cat, DeployPipelines(p, cat, pipes, reqs, todo).table)
  {
    hide Configured, AllAsMade, Share, UndeployAll, DeployModels;
    if todo != [] {
      var init, u := todo[..|todo| - 1], todo[|todo| - 1];
      DeployPipelinesConfigured(cat, p, pipes, reqs, init);
      var q := DeployPipelines(p, cat, pipes, reqs, init);
      var g := DeployModels(q, cat, ModelsOf(pipes, u), SessionsOf(reqs, u));
      DeployModelsConfigured(cat, q, ModelsOf(pipes, u), SessionsOf(reqs, u));
      ShareConfigured(cat, g.pool.table, SessionsOf(reqs, u), g.shared);
      UndeployAllConfigured(cat, g.pool, g.deployed);
    }
  }

  lemma {:induction false} MergeAsMade(cat: Catalog, m: string, into: seq<BackendPlan>, plans: seq<BackendPlan>)
    requires AsMade(cat, m, into) && AsMade(cat, m, plans)
    ensures AsMade(cat, m, Merge(into, plans))
  {
    if plans != [] {
      MergeAsMade(cat, m, into, plans[..|plans| - 1]);
    }
  }

  lemma {:induction false} MergeAllAsMade(cat: Catalog, m: string, plans: seq<CModelPlan>)
    requires AllAsMade(cat, plans) && forall j :: 0 <= j < |plans| ==> plans[j].model == m
    ensures AsMade(cat, m, MergeAll(plans))
  {
    if plans != [] {
      MergeAllAsMade(cat, m, plans[..|plans| - 1]);
      MergeAsMade(cat, m, MergeAll(plans[..|plans| - 1]), plans[|plans| - 1].backends);
    }
  }

  lemma {:induction false} BorrowAsMade(cat: Catalog, t: Table, s: string, models: seq<CModel>)
    requires Configured(cat, t)
    ensures AllAsMade(cat, BorrowPlans(t, s, models))
  {
    if models != [] {
      hide Configured, AsMade;
      var m := models[|models| - 1].uuid;
      BorrowAsMade(cat, t, s, models[..|models| - 1]);
      PlansOfAsMade(cat, t, m);
      PlansOfExact(t, m);
      assert forall j :: 0 <= j < |PlansOf(t, m)| ==> PlansOf(t, m)[j] in PlansOf(t, m);
      MergeAllAsMade(cat, m, PlansOf(t, m));
    }
  }

  lemma {:induction false} AssignConfigured(cat: Catalog, t: Table, reqs: seq<Request>)
    requires Configured(cat, t)
    ensures Configured(cat, Assign(t, reqs))
  {
    if reqs != [] {
      var r, q := Assign(t, reqs[..|reqs| - 1]), reqs[|reqs| - 1];
      AssignConfigured(cat, t, reqs[..|reqs| - 1]);
      BorrowAsMade(cat, r, q.session, q.pipeline.models);
    }
  }

  // ---- Scaling, and a whole call ---------------------------------------------------------------------------

  lemma {:induction false} ScaleDownConfigured(cat: Catalog, p: Pool, m: string, delta: nat)
    requires Configured(cat, p.table)
    ensures Configured(cat, ScaleDown(p, cat, m, delta).table)
  {
    hide Configured, FirstHost;
    if delta > 0 {
      ScaleDownConfigured(cat, p, m, delta - 1);
      var q := ScaleDown(p, cat, m, delta - 1);
      if FirstHost(q.table, m).Some? {
        RemoveConfigured(cat, q.table, m, FirstHost(q.table, m).value);
      }
    }
  }

  lemma {:induction false} ScaleUpConfigured(cat: Catalog, p: Pool, m: string, ss: seq<string>, delta: nat)
    requires Configured(cat, p.table)
    ensures Configured(cat, ScaleUp(p, cat, m, ss, delta).0.table)
  {
    hide Configured, Deploy;
    if delta > 0 {
      ScaleUpConfigured(cat, p, m, ss, delta - 1);
      DeployConfigured(cat, ScaleUp(p, cat, m, ss, delta - 1).0, m, ss);
    }
  }

  lemma {:induction false} ScaleAllConfigured(cat: Catalog, p: Pool, t: Table, reqs: seq<Request>, models: seq<string>)
    requires Configured(cat, p.table)
    ensures Configured(cat, ScaleAll(p, cat, t, reqs, models).table)
  {
    hide Configured, ScaleDown, ScaleUp, Hosts, PlansOf, SessionsWith, Target;
    if models != [] {
      var init, m := models[..|models| - 1], models[|models| - 1];
      ScaleAllConfigured(cat, p, t, reqs, init);
      var q := ScaleAll(p, cat, t, reqs, init);
      var have, want := |Hosts(t, m)|, Target(cat, reqs, m);
      if have > want {
        ScaleDownConfigured(cat, q, m, if want >= 0 then have - want else have);
      } else {
        ScaleUpConfigured(cat, q, m, SessionsWith(t, m), want - have);
      }
    }
  }

  lemma ScheduleConfigured(cat: Catalog, p: Pool, pipes: map<string, Pipeline>, gone: set<string>, reqs: seq<Request>)
    requires Configured(cat, p.table)
    ensures Configured(cat, Schedule(p, cat, pipes, gone, reqs).table)
  {
    hide Configured, Expire, RemoveSessions, Unused, DeployPipelines, ToAdd, Assign, ScaleAll, Wanted;
    ExpireConfigured(cat, p.table, gone);
    var e := p.(table := Expire(p.table, gone));
    RemoveSessionsConfigured(cat, e, Unused(e.table, reqs));
    var q := Prune(p, cat, gone, reqs);
    DeployPipelinesConfigured(cat, q, pipes, reqs, ToAdd(q.table, reqs));
    var d := DeployPipelines(q, cat, pipes, reqs, ToAdd(q.table, reqs));
    AssignConfigured(cat, d.table, reqs);
    var a := d.(table := Assign(d.table, reqs));
    ScaleAllConfigured(cat, a, a.table, reqs, Wanted(reqs));
  }

  /** Over every run, even one in which plans are shared: whatever backend runs a model is told to run
    * its components at their fastest profile. */
  lemma {:induction false} EveryRunIsConfigured(w: World, calls: seq<Call>)
    ensures Configured(w.cat, After(w, calls))
  {
    if calls != [] {
      hide Configured, Schedule;
      var init, c := calls[..|calls| - 1], calls[|calls| - 1];
      EveryRunIsConfigured(w, init);
      ScheduleConfigured(w.cat, Pool(After(w, init), c.backends), w.pipes, LastNames(init) - BackendNames(c.backends), c.reqs);
    }
  }

  /** The catalogue of a call says the same of the models in the table as the one of all calls. */
  lemma ConfiguredInPart(v: World, w: World, live: set<string>, t: Table)
    requires PartOf(v, w) && WorldOk(v) && Inv(v, live, t)
    ensures Configured(v.cat, t) <==> Configured(w.cat, t)
  {
    forall i, j | 0 <= i < |t| && 0 <= j < |t[i].models|
      ensures t[i].models[j].model in v.cat && v.cat[t[i].models[j].model] == w.cat[t[i].models[j].model]
    {
      assert EntryFits(v, live, t[i]);
      PlannedIsRegistered(v, live, t[i], j);
    }
    forall i | 0 <= i < |t| ensures AllAsMade(v.cat, t[i].models) <==> AllAsMade(w.cat, t[i].models) {
      forall j | 0 <= j < |t[i].models|
        ensures AsMade(v.cat, t[i].models[j].model, t[i].models[j].backends) <==> AsMade(w.cat, t[i].models[j].model, t[i].models[j].backends)
      {
      }
    }
  }

  lemma PlannedIsRegistered(w: World, live: set<string>, e: SessionPlans, j: nat)
    requires WorldOk(w) && EntryFits(w, live, e) && j < |e.models|
    ensures e.models[j].model in w.cat && Profiled(w.cat[e.models[j].model])
  {
    var m := e.models[j].model;
    var models := KeyModels(w, e.session);
    assert HasModel(models, m);
    var k :| 0 <= k < |models| && models[k].uuid == m;
    assert Registered(w, models[k]);
  }

  /** What the messages say: every model entry has the components of that model, each at its fastest
    * profile. */
  lemma MessagesAreFastest(w: World, live: set<string>, t: Table, groups: seq<BackendGroup>)
    requires WorldOk(w) && Inv(w, live, t) && Configured(w.cat, t) && AllFrom(groups, AllPlans(t))
    ensures forall i, j :: 0 <= i < |groups| && 0 <= j < |groups[i].models| ==>
              && groups[i].models[j].model in w.cat
              && Fastest(w.cat[groups[i].models[j].model].components, groups[i].models[j].components)
  {
    forall i, j | 0 <= i < |groups| && 0 <= j < |groups[i].models|
      ensures && groups[i].models[j].model in w.cat
              && Fastest(w.cat[groups[i].models[j].model].components, groups[i].models[j].components)
    {
      assert GroupFrom(groups[i], AllPlans(t));
      SourceIsFastest(w, live, t, groups[i].backend, groups[i].models[j].model, groups[i].models[j].components);
    }
  }

  lemma SourceIsFastest(w: World, live: set<string>, t: Table, b: string, m: string, components: seq<ComponentPlan>)
    requires WorldOk(w) && Inv(w, live, t) && Configured(w.cat, t) && IsSource(AllPlans(t), b, m, components)
    ensures m in w.cat && Fastest(w.cat[m].components, components)
  {
    var plans := AllPlans(t);
    var n, k :| 0 <= n < |plans| && 0 <= k < |plans[n].backends| && plans[n].model == m && plans[n].backends[k] == BackendPlan(b, components);
    AllPlansExact(t);
    assert plans[n] in plans;
    var i :| 0 <= i < |t| && plans[n] in t[i].models;
    var j :| 0 <= j < |t[i].models| && t[i].models[j] == plans[n];
    assert AllAsMade(w.cat, t[i].models) && AsMade(w.cat, m, plans[n].backends);
    PlannedIsRegistered(w, live, t[i], j);
    ComponentPlansAreFastest(w.cat[m].components);
  }
}
