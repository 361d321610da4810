/** The plans of a call, kept per session, turned into one message per backend. */
module Regrouping {
  import opened Ids
  import opened PolicyModel
  import opened PolicyTables
  import opened Pairs

  datatype ModelGroup = ModelGroup(model: string, sessions: seq<string>, components: seq<ComponentPlan>)
  datatype BackendGroup = BackendGroup(backend: string, models: seq<ModelGroup>, dutyCycles: seq<real>)

  /** A session served by a model on a backend. */
  type Placement = (string, string, string)

  // ---- What per-session plans and per-backend groups say ---------------------------------

  function BackendPlacements(m: string, s: string, plans: seq<BackendPlan>): multiset<Placement> {
    if plans == [] then multiset{}
    else BackendPlacements(m, s, plans[..|plans| - 1]) + multiset{(plans[|plans| - 1].backend, m, s)}
  }

  /** Every placement in the plans, with the session id as backends know it. */
  function Placements(plans: seq<CModelPlan>): multiset<Placement> {
    if plans == [] then multiset{}
    else
      var p := plans[|plans| - 1];
      Placements(plans[..|plans| - 1]) + BackendPlacements(p.model, LastSegment(p.session), p.backends)
  }

  function SessionsListed(b: string, m: string, sessions: seq<string>): multiset<Placement> {
    if sessions == [] then multiset{}
    else SessionsListed(b, m, sessions[..|sessions| - 1]) + multiset{(b, m, sessions[|sessions| - 1])}
  }

  function ModelsListed(b: string, models: seq<ModelGroup>): multiset<Placement> {
    if models == [] then multiset{}
    else
      var g := models[|models| - 1];
      ModelsListed(b, models[..|models| - 1]) + SessionsListed(b, g.model, g.sessions)
  }

  function Listed(groups: seq<BackendGroup>): multiset<Placement> {
    if groups == [] then multiset{}
    else
      var g := groups[|groups| - 1];
      Listed(groups[..|groups| - 1]) + ModelsListed(g.backend, g.models)
  }

  function SessionCount(models: seq<ModelGroup>): nat {
    if models == [] then 0 else SessionCount(models[..|models| - 1]) + |models[|models| - 1].sessions|
  }

  /** One group per backend, each with one entry per model, each entry with a session, and as
    * many duty cycles as there are sessions. */
  predicate Grouped(groups: seq<BackendGroup>) {
    && (forall i, j :: 0 <= i < j < |groups| ==> groups[i].backend != groups[j].backend)
    && forall i :: 0 <= i < |groups| ==> GroupOk(groups[i])
  }

  predicate ModelsOk(models: seq<ModelGroup>) {
    && (forall i, j :: 0 <= i < j < |models| ==> models[i].model != models[j].model)
    && forall j :: 0 <= j < |models| ==> models[j].sessions != []
  }

  predicate GroupOk(g: BackendGroup) {
    && g.models != []
    && ModelsOk(g.models)
    && |g.dutyCycles| == SessionCount(g.models)
    && forall k :: 0 <= k < |g.dutyCycles| ==> g.dutyCycles[k] == 1.0
  }

  /** Some plan has the model on the backend with these components. */
  predicate IsSource(plans: seq<CModelPlan>, b: string, m: string, components: seq<ComponentPlan>) {
    exists i, k :: 0 <= i < |plans| && 0 <= k < |plans[i].backends| && plans[i].model == m && plans[i].backends[k] == BackendPlan(b, components)
  }

  predicate GroupFrom(g: BackendGroup, plans: seq<CModelPlan>) {
    forall j :: 0 <= j < |g.models| ==> IsSource(plans, g.backend, g.models[j].model, g.models[j].components)
  }

  /** Every entry has the components of some plan for its model and backend. */
  predicate AllFrom(groups: seq<BackendGroup>, plans: seq<CModelPlan>) {
    forall i :: 0 <= i < |groups| ==> GroupFrom(groups[i], plans)
  }

  // ---- Changing one place -----------------------------------------------------------------------

  lemma ListOneMore(b: string, m: string, sessions: seq<string>, s: string)
    ensures SessionsListed(b, m, sessions + [s]) == SessionsListed(b, m, sessions) + multiset{(b, m, s)}
  {
    assert (sessions + [s])[..|sessions|] == sessions;
  }

  lemma {:induction false} UpdateModel(b: string, models: seq<ModelGroup>, j: nat, g: ModelGroup, extra: multiset<Placement>)
    requires j < |models| && |g.sessions| == |models[j].sessions| + 1
    requires SessionsListed(b, g.model, g.sessions) == SessionsListed(b, models[j].model, models[j].sessions) + extra
    ensures ModelsListed(b, models[j := g]) == ModelsListed(b, models) + extra
    ensures SessionCount(models[j := g]) == SessionCount(models) + 1
  {
    hide SessionsListed;
    var init := models[..|models| - 1];
    if j < |init| {
      UpdateModel(b, init, j, g, extra);
      assert models[j := g][..|models| - 1] == init[j := g];
    } else {
      assert models[j := g][..|models| - 1] == init;
    }
  }

  lemma AppendModel(b: string, models: seq<ModelGroup>, g: ModelGroup, s: string)
    requires g.sessions == [s]
    ensures ModelsListed(b, models + [g]) == ModelsListed(b, models) + multiset{(b, g.model, s)}
    ensures SessionCount(models + [g]) == SessionCount(models) + 1
  {
    assert (models + [g])[..|models|] == models;
    assert [s][..0] == [];
    assert SessionsListed(b, g.model, [s]) == multiset{(b, g.model, s)};
  }

  lemma {:induction false} UpdateGroup(groups: seq<BackendGroup>, i: nat, g: BackendGroup, extra: multiset<Placement>)
    requires i < |groups|
    requires ModelsListed(g.backend, g.models) == ModelsListed(groups[i].backend, groups[i].models) + extra
    ensures Listed(groups[i := g]) == Listed(groups) + extra
  {
    hide ModelsListed;
    var init := groups[..|groups| - 1];
    if i < |init| {
      UpdateGroup(init, i, g, extra);
      assert groups[i := g][..|groups| - 1] == init[i := g];
    } else {
      assert groups[i := g][..|groups| - 1] == init;
    }
  }

  // ---- The conversion ---------------------------------------------------------------------------------

  method FindGroup(groups: seq<BackendGroup>, b: string) returns (i: nat)
    ensures i <= |groups|
    ensures i < |groups| ==> groups[i].backend == b
    ensures i == |groups| ==> forall k :: 0 <= k < |groups| ==> groups[k].backend != b
  {
    i := 0;
    while i < |groups| && groups[i].backend != b
      invariant i <= |groups|
      invariant forall k :: 0 <= k < i ==> groups[k].backend != b
    {
      i := i + 1;
    }
  }

  /** Looks through all entries: the last match counts. */
  method FindModel(models: seq<ModelGroup>, m: string) returns (at: nat)
    ensures at <= |models|
    ensures at < |models| ==> models[at].model == m
    ensures at == |models| ==> forall k :: 0 <= k < |models| ==> models[k].model != m
  {
    at := |models|;
    for k := 0 to |models|
      invariant at == |models| || at < k
      invariant at < |models| ==> models[at].model == m
      invariant at == |models| ==> forall l :: 0 <= l < k ==> models[l].model != m
    {
      if models[k].model == m {
        at := k;
      }
    }
  }

  /** One more session of a model in a backend's group. */
  method AddSession(g: BackendGroup, m: string, s: string, components: seq<ComponentPlan>, ghost all: seq<CModelPlan>)
    returns (r: BackendGroup)
    requires GroupFrom(g, all) && IsSource(all, g.backend, m, components)
    requires g.models == [] ==> g.dutyCycles == []
    requires g.models != [] ==> GroupOk(g)
    ensures GroupOk(r) && r.backend == g.backend && GroupFrom(r, all)
    ensures ModelsListed(r.backend, r.models) == ModelsListed(g.backend, g.models) + multiset{(g.backend, m, s)}
  {
    hide ModelsListed, SessionsListed, SessionCount, IsSource;
    var at := FindModel(g.models, m);
    if at == |g.models| {
      NothingCounted();
      AppendModel(g.backend, g.models, ModelGroup(m, [s], components), s);
      r := g.(models := g.models + [ModelGroup(m, [s], components)], dutyCycles := g.dutyCycles + [1.0]);
    } else {
      var e := g.models[at].(sessions := g.models[at].sessions + [s]);
      ListOneMore(g.backend, m, g.models[at].sessions, s);
      UpdateModel(g.backend, g.models, at, e, multiset{(g.backend, m, s)});
      r := g.(models := g.models[at := e], dutyCycles := g.dutyCycles + [1.0]);
    }
  }

  lemma NothingCounted()
    ensures SessionCount([]) == 0
  {
  }

  method Place(groups: seq<BackendGroup>, m: string, s: string, bp: BackendPlan, ghost all: seq<CModelPlan>) returns (r: seq<BackendGroup>)
    requires Grouped(groups) && AllFrom(groups, all) && IsSource(all, bp.backend, m, bp.components)
    ensures Grouped(r) && AllFrom(r, all)
    ensures Listed(r) == Listed(groups) + multiset{(bp.backend, m, s)}
  {
    hide GroupOk, ModelsListed, Listed, IsSource, GroupFrom;
    var i := FindGroup(groups, bp.backend);
    if i == |groups| {
      NewGroup(bp.backend, all);
      var g := AddSession(BackendGroup(bp.backend, [], []), m, s, bp.components, all);
      AppendGroup(groups, g, multiset{(bp.backend, m, s)});
      r := groups + [g];
    } else {
      GroupIsOk(groups, i);
      var g := AddSession(groups[i], m, s, bp.components, all);
      UpdateGroup(groups, i, g, multiset{(bp.backend, m, s)});
      r := groups[i := g];
    }
  }

  lemma GroupIsOk(groups: seq<BackendGroup>, i: nat)
    requires Grouped(groups) && i < |groups|
    ensures GroupOk(groups[i]) && groups[i].models != []
  {
  }

  lemma NewGroup(b: string, all: seq<CModelPlan>)
    ensures ModelsListed(b, []) == multiset{} && GroupFrom(BackendGroup(b, [], []), all)
  {
  }

  lemma AppendGroup(groups: seq<BackendGroup>, g: BackendGroup, extra: multiset<Placement>)
    requires ModelsListed(g.backend, g.models) == extra
    ensures Listed(groups + [g]) == Listed(groups) + extra
  {
    assert (groups + [g])[..|groups|] == groups;
  }

  method PlaceAll(groups: seq<BackendGroup>, m: string, s: string, plans: seq<BackendPlan>, ghost all: seq<CModelPlan>)
    returns (r: seq<BackendGroup>)
    requires Grouped(groups) && AllFrom(groups, all)
    requires forall k :: 0 <= k < |plans| ==> IsSource(all, plans[k].backend, m, plans[k].components)
    ensures Grouped(r) && AllFrom(r, all)
    ensures Listed(r) == Listed(groups) + BackendPlacements(m, s, plans)
  {
    hide Grouped, Listed, AllFrom, IsSource;
    r := groups;
    for k := 0 to |plans|
      invariant Grouped(r) && AllFrom(r, all)
      invariant Listed(r) == Listed(groups) + BackendPlacements(m, s, plans[..k])
    {
      assert plans[..k + 1][..k] == plans[..k];
      r := Place(r, m, s, plans[k], all);
    }
    assert plans[..|plans|] == plans;
  }

  /** Regrouping loses and adds nothing: the placements listed per backend are those of the plans,
    * with the same multiplicity, and each entry has the components of such a plan. */
  method Regroup(plans: seq<CModelPlan>) returns (groups: seq<BackendGroup>)
    ensures Grouped(groups) && AllFrom(groups, plans)
    ensures Listed(groups) == Placements(plans)
  {
    hide GroupOk, BackendPlacements, ModelsListed;
    groups := [];
    for i := 0 to |plans|
      invariant Grouped(groups) && AllFrom(groups, plans)
      invariant Listed(groups) == Placements(plans[..i])
    {
      assert plans[..i + 1][..i] == plans[..i];
      forall k | 0 <= k < |plans[i].backends|
        ensures IsSource(plans, plans[i].backends[k].backend, plans[i].model, plans[i].backends[k].components)
      {
        assert plans[i].backends[k] == BackendPlan(plans[i].backends[k].backend, plans[i].backends[k].components);
      }
      groups := PlaceAll(groups, plans[i].model, LastSegment(plans[i].session), plans[i].backends, plans);
    }
    assert plans[..|plans|] == plans;
  }

  // ---- What a backend makes of its group -----------------------------------------------------------

  lemma {:induction false} EnoughCycles(models: seq<ModelGroup>)
    requires forall j :: 0 <= j < |models| ==> models[j].sessions != []
    ensures SessionCount(models) >= |models|
  {
    if models != [] {
      EnoughCycles(models[..|models| - 1]);
    }
  }

  /** Pairing a group's models with its duty cycles drops no model. */
  lemma NothingDropped(g: BackendGroup)
    requires GroupOk(g)
    ensures |Zip(g.models, g.dutyCycles)| == |g.models|
    ensures forall k :: 0 <= k < |g.models| ==> Zip(g.models, g.dutyCycles)[k].0 == g.models[k]
  {
    EnoughCycles(g.models);
    ZipExact(g.models, g.dutyCycles);
  }

  // ---- Placements and the table of plans --------------------------------------------------------------

  function AllPlans(t: Table): seq<CModelPlan> {
    if t == [] then [] else AllPlans(t[..|t| - 1]) + t[|t| - 1].models
  }

  lemma {:induction false} BackendPlacementsExact(m: string, s: string, plans: seq<BackendPlan>)
    ensures forall x :: x in BackendPlacements(m, s, plans) <==> x.0 in Names(plans) && x.1 == m && x.2 == s
  {
    if plans != [] {
      var init, p := plans[..|plans| - 1], plans[|plans| - 1];
      BackendPlacementsExact(m, s, init);
      assert plans == init + [p];
      NamesSnoc(init, p);
    }
  }

  predicate Places(p: CModelPlan, x: Placement) {
    p.model == x.1 && LastSegment(p.session) == x.2 && x.0 in Names(p.backends)
  }

  /** A placement is listed exactly if some plan makes it. */
  lemma {:induction false} PlacementsExact(plans: seq<CModelPlan>, x: Placement)
    ensures x in Placements(plans) <==> exists p :: p in plans && Places(p, x)
  {
    hide Places, BackendPlacements;
    if plans != [] {
      var init, p := plans[..|plans| - 1], plans[|plans| - 1];
      assert plans == init + [p];
      PlacementsExact(init, x);
      PlacesExact(p, x);
    }
  }

  lemma PlacesExact(p: CModelPlan, x: Placement)
    ensures x in BackendPlacements(p.model, LastSegment(p.session), p.backends) <==> Places(p, x)
  {
    BackendPlacementsExact(p.model, LastSegment(p.session), p.backends);
  }

  lemma {:induction false} AllPlansExact(t: Table)
    ensures forall p :: p in AllPlans(t) <==> exists i :: 0 <= i < |t| && p in t[i].models
  {
    if t != [] {
      var init, e := t[..|t| - 1], t[|t| - 1];
      AllPlansExact(init);
      forall p ensures p in AllPlans(t) <==> exists i :: 0 <= i < |t| && p in t[i].models {
        if p in AllPlans(init) {
          var i :| 0 <= i < |init| && p in init[i].models;
          assert p in t[i].models;
        }
        if p in e.models {
          assert p in t[|t| - 1].models;
        }
      }
    }
  }

  /** A model is listed for a backend exactly if it runs there. */
  lemma ListedIsRuns(t: Table, m: string, b: string)
    ensures (exists s :: (b, m, s) in Placements(AllPlans(t))) <==> Runs(t, m, b)
  {
    hide LastSegment, Names, Placements;
    AllPlansExact(t);
    if s :| (b, m, s) in Placements(AllPlans(t)) {
      PlacementsExact(AllPlans(t), (b, m, s));
      var p :| p in AllPlans(t) && Places(p, (b, m, s));
      var i :| 0 <= i < |t| && p in t[i].models;
      assert EntryRuns(t[i], m, b);
    }
    if Runs(t, m, b) {
      var i :| 0 <= i < |t| && EntryRuns(t[i], m, b);
      var j :| 0 <= j < |t[i].models| && t[i].models[j].model == m && b in Names(t[i].models[j].backends);
      var p := t[i].models[j];
      var x := (b, m, LastSegment(p.session));
      assert p in AllPlans(t) && Places(p, x);
      PlacementsExact(AllPlans(t), x);
    }
  }
}
