/** What holds of the plans between any two calls, and which steps keep it. */
module PolicyInvariants {
  import opened Ids
  import opened Options
  import opened PolicyModel
  import opened PolicyTables
  import opened PolicyGrowth

  /** What stays fixed over a run: the registered pipelines, the registered models, and which
    * backends have a GPU. */
  datatype World = World(pipes: map<string, Pipeline>, cat: Catalog, gpu: set<string>)

  predicate DistinctModelIds(models: seq<CModel>) {
    forall i, j :: 0 <= i < j < |models| ==> models[i].uuid != models[j].uuid
  }

  predicate Registered(w: World, c: CModel) {
    c.uuid in w.cat && w.cat[c.uuid] == c
  }

  predicate WorldOk(w: World) {
    && (forall u :: u in w.pipes ==>
          && w.pipes[u].uuid == u
          && NoUnderscore(u)
          && w.pipes[u].models != []
          && DistinctModelIds(w.pipes[u].models)
          && forall k :: 0 <= k < |w.pipes[u].models| ==> Registered(w, w.pipes[u].models[k]))
    && forall m :: m in w.cat ==> w.cat[m].uuid == m && NoUnderscore(m) && Profiled(w.cat[m])
  }

  /** The models of the pipeline a session key belongs to. */
  function KeyModels(w: World, key: string): seq<CModel> {
    ModelsOf(w.pipes, FirstSegment(key))
  }

  predicate RightKind(w: World, m: string, b: string) {
    b in w.gpu <==> Need(w.cat, m) > 0.0
  }

  /** The backends of a plan are current ones, with a GPU exactly if the model needs one. */
  predicate PlanFits(w: World, live: set<string>, p: CModelPlan) {
    Names(p.backends) <= live && forall b :: b in Names(p.backends) ==> RightKind(w, p.model, b)
  }

  predicate EntryFits(w: World, live: set<string>, e: SessionPlans) {
    forall j :: 0 <= j < |e.models| ==> HasModel(KeyModels(w, e.session), e.models[j].model) && PlanFits(w, live, e.models[j])
  }

  predicate Fits(w: World, live: set<string>, t: Table) {
    forall i :: 0 <= i < |t| ==> EntryFits(w, live, t[i])
  }

  ghost predicate CpuCap(w: World, t: Table) {
    forall b :: b !in w.gpu ==> |ModelsOn(t, b)| <= MAX_MODELS_PER_BACKEND
  }

  ghost predicate Inv(w: World, live: set<string>, t: Table) {
    Shape(t) && SameHosts(t) && Fits(w, live, t) && CpuCap(w, t)
  }

  predicate AllRequested(t: Table, reqs: seq<Request>) {
    forall i :: 0 <= i < |t| ==> Requested(reqs, t[i].session)
  }

  function BackendNames(bs: seq<Backend>): set<string> {
    set i | 0 <= i < |bs| :: bs[i].name
  }

  /** The backends of a call: one entry per name, a GPU exactly where there always is one. */
  predicate BackendsOk(w: World, bs: seq<Backend>) {
    && (forall i, j :: 0 <= i < j < |bs| ==> bs[i].name != bs[j].name)
    && forall i :: 0 <= i < |bs| ==> (bs[i].gpu.Some? <==> bs[i].name in w.gpu)
  }

  predicate NoDebt(bs: seq<Backend>) {
    forall i :: 0 <= i < |bs| && bs[i].gpu.Some? ==> bs[i].gpu.value >= 0.0
  }

  /** The requests of a call, under their keys: one per key, of a registered pipeline, and
    * asking for something. */
  predicate RequestsOk(w: World, reqs: seq<Request>) {
    && (forall i, j :: 0 <= i < j < |reqs| ==> reqs[i].session != reqs[j].session)
    && forall i :: 0 <= i < |reqs| ==>
         && reqs[i].pipeline.uuid in w.pipes
         && w.pipes[reqs[i].pipeline.uuid] == reqs[i].pipeline
         && FirstSegment(reqs[i].session) == reqs[i].pipeline.uuid
         && reqs[i].fps > 0.0
  }

  lemma SubsetSize<T>(a: set<T>, b: set<T>)
    requires a <= b
    ensures |a| <= |b|
    ensures a != b ==> |a| < |b|
  {
    assert b == a + (b - a);
    if a != b {
      assert b - a != {};
    }
  }

  // ---- Steps that only take away ------------------------------------------------------

  predicate SubPlan(p: CModelPlan, plans: seq<CModelPlan>) {
    exists l :: 0 <= l < |plans| && p.model == plans[l].model && Names(p.backends) <= Names(plans[l].backends)
  }

  predicate SubEntry(e': SessionPlans, e: SessionPlans) {
    e'.session == e.session && forall j :: 0 <= j < |e'.models| ==> SubPlan(e'.models[j], e.models)
  }

  predicate SubOf(e: SessionPlans, t: Table) {
    exists k :: 0 <= k < |t| && SubEntry(e, t[k])
  }

  predicate SubTable(r: Table, t: Table) {
    forall i :: 0 <= i < |r| ==> SubOf(r[i], t)
  }

  lemma SubTableFits(w: World, live: set<string>, r: Table, t: Table, reqs: seq<Request>)
    requires SubTable(r, t)
    ensures Fits(w, live, t) ==> Fits(w, live, r)
    ensures AllRequested(t, reqs) ==> AllRequested(r, reqs)
  {
    forall i | 0 <= i < |r|
      ensures Fits(w, live, t) ==> EntryFits(w, live, r[i])
      ensures AllRequested(t, reqs) ==> Requested(reqs, r[i].session)
    {
      assert SubOf(r[i], t);
      var k :| 0 <= k < |t| && SubEntry(r[i], t[k]);
      if Fits(w, live, t) {
        SubEntryFits(w, live, r[i], t[k]);
      }
    }
  }

  lemma SubEntryFits(w: World, live: set<string>, e': SessionPlans, e: SessionPlans)
    requires SubEntry(e', e) && EntryFits(w, live, e)
    ensures EntryFits(w, live, e')
  {
    forall j | 0 <= j < |e'.models|
      ensures HasModel(KeyModels(w, e'.session), e'.models[j].model) && PlanFits(w, live, e'.models[j])
    {
      assert SubPlan(e'.models[j], e.models);
      var l :| 0 <= l < |e.models| && e'.models[j].model == e.models[l].model
               && Names(e'.models[j].backends) <= Names(e.models[l].backends);
    }
  }

  lemma FewerRunsCap(w: World, r: Table, t: Table)
    requires CpuCap(w, t)
    requires forall m, b :: Runs(r, m, b) ==> Runs(t, m, b)
    ensures CpuCap(w, r)
  {
    forall b | b !in w.gpu ensures |ModelsOn(r, b)| <= MAX_MODELS_PER_BACKEND {
      assert ModelsOn(r, b) <= ModelsOn(t, b);
      SubsetSize(ModelsOn(r, b), ModelsOn(t, b));
    }
  }

  lemma ExpireSub(t: Table, gone: set<string>)
    requires Shape(t)
    ensures SubTable(Expire(t, gone), t)
  {
    ExpireShape(t, gone);
    var r := Expire(t, gone);
    forall i | 0 <= i < |r| ensures SubOf(r[i], t) {
      assert StrippedOf(r[i], t, gone);
      var k :| 0 <= k < |t| && StrippedEntry(r[i], t[k], gone);
      forall j | 0 <= j < |r[i].models| ensures SubPlan(r[i].models[j], t[k].models) {
        assert StrippedFrom(r[i].models[j], t[k].models, gone);
        var l :| 0 <= l < |t[k].models| && r[i].models[j] == Cut(t[k].models[l], gone);
        StripNames(t[k].models[l].backends, gone);
      }
      assert SubEntry(r[i], t[k]);
    }
  }

  /** Expiry keeps the invariant, now for the backends that remain. */
  lemma ExpireInv(w: World, live: set<string>, gone: set<string>, t: Table)
    requires Inv(w, live, t)
    ensures Inv(w, live - gone, Expire(t, gone))
  {
    ExpireShape(t, gone);
    ExpireSameHosts(t, gone);
    ExpireSub(t, gone);
    var r := Expire(t, gone);
    SubTableFits(w, live, r, t, []);
    FewerRunsCap(w, r, t);
    forall i, j, b | 0 <= i < |r| && 0 <= j < |r[i].models| && b in Names(r[i].models[j].backends)
      ensures b !in gone
    {
      assert EntryRuns(r[i], r[i].models[j].model, b);
      assert Runs(r, r[i].models[j].model, b);
    }
  }

  lemma RemoveSub(t: Table, m: string, b: string)
    requires Shape(t)
    ensures SubTable(Remove(t, m, b), t)
  {
    RemoveShape(t, m, b);
    var r := Remove(t, m, b);
    forall i | 0 <= i < |r| ensures SubOf(r[i], t) {
      assert Survivor(r[i], t, m, b);
      var k :| 0 <= k < |t| && EntryWithout(t[k], m, b) == Some(r[i]);
      EntryWithoutShape(t[k], m, b);
      assert Trimmed(r[i], t[k], m, b);
      forall j | 0 <= j < |r[i].models| ensures SubPlan(r[i].models[j], t[k].models) {
        assert r[i].models[j].model == t[k].models[j].model;
      }
      assert SubEntry(r[i], t[k]);
    }
  }

  lemma RemoveInv(w: World, live: set<string>, t: Table, m: string, b: string)
    requires Inv(w, live, t)
    ensures Inv(w, live, Remove(t, m, b))
  {
    RemoveShape(t, m, b);
    RemoveSameHosts(t, m, b);
    RemoveSub(t, m, b);
    SubTableFits(w, live, Remove(t, m, b), t, []);
    FewerRunsCap(w, Remove(t, m, b), t);
  }

  lemma SubEntryRefl(e: SessionPlans)
    ensures SubEntry(e, e)
  {
    forall j | 0 <= j < |e.models| ensures SubPlan(e.models[j], e.models) {
    }
  }

  lemma DropSessionInv(w: World, live: set<string>, t: Table, s: string)
    requires Inv(w, live, t)
    ensures Inv(w, live, DropSession(t, s))
  {
    DropSessionEntries(t, s);
    DropSessionShape(t, s);
    var r := DropSession(t, s);
    forall i | 0 <= i < |r| ensures SubOf(r[i], t) {
      assert r[i] in r;
      var k :| 0 <= k < |t| && t[k] == r[i];
      SubEntryRefl(r[i]);
    }
    SubTableFits(w, live, r, t, []);
    FewerRunsCap(w, r, t);
  }

  // ---- Adding a placement --------------------------------------------------------------

  lemma GrownFits(w: World, live: set<string>, r: SessionPlans, e: SessionPlans, m: string, b: string)
    requires EntryFits(w, live, e) && Grown(r, e, m, b)
    requires b in live && RightKind(w, m, b) && HasModel(KeyModels(w, e.session), m)
    ensures EntryFits(w, live, r)
  {
    forall j | 0 <= j < |r.models|
      ensures HasModel(KeyModels(w, r.session), r.models[j].model) && PlanFits(w, live, r.models[j])
    {
      if j < |e.models| {
        assert PlanFits(w, live, e.models[j]);
      }
    }
  }

  lemma NewEntryFits(w: World, live: set<string>, s: string, m: string, bp: BackendPlan)
    requires bp.backend in live && RightKind(w, m, bp.backend) && HasModel(KeyModels(w, s), m)
    ensures EntryFits(w, live, NewEntry(s, m, bp))
  {
    NamesSnoc([], bp);
    assert [bp] == [] + [bp];
  }

  lemma AddPlansFits(w: World, live: set<string>, t: Table, ss: seq<string>, m: string, bp: BackendPlan)
    requires Shape(t) && Fits(w, live, t) && DistinctStrings(ss) && !Runs(t, m, bp.backend)
    requires bp.backend in live && RightKind(w, m, bp.backend)
    requires forall s :: s in ss ==> HasModel(KeyModels(w, s), m)
    ensures Fits(w, live, AddPlans(t, ss, m, bp))
  {
    var r := AddPlans(t, ss, m, bp);
    AddPlansTable(t, ss, m, bp);
    forall i | 0 <= i < |r| ensures EntryFits(w, live, r[i]) {
      if i >= |t| {
        NewEntryFits(w, live, r[i].session, m, bp);
      } else if t[i].session in ss {
        assert !EntryRuns(t[i], m, bp.backend);
        AddToEntryShape(t[i], m, bp);
        GrownFits(w, live, r[i], t[i], m, bp.backend);
      }
    }
  }

  lemma AddPlansCap(w: World, t: Table, ss: seq<string>, m: string, bp: BackendPlan)
    requires Shape(t) && DistinctStrings(ss) && !Runs(t, m, bp.backend) && CpuCap(w, t)
    requires bp.backend !in w.gpu ==> |ModelsOn(t, bp.backend)| < MAX_MODELS_PER_BACKEND
    ensures CpuCap(w, AddPlans(t, ss, m, bp))
  {
    var r := AddPlans(t, ss, m, bp);
    AddPlansShape(t, ss, m, bp);
    forall b | b !in w.gpu ensures |ModelsOn(r, b)| <= MAX_MODELS_PER_BACKEND {
      if b == bp.backend {
        SubsetSize(ModelsOn(r, b), ModelsOn(t, b) + {m});
      } else {
        SubsetSize(ModelsOn(r, b), ModelsOn(t, b));
      }
    }
  }

  lemma AddPlansInv(w: World, live: set<string>, t: Table, ss: seq<string>, m: string, bp: BackendPlan)
    requires Inv(w, live, t) && DistinctStrings(ss) && !Runs(t, m, bp.backend) && ServesAll(t, ss, m)
    requires bp.backend in live && RightKind(w, m, bp.backend)
    requires bp.backend !in w.gpu ==> |ModelsOn(t, bp.backend)| < MAX_MODELS_PER_BACKEND
    requires forall s :: s in ss ==> HasModel(KeyModels(w, s), m)
    ensures Inv(w, live, AddPlans(t, ss, m, bp))
  {
    AddPlansShape(t, ss, m, bp);
    AddPlansSameHosts(t, ss, m, bp);
    AddPlansFits(w, live, t, ss, m, bp);
    AddPlansCap(w, t, ss, m, bp);
  }
}
