/** What the placement policy works on, and what each of its steps computes.
  *
  * The two Python dictionaries it iterates over keep insertion order, so they are
  * sequences here: the table of plans (session key -> plans of its models) and the
  * backends of the current call.
  */
module PolicyModel {
  import opened Options

  datatype ProfileUnit = ProfileUnit(batchSize: nat, fps: real, gpuMem: real)
  datatype Component = Component(uuid: string, profile: seq<ProfileUnit>)
  datatype CModel = CModel(uuid: string, components: seq<Component>)
  datatype Pipeline = Pipeline(uuid: string, models: seq<CModel>)
  datatype Request = Request(pipeline: Pipeline, session: string, fps: real)

  /** A backend as reported for this call; `gpu` is its free GPU memory, if it has a GPU. */
  datatype Backend = Backend(name: string, gpu: Option<real>)

  datatype ComponentPlan = ComponentPlan(uuid: string, batchSize: nat)
  datatype BackendPlan = BackendPlan(backend: string, components: seq<ComponentPlan>)
  datatype CModelPlan = CModelPlan(model: string, session: string, backends: seq<BackendPlan>)
  datatype SessionPlans = SessionPlans(session: string, models: seq<CModelPlan>)

  type Table = seq<SessionPlans>
  type Catalog = map<string, CModel>

  datatype Pool = Pool(table: Table, backends: seq<Backend>)

  const MAX_MODELS_PER_BACKEND: nat := 5
  const FPS_CAP: real := 999999999999.0

  // ---- What a model costs and serves ------------------------------------------

  /** The first profile entry with the highest positive frame rate. */
  function BestProfile(p: seq<ProfileUnit>): (best: Option<ProfileUnit>)
    ensures best.Some? ==> best.value.fps > 0.0
  {
    if p == [] then None
    else
      var best, u := BestProfile(p[..|p| - 1]), p[|p| - 1];
      if u.fps > (if best.Some? then best.value.fps else 0.0) then Some(u) else best
  }

  predicate FirstFastest(p: seq<ProfileUnit>, k: int) {
    && 0 <= k < |p|
    && (forall i :: 0 <= i < |p| ==> p[i].fps <= p[k].fps)
    && forall i :: 0 <= i < k ==> p[i].fps < p[k].fps
  }

  /** None is chosen only if no entry has a positive rate; otherwise the first fastest one is. */
  lemma {:induction false} BestProfileIsFastest(p: seq<ProfileUnit>)
    ensures BestProfile(p).None? <==> forall i :: 0 <= i < |p| ==> p[i].fps <= 0.0
    ensures BestProfile(p).Some? ==> exists k :: FirstFastest(p, k) && p[k] == BestProfile(p).value
  {
    if p != [] {
      var init, u := p[..|p| - 1], p[|p| - 1];
      BestProfileIsFastest(init);
      assert forall i :: 0 <= i < |init| ==> p[i] == init[i];
      var best := BestProfile(init);
      if best.Some? && u.fps <= best.value.fps {
        var k :| FirstFastest(init, k) && init[k] == best.value;
        assert FirstFastest(p, k);
      } else if u.fps > 0.0 {
        assert FirstFastest(p, |p| - 1);
      }
    }
  }

  predicate Profiled(c: CModel) {
    forall i :: 0 <= i < |c.components| ==> BestProfile(c.components[i].profile).Some?
  }

  /** GPU memory a model needs: the sum over its components at their best profile. */
  function NeedOf(components: seq<Component>): real {
    if components == [] then 0.0
    else
      var best := BestProfile(components[|components| - 1].profile);
      NeedOf(components[..|components| - 1]) + if best.Some? then best.value.gpuMem else 0.0
  }

  function Need(cat: Catalog, m: string): real {
    if m in cat then NeedOf(cat[m].components) else 0.0
  }

  /** Memory actually taken from a backend: nothing for a model that needs none. */
  function Charge(cat: Catalog, m: string): (c: real)
    ensures c >= 0.0
  {
    if Need(cat, m) > 0.0 then Need(cat, m) else 0.0
  }

  /** Frame rate of a model: that of its slowest component, at most FPS_CAP. */
  function FpsOf(components: seq<Component>): (fps: real)
    ensures fps > 0.0
    ensures fps <= FPS_CAP
  {
    if components == [] then FPS_CAP
    else
      var best, fps := BestProfile(components[|components| - 1].profile), FpsOf(components[..|components| - 1]);
      if best.Some? && best.value.fps < fps then best.value.fps else fps
  }

  function Fps(cat: Catalog, m: string): (fps: real)
    ensures fps > 0.0
  {
    if m in cat then FpsOf(cat[m].components) else FPS_CAP
  }

  function ComponentPlans(components: seq<Component>): seq<ComponentPlan> {
    if components == [] then []
    else
      var c := components[|components| - 1];
      var best := BestProfile(c.profile);
      ComponentPlans(components[..|components| - 1])
      + [ComponentPlan(c.uuid, if best.Some? then best.value.batchSize else 0)]
  }

  function NewBackendPlan(cat: Catalog, m: string, b: string): BackendPlan {
    BackendPlan(b, if m in cat then ComponentPlans(cat[m].components) else [])
  }

  // ---- Who runs what --------------------------------------------------------------

  function Names(plans: seq<BackendPlan>): set<string> {
    set k | 0 <= k < |plans| :: plans[k].backend
  }

  predicate EntryRuns(e: SessionPlans, m: string, b: string) {
    exists j :: 0 <= j < |e.models| && e.models[j].model == m && b in Names(e.models[j].backends)
  }

  predicate Runs(t: Table, m: string, b: string) {
    exists i :: 0 <= i < |t| && EntryRuns(t[i], m, b)
  }

  /** The backends a model is placed on. */
  function Hosts(t: Table, m: string): (hosts: set<string>)
    ensures forall b :: b in hosts <==> Runs(t, m, b)
  {
    set i, j, b | 0 <= i < |t| && 0 <= j < |t[i].models| && t[i].models[j].model == m
                  && b in Names(t[i].models[j].backends) :: b
  }

  /** The models a backend runs. */
  function ModelsOn(t: Table, b: string): (models: set<string>)
    ensures forall m :: m in models <==> Runs(t, m, b)
  {
    set i, j | 0 <= i < |t| && 0 <= j < |t[i].models| && b in Names(t[i].models[j].backends) :: t[i].models[j].model
  }

  predicate HasSession(t: Table, s: string) {
    exists i :: 0 <= i < |t| && t[i].session == s
  }

  /** Position of a session's entry, or the length of the table. */
  function IndexOf(t: Table, s: string): (i: nat)
    ensures i <= |t|
    ensures i < |t| ==> t[i].session == s
    ensures forall k :: 0 <= k < i ==> t[k].session != s
  {
    if t == [] then 0
    else
      var i := IndexOf(t[..|t| - 1], s);
      if i < |t| - 1 then i else if t[|t| - 1].session == s then |t| - 1 else |t|
  }

  /** Position of the first plan for a model, or the length of the list. */
  function FirstPlan(plans: seq<CModelPlan>, m: string): (j: nat)
    ensures j <= |plans|
    ensures j < |plans| ==> plans[j].model == m
    ensures forall k :: 0 <= k < j ==> plans[k].model != m
  {
    if plans == [] then 0
    else
      var j := FirstPlan(plans[..|plans| - 1], m);
      if j < |plans| - 1 then j else if plans[|plans| - 1].model == m then |plans| - 1 else |plans|
  }

  // ---- Taking placements away -----------------------------------------------------

  function Strip(plans: seq<BackendPlan>, gone: set<string>): (r: seq<BackendPlan>)
  {
    if plans == [] then []
    else
      var r, p := Strip(plans[..|plans| - 1], gone), plans[|plans| - 1];
      if p.backend in gone then r else r + [p]
  }

  /** A plan without some backends. */
  function Cut(p: CModelPlan, gone: set<string>): CModelPlan {
    p.(backends := Strip(p.backends, gone))
  }

  /** The plans of one session without the expired backends; a plan left empty is dropped. */
  function ExpirePlans(plans: seq<CModelPlan>, gone: set<string>): seq<CModelPlan> {
    if plans == [] then []
    else
      var r, p := ExpirePlans(plans[..|plans| - 1], gone), plans[|plans| - 1];
      var p' := Cut(p, gone);
      if p'.backends == [] then r else r + [p']
  }

  /** `_remove_expired_backends` */
  function Expire(t: Table, gone: set<string>): Table {
    if t == [] then []
    else
      var r, e := Expire(t[..|t| - 1], gone), t[|t| - 1];
      var e' := e.(models := ExpirePlans(e.models, gone));
      if e'.models == [] then r else r + [e']
  }

  /** One session after a model leaves a backend. Only the first plan for the model is
    * looked at, and a session whose plan becomes empty is dropped with all its plans. */
  function EntryWithout(e: SessionPlans, m: string, b: string): Option<SessionPlans> {
    var j := FirstPlan(e.models, m);
    if j == |e.models| then Some(e)
    else
      var p := Cut(e.models[j], {b});
      if p.backends == [] then None else Some(e.(models := e.models[j := p]))
  }

  function Remove(t: Table, m: string, b: string): Table {
    if t == [] then []
    else
      var r, e := Remove(t[..|t| - 1], m, b), EntryWithout(t[|t| - 1], m, b);
      if e.Some? then r + [e.value] else r
  }

  /** Whether a removal meets the backend in the first plan of some session. */
  predicate Found(t: Table, m: string, b: string) {
    exists i :: 0 <= i < |t| && FoundIn(t[i], m, b)
  }

  predicate FoundIn(e: SessionPlans, m: string, b: string) {
    var j := FirstPlan(e.models, m);
    j < |e.models| && b in Names(e.models[j].backends)
  }

  function BackendIndex(bs: seq<Backend>, name: string): (i: nat)
    ensures i <= |bs|
    ensures i < |bs| ==> bs[i].name == name
    ensures forall k :: 0 <= k < i ==> bs[k].name != name
  {
    if bs == [] then 0
    else
      var i := BackendIndex(bs[..|bs| - 1], name);
      if i < |bs| - 1 then i else if bs[|bs| - 1].name == name then |bs| - 1 else |bs|
  }

  /** Free memory of one backend changed by `delta`. */
  function Adjust(bs: seq<Backend>, name: string, delta: real): (r: seq<Backend>)
    ensures |r| == |bs|
    ensures forall i :: 0 <= i < |bs| ==> r[i].name == bs[i].name && r[i].gpu.Some? == bs[i].gpu.Some?
  {
    var i := BackendIndex(bs, name);
    if i < |bs| && bs[i].gpu.Some? then bs[i := bs[i].(gpu := Some(bs[i].gpu.value + delta))] else bs
  }

  /** `_remove_cmodel_from_backend` */
  function Undeploy(p: Pool, cat: Catalog, m: string, b: string): Pool {
    Pool(Remove(p.table, m, b),
         if Found(p.table, m, b) then Adjust(p.backends, b, Charge(cat, m)) else p.backends)
  }

  function UndeployAll(p: Pool, cat: Catalog, pairs: seq<(string, string)>): Pool {
    if pairs == [] then p
    else
      var q := UndeployAll(p, cat, pairs[..|pairs| - 1]);
      Undeploy(q, cat, pairs[|pairs| - 1].0, pairs[|pairs| - 1].1)
  }

  /** Whether any other session runs anything on a backend. */
  predicate OthersOn(t: Table, s: string, b: string) {
    exists i, j :: 0 <= i < |t| && t[i].session != s && 0 <= j < |t[i].models| && b in Names(t[i].models[j].backends)
  }

  /** The backends of one plan that no other session uses, paired with the plan's model. */
  function LonePairs(t: Table, s: string, m: string, plans: seq<BackendPlan>): seq<(string, string)> {
    if plans == [] then []
    else
      var r, b := LonePairs(t, s, m, plans[..|plans| - 1]), plans[|plans| - 1].backend;
      if OthersOn(t, s, b) then r else r + [(m, b)]
  }

  function SessionLonePairs(t: Table, s: string, plans: seq<CModelPlan>): seq<(string, string)> {
    if plans == [] then []
    else
      var p := plans[|plans| - 1];
      SessionLonePairs(t, s, plans[..|plans| - 1]) + LonePairs(t, s, p.model, p.backends)
  }

  function DropSession(t: Table, s: string): Table {
    if t == [] then []
    else
      var r := DropSession(t[..|t| - 1], s);
      if t[|t| - 1].session == s then r else r + [t[|t| - 1]]
  }

  /** `_remove_session` */
  function RemoveSession(p: Pool, cat: Catalog, s: string): Pool {
    var i := IndexOf(p.table, s);
    var pairs := if i < |p.table| then SessionLonePairs(p.table, s, p.table[i].models) else [];
    var q := UndeployAll(p, cat, pairs);
    q.(table := DropSession(q.table, s))
  }

  function RemoveSessions(p: Pool, cat: Catalog, sessions: seq<string>): Pool {
    if sessions == [] then p
    else RemoveSession(RemoveSessions(p, cat, sessions[..|sessions| - 1]), cat, sessions[|sessions| - 1])
  }

  predicate Requested(reqs: seq<Request>, s: string) {
    exists i :: 0 <= i < |reqs| && reqs[i].session == s
  }

  /** `_compute_unused_session_uuids` */
  function Unused(t: Table, reqs: seq<Request>): seq<string> {
    if t == [] then []
    else
      var r, s := Unused(t[..|t| - 1], reqs), t[|t| - 1].session;
      if Requested(reqs, s) then r else r + [s]
  }

  // ---- Placing a model --------------------------------------------------------------

  /** What `_find_potential_backends` asks of a backend. */
  predicate Qualifies(t: Table, cat: Catalog, m: string, b: Backend) {
    && !Runs(t, m, b.name)
    && (b.gpu.Some? <==> Need(cat, m) > 0.0)
    && (b.gpu.Some? ==> b.gpu.value > Need(cat, m))
  }

  function Potential(t: Table, cat: Catalog, m: string, bs: seq<Backend>): seq<Backend> {
    if bs == [] then []
    else
      var r, b := Potential(t, cat, m, bs[..|bs| - 1]), bs[|bs| - 1];
      if Qualifies(t, cat, m, b) then r + [b] else r
  }

  function FreeMem(b: Backend): real {
    if b.gpu.Some? then b.gpu.value else 0.0
  }

  function BestGpu(bs: seq<Backend>): Option<Backend> {
    if bs == [] then None
    else
      var best, b := BestGpu(bs[..|bs| - 1]), bs[|bs| - 1];
      if FreeMem(b) > (if best.Some? then FreeMem(best.value) else 0.0) then Some(b) else best
  }

  function BestCpu(t: Table, bs: seq<Backend>): Option<Backend> {
    if bs == [] then None
    else
      var best, b := BestCpu(t, bs[..|bs| - 1]), bs[|bs| - 1];
      if |ModelsOn(t, b.name)| < (if best.Some? then |ModelsOn(t, best.value.name)| else MAX_MODELS_PER_BACKEND)
      then Some(b) else best
  }

  /** `_find_best_backend` over `_find_potential_backends` */
  function Choose(p: Pool, cat: Catalog, m: string): Option<Backend> {
    var candidates := Potential(p.table, cat, m, p.backends);
    if Need(cat, m) > 0.0 then BestGpu(candidates) else BestCpu(p.table, candidates)
  }

  function AddToEntry(e: SessionPlans, s: string, m: string, bp: BackendPlan): SessionPlans {
    var j := FirstPlan(e.models, m);
    if j == |e.models| then e.(models := e.models + [CModelPlan(m, s, [bp])])
    else e.(models := e.models[j := e.models[j].(backends := e.models[j].backends + [bp])])
  }

  /** `_add_scheduling_plan` */
  function AddPlan(t: Table, s: string, m: string, bp: BackendPlan): Table {
    var i := IndexOf(t, s);
    if i == |t| then t + [SessionPlans(s, [CModelPlan(m, s, [bp])])]
    else t[i := AddToEntry(t[i], s, m, bp)]
  }

  function AddPlans(t: Table, sessions: seq<string>, m: string, bp: BackendPlan): Table {
    if sessions == [] then t
    else AddPlan(AddPlans(t, sessions[..|sessions| - 1], m, bp), sessions[|sessions| - 1], m, bp)
  }

  function DeployOn(p: Pool, cat: Catalog, m: string, sessions: seq<string>, b: string): Pool {
    Pool(AddPlans(p.table, sessions, m, NewBackendPlan(cat, m, b)), Adjust(p.backends, b, -Charge(cat, m)))
  }

  /** `_deploy_cmodel`: the new pool and the backend used, if there is one. */
  function Deploy(p: Pool, cat: Catalog, m: string, sessions: seq<string>): (Pool, Option<string>) {
    match Choose(p, cat, m)
    case None => (p, None)
    case Some(b) => (DeployOn(p, cat, m, sessions, b.name), Some(b.name))
  }

  // ---- Deploying pipelines -------------------------------------------------------------

  /** Every plan for a model in the table, in order. */
  function PlansIn(plans: seq<CModelPlan>, m: string): seq<CModelPlan> {
    if plans == [] then []
    else
      var r, p := PlansIn(plans[..|plans| - 1], m), plans[|plans| - 1];
      if p.model == m then r + [p] else r
  }

  function PlansOf(t: Table, m: string): seq<CModelPlan> {
    if t == [] then [] else PlansOf(t[..|t| - 1], m) + PlansIn(t[|t| - 1].models, m)
  }

  /** Progress through the models of one pipeline: what was deployed by it, the plans it
    * found already there, and whether every model so far has a place. */
  datatype Progress = Progress(pool: Pool, ok: bool, deployed: seq<(string, string)>, shared: seq<CModelPlan>)

  function DeployModels(p: Pool, cat: Catalog, models: seq<CModel>, sessions: seq<string>): Progress {
    if models == [] then Progress(p, true, [], [])
    else
      var w, m := DeployModels(p, cat, models[..|models| - 1], sessions), models[|models| - 1].uuid;
      if !w.ok then w
      else if PlansOf(w.pool.table, m) != [] then w.(shared := w.shared + PlansOf(w.pool.table, m))
      else
        var d := Deploy(w.pool, cat, m, sessions);
        if d.1.None? then w.(ok := false)
        else w.(pool := d.0, deployed := w.deployed + [(m, d.1.value)])
  }

  function AppendPlans(t: Table, s: string, plans: seq<CModelPlan>): Table {
    var i := IndexOf(t, s);
    if plans == [] then t
    else if i == |t| then t + [SessionPlans(s, plans)]
    else t[i := t[i].(models := t[i].models + plans)]
  }

  /** Each session of the pipeline is given the plans that were already there, unchanged. */
  function Share(t: Table, sessions: seq<string>, plans: seq<CModelPlan>): Table {
    if sessions == [] then t
    else AppendPlans(Share(t, sessions[..|sessions| - 1], plans), sessions[|sessions| - 1], plans)
  }

  /** One round of `_deploy_new_pipelines` */
  function DeployPipeline(p: Pool, cat: Catalog, models: seq<CModel>, sessions: seq<string>): Pool {
    var w := DeployModels(p, cat, models, sessions);
    if w.ok then w.pool.(table := Share(w.pool.table, sessions, w.shared))
    else UndeployAll(w.pool, cat, w.deployed)
  }

  function SessionsOf(reqs: seq<Request>, pipeline: string): seq<string> {
    if reqs == [] then []
    else
      var r, q := SessionsOf(reqs[..|reqs| - 1], pipeline), reqs[|reqs| - 1];
      if q.pipeline.uuid == pipeline then r + [q.session] else r
  }

  predicate PipelinePlaced(t: Table, models: seq<CModel>) {
    forall k :: 0 <= k < |models| ==> Hosts(t, models[k].uuid) != {}
  }

  /** `_compute_pipeline_uuids_to_add` */
  function ToAdd(t: Table, reqs: seq<Request>): seq<string> {
    if reqs == [] then []
    else
      var r, q := ToAdd(t, reqs[..|reqs| - 1]), reqs[|reqs| - 1];
      if !PipelinePlaced(t, q.pipeline.models) && q.pipeline.uuid !in r then r + [q.pipeline.uuid] else r
  }

  function ModelsOf(pipes: map<string, Pipeline>, uuid: string): seq<CModel> {
    if uuid in pipes then pipes[uuid].models else []
  }

  /** `_deploy_new_pipelines` for the given pipelines */
  function DeployPipelines(p: Pool, cat: Catalog, pipes: map<string, Pipeline>, reqs: seq<Request>, todo: seq<string>): Pool {
    if todo == [] then p
    else
      var q, u := DeployPipelines(p, cat, pipes, reqs, todo[..|todo| - 1]), todo[|todo| - 1];
      DeployPipeline(q, cat, ModelsOf(pipes, u), SessionsOf(reqs, u))
  }

  // ---- Sessions of pipelines that are already there -----------------------------------

  /** Backend plans in order of first appearance, one per backend. */
  function Merge(into: seq<BackendPlan>, plans: seq<BackendPlan>): seq<BackendPlan> {
    if plans == [] then into
    else
      var r, p := Merge(into, plans[..|plans| - 1]), plans[|plans| - 1];
      if p.backend in Names(r) then r else r + [p]
  }

  function MergeAll(plans: seq<CModelPlan>): seq<BackendPlan> {
    if plans == [] then [] else Merge(MergeAll(plans[..|plans| - 1]), plans[|plans| - 1].backends)
  }

  function BorrowPlans(t: Table, s: string, models: seq<CModel>): seq<CModelPlan> {
    if models == [] then []
    else
      var m := models[|models| - 1].uuid;
      BorrowPlans(t, s, models[..|models| - 1]) + [CModelPlan(m, s, MergeAll(PlansOf(t, m)))]
  }

  predicate AllPlanned(t: Table, models: seq<CModel>) {
    forall k :: 0 <= k < |models| ==> PlansOf(t, models[k].uuid) != []
  }

  function AssignOne(t: Table, q: Request): Table {
    if HasSession(t, q.session) || !AllPlanned(t, q.pipeline.models) then t
    else t + [SessionPlans(q.session, BorrowPlans(t, q.session, q.pipeline.models))]
  }

  /** `_assign_backends_to_unscheduled_sessions` */
  function Assign(t: Table, reqs: seq<Request>): Table {
    if reqs == [] then t else AssignOne(Assign(t, reqs[..|reqs| - 1]), reqs[|reqs| - 1])
  }

  // ---- Scaling ----------------------------------------------------------------------------

  /** `math.ceil` */
  function Ceil(x: real): (n: int)
    ensures (n - 1) as real < x <= n as real
  {
    if x.Floor as real == x then x.Floor else x.Floor + 1
  }

  predicate HasModel(models: seq<CModel>, m: string) {
    exists k :: 0 <= k < |models| && models[k].uuid == m
  }

  /** Frame rate asked of a model by all requests together. */
  function Demand(reqs: seq<Request>, m: string): real {
    if reqs == [] then 0.0
    else
      var q := reqs[|reqs| - 1];
      Demand(reqs[..|reqs| - 1], m) + if HasModel(q.pipeline.models, m) then q.fps else 0.0
  }

  /** Number of backends the demand calls for. */
  function Target(cat: Catalog, reqs: seq<Request>, m: string): int {
    Ceil(Demand(reqs, m) / Fps(cat, m))
  }

  /** Models in the order in which requests first mention them. */
  function Mention(seen: seq<string>, models: seq<CModel>): seq<string> {
    if models == [] then seen
    else
      var r, m := Mention(seen, models[..|models| - 1]), models[|models| - 1].uuid;
      if m in r then r else r + [m]
  }

  function Wanted(reqs: seq<Request>): seq<string> {
    if reqs == [] then [] else Mention(Wanted(reqs[..|reqs| - 1]), reqs[|reqs| - 1].pipeline.models)
  }

  /** Sessions that have a plan for a model, in table order. */
  function SessionsWith(t: Table, m: string): seq<string> {
    if t == [] then []
    else
      var r, e := SessionsWith(t[..|t| - 1], m), t[|t| - 1];
      if FirstPlan(e.models, m) < |e.models| then r + [e.session] else r
  }

  /** The backend met first when walking the table for a model. */
  function FirstHost(t: Table, m: string): Option<string> {
    var plans := MergeAll(PlansOf(t, m));
    if plans == [] then None else Some(plans[0].backend)
  }

  function ScaleDown(p: Pool, cat: Catalog, m: string, delta: nat): Pool {
    if delta == 0 then p
    else
      var q := ScaleDown(p, cat, m, delta - 1);
      match FirstHost(q.table, m)
      case None => q
      case Some(b) => Undeploy(q, cat, m, b)
  }

  /** Deploys until `delta` more backends are found or one cannot be found. */
  function ScaleUp(p: Pool, cat: Catalog, m: string, sessions: seq<string>, delta: nat): (Pool, bool) {
    if delta == 0 then (p, true)
    else
      var q := ScaleUp(p, cat, m, sessions, delta - 1);
      if !q.1 then q
      else
        var d := Deploy(q.0, cat, m, sessions);
        (d.0, d.1.Some?)
  }

  /** Scaling of one model; `t` is the table when scaling began. */
  function ScaleModel(p: Pool, cat: Catalog, t: Table, reqs: seq<Request>, m: string): Pool {
    var have, want := |Hosts(t, m)|, Target(cat, reqs, m);
    if PlansOf(t, m) == [] then p
    else if have > want then ScaleDown(p, cat, m, if want >= 0 then have - want else have)
    else ScaleUp(p, cat, m, SessionsWith(t, m), want - have).0
  }

  function ScaleAll(p: Pool, cat: Catalog, t: Table, reqs: seq<Request>, models: seq<string>): Pool {
    if models == [] then p
    else ScaleModel(ScaleAll(p, cat, t, reqs, models[..|models| - 1]), cat, t, reqs, models[|models| - 1])
  }

  /** `_scale_sessions` */
  function Scale(p: Pool, cat: Catalog, reqs: seq<Request>): Pool {
    ScaleAll(p, cat, p.table, reqs, Wanted(reqs))
  }

  // ---- One call -------------------------------------------------------------------------

  function Prune(p: Pool, cat: Catalog, gone: set<string>, reqs: seq<Request>): Pool {
    var q := p.(table := Expire(p.table, gone));
    RemoveSessions(q, cat, Unused(q.table, reqs))
  }

  /** `schedule` up to the conversion of its result; the removal of unused pipelines between
    * pruning and deployment changes nothing. */
  function Schedule(p: Pool, cat: Catalog, pipes: map<string, Pipeline>, gone: set<string>, reqs: seq<Request>): Pool {
    var q := Prune(p, cat, gone, reqs);
    var d := DeployPipelines(q, cat, pipes, reqs, ToAdd(q.table, reqs));
    Scale(d.(table := Assign(d.table, reqs)), cat, reqs)
  }
}
