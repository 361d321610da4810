/** The policy object: it keeps the table of plans from call to call and changes it step by step.
  * Each method is tied to the function that says what its step computes. */
module SchedulingPolicy {
  import opened Ids
  import opened Options
  import opened PolicyModel
  import opened PolicyCosts
  import opened Sums
  import opened PolicyTables
  import opened PolicyGrowth
  import opened PolicyInvariants
  import opened PolicyBudget
  import opened PolicyPruning
  import opened PolicyDeployment
  import opened PolicyAllOrNothing
  import opened PolicyAssignment
  import opened PolicyScaling
  import opened PolicyRuns
  import opened PolicyComponents
  import opened Regrouping
  import opened SchedulingCall

  /** Models a list of plans runs on a backend. */
  function PlansRunning(plans: seq<CModelPlan>, b: string): set<string> {
    set j | 0 <= j < |plans| && b in Names(plans[j].backends) :: plans[j].model
  }

  lemma ModelsOnSnoc(t: Table, i: nat, b: string)
    requires i < |t|
    ensures ModelsOn(t[..i + 1], b) == ModelsOn(t[..i], b) + PlansRunning(t[i].models, b)
  {
    assert t[..i + 1] == t[..i] + [t[i]];
    forall m ensures m in ModelsOn(t[..i + 1], b) <==> m in ModelsOn(t[..i], b) + PlansRunning(t[i].models, b) {
      RunsSnoc(t[..i], t[i], m, b);
    }
  }

  lemma AdjustZero(bs: seq<Backend>, name: string)
    ensures Adjust(bs, name, 0.0) == bs
  {
    var i := BackendIndex(bs, name);
    if i < |bs| && bs[i].gpu.Some? {
      assert bs[i].(gpu := Some(bs[i].gpu.value + 0.0)) == bs[i];
    }
  }

  predicate Leftover(t: Table, gone: seq<string>, q: Request) {
    HasSession(t, q.session) && q.pipeline.uuid in gone
  }

  /** Requests of one pipeline share the first part of their keys, so a session that still has
    * plans and is requested again keeps its pipeline in use. */
  lemma NothingLeftOver(w: World, t: Table, reqs: seq<Request>, gone: seq<string>, q: Request)
    requires AllRequested(t, reqs) && RequestsOk(w, reqs)
    requires FirstSegment(q.session) == q.pipeline.uuid
    requires forall u :: u in gone ==> !InUse(reqs, u)
    ensures !Leftover(t, gone, q)
  {
    if HasSession(t, q.session) {
      var x :| 0 <= x < |t| && t[x].session == q.session;
      assert Requested(reqs, t[x].session);
      var k :| 0 <= k < |reqs| && reqs[k].session == t[x].session;
      assert reqs[k].pipeline.uuid == q.pipeline.uuid;
      assert InUse(reqs, q.pipeline.uuid);
    }
  }

  /** Combined rate of `n` backends. */
  function Rate(n: nat, fps: real): real {
    n as real * fps
  }

  lemma RateGrows(n: nat, fps: real)
    ensures Rate(0, fps) == 0.0
    ensures Rate(n + 1, fps) == Rate(n, fps) + fps
  {
  }

  class SimpleSchedulingPolicy {
    var lastRequests: seq<Request>
    var lastBackends: seq<Backend>
    var table: Table
    var requests: seq<Request>
    var backends: seq<Backend>
    var cmodels: Catalog
    var pipelines: map<string, Pipeline>

    constructor ()
      ensures lastRequests == [] && lastBackends == [] && table == []
    {
      lastRequests, lastBackends, table, requests, backends, cmodels, pipelines := [], [], [], [], [], map[], map[];
    }

    function Now(): Pool
      reads this
    {
      Pool(table, backends)
    }

    /** Between the steps of a call: plans in order for the backends at hand, and the
      * dictionaries of models and pipelines filled in. */
    ghost predicate Ready(w: World)
      reads this
    {
      Good(w, Now()) && WorldOk(w) && w.cat == cmodels && w.pipes == pipelines
    }

    // ---- Looking things up -----------------------------------------------------------------

    method GetBestProfile(c: Component) returns (best: Option<ProfileUnit>)
      ensures best == BestProfile(c.profile)
    {
      best := None;
      var fps := 0.0;
      for i := 0 to |c.profile|
        invariant best == BestProfile(c.profile[..i])
        invariant fps == if best.Some? then best.value.fps else 0.0
      {
        assert c.profile[..i + 1][..i] == c.profile[..i];
        if c.profile[i].fps > fps {
          fps, best := c.profile[i].fps, Some(c.profile[i]);
        }
      }
      assert c.profile[..|c.profile|] == c.profile;
    }

    method RequiredMemory(c: CModel) returns (mem: real)
      requires Profiled(c)
      ensures mem == NeedOf(c.components) == Total(Memories(c.components))
    {
      NeedIsTotal(c.components);
      mem := 0.0;
      for i := 0 to |c.components|
        invariant mem == NeedOf(c.components[..i])
      {
        assert c.components[..i + 1][..i] == c.components[..i];
        var best := GetBestProfile(c.components[i]);
        mem := mem + best.value.gpuMem;
      }
      assert c.components[..|c.components|] == c.components;
    }

    method SlowestComponent(c: CModel) returns (fps: real)
      requires Profiled(c)
      ensures fps == FpsOf(c.components) && SlowestRate(c.components, fps)
    {
      FpsIsSlowest(c.components);
      fps := FPS_CAP;
      for i := 0 to |c.components|
        invariant fps == FpsOf(c.components[..i])
      {
        assert c.components[..i + 1][..i] == c.components[..i];
        var best := GetBestProfile(c.components[i]);
        fps := if best.value.fps < fps then best.value.fps else fps;
      }
      assert c.components[..|c.components|] == c.components;
    }

    method OwnRate(m: string) returns (fps: real)
      requires m in cmodels && Profiled(cmodels[m])
      ensures fps == Fps(cmodels, m)
    {
      fps := SlowestComponent(cmodels[m]);
    }

    method FindPlan(plans: seq<CModelPlan>, m: string) returns (j: nat)
      ensures j == FirstPlan(plans, m)
    {
      j := 0;
      while j < |plans| && plans[j].model != m
        invariant j <= |plans|
        invariant forall k :: 0 <= k < j ==> plans[k].model != m
      {
        j := j + 1;
      }
    }

    method FindSession(s: string) returns (i: nat)
      ensures i == IndexOf(table, s)
    {
      i := 0;
      while i < |table| && table[i].session != s
        invariant i <= |table|
        invariant forall k :: 0 <= k < i ==> table[k].session != s
      {
        i := i + 1;
      }
    }

    method FindBackend(b: string) returns (i: nat)
      ensures i == BackendIndex(backends, b)
    {
      i := 0;
      while i < |backends| && backends[i].name != b
        invariant i <= |backends|
        invariant forall k :: 0 <= k < i ==> backends[k].name != b
      {
        i := i + 1;
      }
    }

    method Uses(plans: seq<BackendPlan>, b: string) returns (found: bool)
      ensures found <==> b in Names(plans)
    {
      found := false;
      for k := 0 to |plans|
        invariant found <==> exists l :: 0 <= l < k && plans[l].backend == b
      {
        if plans[k].backend == b {
          found := true;
        }
      }
    }

    method IsDeployed(m: string, b: string) returns (deployed: bool)
      ensures deployed <==> Runs(table, m, b)
    {
      deployed := false;
      for i := 0 to |table|
        invariant deployed <==> exists x :: 0 <= x < i && EntryRuns(table[x], m, b)
      {
        var here, plans := false, table[i].models;
        for j := 0 to |plans|
          invariant here <==> exists y :: 0 <= y < j && plans[y].model == m && b in Names(plans[y].backends)
        {
          if plans[j].model == m {
            var found := Uses(plans[j].backends, b);
            here := here || found;
          }
        }
        assert here <==> EntryRuns(table[i], m, b);
        deployed := deployed || here;
      }
    }

    method HasOtherSessionsRunning(s: string, b: string) returns (others: bool)
      ensures others <==> OthersOn(table, s, b)
    {
      others := false;
      for i := 0 to |table|
        invariant others <==>
                  exists x, y :: 0 <= x < i && table[x].session != s && 0 <= y < |table[x].models| && b in Names(table[x].models[y].backends)
      {
        if table[i].session != s {
          var here, plans := false, table[i].models;
          for j := 0 to |plans|
            invariant here <==> exists y :: 0 <= y < j && b in Names(plans[y].backends)
          {
            var found := Uses(plans[j].backends, b);
            here := here || found;
          }
          others := others || here;
        }
      }
    }

    method CountModelsOn(b: string) returns (n: nat)
      ensures n == |ModelsOn(table, b)|
    {
      var running := {};
      for i := 0 to |table|
        invariant running == ModelsOn(table[..i], b)
      {
        var plans := table[i].models;
        for j := 0 to |plans|
          invariant running == ModelsOn(table[..i], b) + PlansRunning(plans[..j], b)
        {
          assert plans[..j + 1] == plans[..j] + [plans[j]];
          var found := Uses(plans[j].backends, b);
          if found {
            running := running + {plans[j].model};
          }
          PlansRunningSnoc(plans, j, b);
        }
        assert plans[..|plans|] == plans;
        ModelsOnSnoc(table, i, b);
      }
      assert table[..|table|] == table;
      n := |running|;
    }

    lemma PlansRunningSnoc(plans: seq<CModelPlan>, j: nat, b: string)
      requires j < |plans|
      ensures PlansRunning(plans[..j + 1], b) ==
              PlansRunning(plans[..j], b) + (if b in Names(plans[j].backends) then {plans[j].model} else {})
    {
      var more, less := plans[..j + 1], plans[..j];
      forall m ensures m in PlansRunning(more, b) <==>
                       m in PlansRunning(less, b) + (if b in Names(plans[j].backends) then {plans[j].model} else {})
      {
        if x :| 0 <= x < |less| && b in Names(less[x].backends) && less[x].model == m {
          assert more[x] == less[x];
        }
        assert more[j] == plans[j];
        if x :| 0 <= x < |more| && b in Names(more[x].backends) && more[x].model == m {
          assert x < j ==> less[x] == more[x];
        }
      }
    }

    // ---- Choosing a backend ------------------------------------------------------------------

    method FindPotentialBackends(m: string, mem: real) returns (found: seq<Backend>)
      requires mem == Need(cmodels, m)
      ensures found == Potential(table, cmodels, m, backends)
    {
      found := [];
      for i := 0 to |backends|
        invariant found == Potential(table, cmodels, m, backends[..i])
      {
        assert backends[..i + 1][..i] == backends[..i];
        var b := backends[i];
        var deployed := IsDeployed(m, b.name);
        if !deployed && (b.gpu.Some? <==> mem > 0.0) && (mem > 0.0 ==> b.gpu.value > mem) {
          found := found + [b];
        }
      }
      assert backends[..|backends|] == backends;
    }

    method FindBestBackend(candidates: seq<Backend>, mem: real) returns (best: Option<Backend>)
      ensures best == if mem > 0.0 then BestGpu(candidates) else BestCpu(table, candidates)
    {
      best := None;
      var most, least := 0.0, MAX_MODELS_PER_BACKEND;
      for i := 0 to |candidates|
        invariant mem > 0.0 ==> best == BestGpu(candidates[..i]) && most == if best.Some? then FreeMem(best.value) else 0.0
        invariant mem <= 0.0 ==>
                    && best == BestCpu(table, candidates[..i])
                    && least == if best.Some? then |ModelsOn(table, best.value.name)| else MAX_MODELS_PER_BACKEND
      {
        assert candidates[..i + 1][..i] == candidates[..i];
        var b := candidates[i];
        if mem > 0.0 {
          if FreeMem(b) > most {
            most, best := FreeMem(b), Some(b);
          }
        } else {
          var n := CountModelsOn(b.name);
          if n < least {
            least, best := n, Some(b);
          }
        }
      }
      assert candidates[..|candidates|] == candidates;
    }

    method ChangeFreeMemory(b: string, mem: real, delta: real)
      requires mem > 0.0 ==> var i := BackendIndex(backends, b); i < |backends| && backends[i].gpu.Some?
      requires delta == mem || delta == -mem
      modifies this`backends
      ensures backends == Adjust(old(backends), b, if mem > 0.0 then delta else 0.0)
    {
      AdjustZero(backends, b);
      if mem > 0.0 {
        var i := FindBackend(b);
        backends := backends[i := backends[i].(gpu := Some(backends[i].gpu.value + delta))];
      }
    }

    // ---- Adding and removing placements --------------------------------------------------------

    method AddSchedulingPlan(s: string, m: string, b: string)
      requires m in cmodels && Profiled(cmodels[m])
      modifies this`table
      ensures table == AddPlan(old(table), s, m, NewBackendPlan(cmodels, m, b))
    {
      var parts, components := [], cmodels[m].components;
      for k := 0 to |components|
        invariant parts == ComponentPlans(components[..k])
        invariant table == old(table)
      {
        assert components[..k + 1][..k] == components[..k];
        var best := GetBestProfile(components[k]);
        parts := parts + [ComponentPlan(components[k].uuid, best.value.batchSize)];
      }
      assert components[..|components|] == components;
      var i := FindSession(s);
      if i == |table| {
        table := table + [SessionPlans(s, [])];
      }
      var e := table[i];
      var j := FindPlan(e.models, m);
      if j == |e.models| {
        e := e.(models := e.models + [CModelPlan(m, s, [])]);
      }
      e := e.(models := e.models[j := e.models[j].(backends := e.models[j].backends + [BackendPlan(b, parts)])]);
      AddedToEntry(table[i], s, m, BackendPlan(b, parts), e);
      table := table[i := e];
      if i == |old(table)| {
        assert e.models == [CModelPlan(m, s, [BackendPlan(b, parts)])];
        assert table == old(table) + [e];
      }
    }

    lemma AddedToEntry(e: SessionPlans, s: string, m: string, bp: BackendPlan, r: SessionPlans)
      requires r.session == e.session
      requires var j := FirstPlan(e.models, m);
               var longer := if j == |e.models| then e.models + [CModelPlan(m, s, [])] else e.models;
               r.models == longer[j := longer[j].(backends := longer[j].backends + [bp])]
      ensures r == AddToEntry(e, s, m, bp)
    {
      var j := FirstPlan(e.models, m);
      if j == |e.models| {
        assert [] + [bp] == [bp];
        assert r.models == e.models + [CModelPlan(m, s, [bp])];
      }
    }

    method DeployCModel(m: string, sessions: seq<string>) returns (used: Option<string>)
      requires m in cmodels && Profiled(cmodels[m])
      requires forall i, j :: 0 <= i < j < |backends| ==> backends[i].name != backends[j].name
      modifies this`table, this`backends
      ensures (Now(), used) == Deploy(old(Now()), cmodels, m, sessions)
    {
      hide Potential, BestGpu, BestCpu, Adjust, AddPlan, Saturated, NewBackendPlan, NeedOf, Profiled;
      var mem := RequiredMemory(cmodels[m]);
      var candidates := FindPotentialBackends(m, mem);
      var best := FindBestBackend(candidates, mem);
      ChooseIsBest(Now(), cmodels, m);
      assert best == Choose(Now(), cmodels, m);
      if best.None? {
        return None;
      }
      var b := best.value.name;
      ChangeFreeMemory(b, mem, -mem);
      AddSchedulingPlans(sessions, m, b);
      used := Some(b);
    }

    /** The backend is added for every session. */
    method AddSchedulingPlans(sessions: seq<string>, m: string, b: string)
      requires m in cmodels && Profiled(cmodels[m])
      modifies this`table
      ensures table == AddPlans(old(table), sessions, m, NewBackendPlan(cmodels, m, b))
    {
      hide AddPlan, NewBackendPlan, Profiled;
      for k := 0 to |sessions|
        invariant table == AddPlans(old(table), sessions[..k], m, NewBackendPlan(cmodels, m, b))
      {
        assert sessions[..k + 1][..k] == sessions[..k];
        AddSchedulingPlan(sessions[k], m, b);
      }
      assert sessions[..|sessions|] == sessions;
    }

    method StripBackends(plans: seq<BackendPlan>, gone: set<string>) returns (left: seq<BackendPlan>)
      ensures left == Strip(plans, gone)
    {
      left := [];
      for k := 0 to |plans|
        invariant left == Strip(plans[..k], gone)
      {
        assert plans[..k + 1][..k] == plans[..k];
        if plans[k].backend !in gone {
          left := left + [plans[k]];
        }
      }
      assert plans[..|plans|] == plans;
    }

    /** One session's entry without the backend, and whether it was there. */
    method WithoutBackend(e: SessionPlans, m: string, b: string) returns (rest: Option<SessionPlans>, here: bool)
      ensures rest == EntryWithout(e, m, b)
      ensures here <==> FoundIn(e, m, b)
    {
      var j := FindPlan(e.models, m);
      if j == |e.models| {
        return Some(e), false;
      }
      here := Uses(e.models[j].backends, b);
      var left := StripBackends(e.models[j].backends, {b});
      rest := if left == [] then None else Some(e.(models := e.models[j := e.models[j].(backends := left)]));
    }

    lemma NotFoundYet(m: string, b: string)
      ensures !Found([], m, b)
    {
    }

    method RemoveCModelFromBackend(m: string, b: string)
      requires m in cmodels && Profiled(cmodels[m])
      requires Found(table, m, b) && Need(cmodels, m) > 0.0 ==>
                 var i := BackendIndex(backends, b); i < |backends| && backends[i].gpu.Some?
      modifies this`table, this`backends
      ensures Now() == Undeploy(old(Now()), cmodels, m, b)
    {
      hide Found, FoundIn, Strip, Names, NeedOf, Profiled;
      var kept: Table, found := [], false;
      NotFoundYet(m, b);
      assert table[..0] == [];
      for i := 0 to |table|
        invariant table == old(table) && backends == old(backends)
        invariant kept == Remove(table[..i], m, b)
        invariant found <==> Found(table[..i], m, b)
      {
        assert table[..i + 1][..i] == table[..i];
        FoundSnoc(table, i, m, b);
        var rest, here := WithoutBackend(table[i], m, b);
        found := found || here;
        if rest.Some? {
          kept := kept + [rest.value];
        }
      }
      assert table[..|table|] == table;
      table := kept;
      if found {
        var mem := RequiredMemory(cmodels[m]);
        ChangeFreeMemory(b, mem, mem);
      }
    }

    lemma FoundSnoc(t: Table, i: nat, m: string, b: string)
      requires i < |t|
      ensures Found(t[..i + 1], m, b) <==> Found(t[..i], m, b) || FoundIn(t[i], m, b)
    {
      var more, less := t[..i + 1], t[..i];
      assert more[i] == t[i];
      if x :| 0 <= x < |less| && FoundIn(less[x], m, b) {
        assert more[x] == less[x];
      }
      if x :| 0 <= x < |more| && FoundIn(more[x], m, b) {
        assert x < i ==> less[x] == more[x];
      }
    }

    /** Whatever is removed was put on a known backend, of the kind its memory needs. */
    lemma RemovalIsSafe(w: World, m: string, b: string)
      requires Ready(w) && Found(table, m, b)
      ensures m in cmodels && Profiled(cmodels[m])
      ensures var i := BackendIndex(backends, b);
              i < |backends| && (Need(cmodels, m) > 0.0 ==> backends[i].gpu.Some?)
    {
      var i :| 0 <= i < |table| && FoundIn(table[i], m, b);
      PlacedIsKnown(w, i, FirstPlan(table[i].models, m), b);
    }

    lemma PlacedIsKnown(w: World, i: nat, j: nat, b: string)
      requires Ready(w) && i < |table| && j < |table[i].models| && b in Names(table[i].models[j].backends)
      ensures table[i].models[j].model in cmodels && Profiled(cmodels[table[i].models[j].model])
      ensures var k, m := BackendIndex(backends, b), table[i].models[j].model;
              k < |backends| && (Need(cmodels, m) > 0.0 ==> backends[k].gpu.Some?)
    {
      hide Shape, SameHosts, CpuCap, NoDebt;
      var e := table[i];
      assert EntryFits(w, BackendNames(backends), e);
      assert PlanFits(w, BackendNames(backends), e.models[j]) && RightKind(w, e.models[j].model, b);
      var models := KeyModels(w, e.session);
      var k :| 0 <= k < |models| && models[k].uuid == e.models[j].model;
      assert Registered(w, models[k]);
    }

    // ---- Expiry -----------------------------------------------------------------------------------

    method ExpirePlansOf(plans: seq<CModelPlan>, gone: set<string>) returns (left: seq<CModelPlan>)
      ensures left == ExpirePlans(plans, gone)
    {
      left := [];
      for j := 0 to |plans|
        invariant left == ExpirePlans(plans[..j], gone)
      {
        assert plans[..j + 1][..j] == plans[..j];
        var bs := StripBackends(plans[j].backends, gone);
        if bs != [] {
          left := left + [plans[j].(backends := bs)];
        }
      }
      assert plans[..|plans|] == plans;
    }

    method RemoveExpiredBackends()
      modifies this`table
      ensures table == Expire(old(table), BackendNames(lastBackends) - BackendNames(backends))
    {
      var gone: set<string> := {};
      for i := 0 to |lastBackends|
        invariant gone == BackendNames(lastBackends[..i]) - BackendNames(backends)
        invariant table == old(table)
      {
        var k := FindBackend(lastBackends[i].name);
        NamesGrow(lastBackends, i);
        assert lastBackends[i].name in BackendNames(backends) <==> k < |backends|;
        if k == |backends| {
          gone := gone + {lastBackends[i].name};
        }
      }
      assert lastBackends[..|lastBackends|] == lastBackends;
      var kept: Table := [];
      for i := 0 to |table|
        invariant table == old(table)
        invariant kept == Expire(table[..i], gone)
      {
        assert table[..i + 1][..i] == table[..i];
        var left := ExpirePlansOf(table[i].models, gone);
        if left != [] {
          kept := kept + [table[i].(models := left)];
        }
      }
      assert table[..|table|] == table;
      table := kept;
    }

    lemma NamesGrow(bs: seq<Backend>, i: nat)
      requires i < |bs|
      ensures BackendNames(bs[..i + 1]) == BackendNames(bs[..i]) + {bs[i].name}
    {
      var more, less := bs[..i + 1], bs[..i];
      assert more[i] == bs[i];
      forall n ensures n in BackendNames(more) <==> n in BackendNames(less) + {bs[i].name} {
        if k :| 0 <= k < |less| && less[k].name == n {
          assert more[k].name == n;
        }
        if k :| 0 <= k < |more| && more[k].name == n {
          assert k < i ==> less[k].name == n;
        }
      }
    }

    // ---- Sessions nobody requests any more ----------------------------------------------------------

    method CollectLonePairs(ghost w: World, i: nat) returns (pairs: seq<(string, string)>)
      requires Ready(w) && i < |table|
      ensures pairs == SessionLonePairs(table, table[i].session, table[i].models)
    {
      var s, plans := table[i].session, table[i].models;
      pairs := [];
      for j := 0 to |plans|
        invariant pairs == SessionLonePairs(table, s, plans[..j])
      {
        assert plans[..j + 1][..j] == plans[..j];
        var p := plans[j];
        var mine: seq<(string, string)> := [];
        for k := 0 to |p.backends|
          invariant mine == LonePairs(table, s, p.model, p.backends[..k])
        {
          assert p.backends[..k + 1][..k] == p.backends[..k];
          var others := HasOtherSessionsRunning(s, p.backends[k].backend);
          if !others {
            // both lookups by id succeed
            assert p.backends[k].backend in Names(p.backends);
            PlacedIsKnown(w, i, j, p.backends[k].backend);
            assert p.model in cmodels && BackendIndex(backends, p.backends[k].backend) < |backends|;
            mine := mine + [(p.model, p.backends[k].backend)];
          }
        }
        assert p.backends[..|p.backends|] == p.backends;
        pairs := pairs + mine;
      }
      assert plans[..|plans|] == plans;
    }

    /** Takes a model off a backend, between steps, when it may or may not be there. */
    method RemoveSafely(ghost w: World, m: string, b: string)
      requires Ready(w) && m in cmodels
      modifies this`table, this`backends
      ensures Now() == Undeploy(old(Now()), cmodels, m, b)
      ensures Ready(w)
    {
      hide Good, WorldOk, Found, Profiled, Undeploy;
      UndeployGood(w, Now(), m, b);
      RegisteredProfiled(w, m);
      if Found(table, m, b) {
        RemovalIsSafe(w, m, b);
      }
      RemoveCModelFromBackend(m, b);
    }

    method UndeployPairs(ghost w: World, pairs: seq<(string, string)>)
      requires Ready(w) && forall k :: 0 <= k < |pairs| ==> pairs[k].0 in cmodels
      modifies this`table, this`backends
      ensures Now() == UndeployAll(old(Now()), cmodels, pairs)
      ensures Ready(w)
    {
      hide Good, WorldOk, Undeploy;
      ghost var p := Now();
      for k := 0 to |pairs|
        invariant Now() == UndeployAll(p, cmodels, pairs[..k])
        invariant Ready(w)
      {
        assert pairs[..k + 1][..k] == pairs[..k];
        RemoveSafely(w, pairs[k].0, pairs[k].1);
      }
      assert pairs[..|pairs|] == pairs;
    }

    lemma RegisteredProfiled(w: World, m: string)
      requires WorldOk(w) && m in w.cat
      ensures Profiled(w.cat[m])
    {
    }

    method PopSession(s: string)
      requires DistinctSessions(table)
      modifies this`table
      ensures table == DropSession(old(table), s)
    {
      var i := FindSession(s);
      DropSessionAt(table, s);
      if i < |table| {
        table := table[..i] + table[i + 1..];
      }
    }

    /** With distinct sessions, dropping a session is taking its one entry out. */
    lemma {:induction false} DropSessionAt(t: Table, s: string)
      requires DistinctSessions(t)
      ensures var i := IndexOf(t, s);
              DropSession(t, s) == if i < |t| then t[..i] + t[i + 1..] else t
    {
      if t != [] {
        var init, last, i := t[..|t| - 1], t[|t| - 1], IndexOf(t, s);
        if last.session == s {
          assert IndexOf(init, s) == |init|;
          DropSessionEntries(init, s);
          NotBeforeLast(t, s);
          assert t[..i] + t[i + 1..] == init;
        } else {
          hide DistinctSessions;
          DistinctInit(t);
          DropSessionAt(init, s);
          assert IndexOf(init, s) == if i < |t| then i else |init|;
          if i < |t| {
            SkipSnoc(t, i);
          }
        }
      }
    }

    lemma DistinctInit(t: Table)
      requires DistinctSessions(t) && t != []
      ensures DistinctSessions(t[..|t| - 1])
    {
    }

    lemma SkipSnoc<T>(t: seq<T>, i: nat)
      requires i < |t| - 1
      ensures var init := t[..|t| - 1]; t[..i] + t[i + 1..] == init[..i] + init[i + 1..] + [t[|t| - 1]]
    {
    }

    lemma NotBeforeLast(t: Table, s: string)
      requires DistinctSessions(t) && t != [] && t[|t| - 1].session == s
      ensures IndexOf(t, s) == |t| - 1 && !HasSession(t[..|t| - 1], s)
    {
    }

    lemma {:induction false} LonePairsKnown(w: World, i: nat, n: nat)
      requires Ready(w) && i < |table| && n <= |table[i].models|
      ensures forall pair :: pair in SessionLonePairs(table, table[i].session, table[i].models[..n]) ==> pair.0 in cmodels
    {
      if n > 0 {
        var plans := table[i].models[..n];
        assert plans[..n - 1] == table[i].models[..n - 1];
        LonePairsKnown(w, i, n - 1);
        LonePairsModel(table, table[i].session, plans[n - 1].model, plans[n - 1].backends);
        PlannedIsKnown(w, i, n - 1);
      }
    }

    lemma {:induction false} LonePairsModel(t: Table, s: string, m: string, plans: seq<BackendPlan>)
      ensures forall pair :: pair in LonePairs(t, s, m, plans) ==> pair.0 == m
    {
      if plans != [] {
        LonePairsModel(t, s, m, plans[..|plans| - 1]);
      }
    }

    lemma PlannedIsKnown(w: World, i: nat, j: nat)
      requires Ready(w) && i < |table| && j < |table[i].models|
      ensures table[i].models[j].model in cmodels && Profiled(cmodels[table[i].models[j].model])
    {
      hide SameHosts, CpuCap, NoDebt;
      assert EntryShape(table[i]);
      NamesNonEmpty(table[i].models[j].backends);
      var b :| b in Names(table[i].models[j].backends);
      PlacedIsKnown(w, i, j, b);
    }

    method RemoveSession(ghost w: World, s: string)
      requires Ready(w) && HasSession(table, s)
      modifies this`table, this`backends
      ensures Now() == PolicyModel.RemoveSession(old(Now()), cmodels, s)
      ensures Ready(w)
    {
      hide Good, WorldOk;
      ghost var p := Now();
      var i := FindSession(s);
      var pairs := CollectLonePairs(w, i);
      LonePairsKnown(w, i, |table[i].models|);
      assert table[i].models[..|table[i].models|] == table[i].models;
      UndeployPairs(w, pairs);
      ReadyDistinct(w);
      PopSession(s);
      RemoveSessionExact(w, p, s);
    }

    lemma ReadyDistinct(w: World)
      requires Ready(w)
      ensures DistinctSessions(table)
      ensures forall i, j :: 0 <= i < j < |backends| ==> backends[i].name != backends[j].name
    {
    }

    method ComputeUnusedSessions() returns (unused: seq<string>)
      ensures unused == Unused(table, requests)
    {
      unused := [];
      for i := 0 to |table|
        invariant unused == Unused(table[..i], requests)
      {
        assert table[..i + 1][..i] == table[..i];
        var used := IsRequested(table[i].session);
        if !used {
          unused := unused + [table[i].session];
        }
      }
      assert table[..|table|] == table;
    }

    method IsRequested(s: string) returns (used: bool)
      ensures used <==> Requested(requests, s)
    {
      used := false;
      for k := 0 to |requests|
        invariant used <==> exists l :: 0 <= l < k && requests[l].session == s
      {
        if requests[k].session == s {
          used := true;
        }
      }
    }

    method RemoveUnusedSessions(ghost w: World)
      requires Ready(w)
      modifies this`table, this`backends
      ensures Now() == RemoveSessions(old(Now()), cmodels, Unused(old(table), requests))
      ensures Ready(w)
    {
      hide Good, WorldOk, Requested, PolicyModel.RemoveSession, Unused;
      var unused := ComputeUnusedSessions();
      ghost var p := Now();
      ReadyDistinct(w);
      UnusedDistinct(table, requests);
      UnusedExact(table, requests);
      for k := 0 to |unused|
        invariant Now() == RemoveSessions(p, cmodels, unused[..k])
        invariant Ready(w)
      {
        assert unused[..k + 1][..k] == unused[..k];
        NextIsThere(w, p, unused, k);
        RemoveSession(w, unused[k]);
      }
      assert unused[..|unused|] == unused;
    }

    lemma NextIsThere(w: World, p: Pool, unused: seq<string>, k: nat)
      requires Good(w, p) && DistinctStrings(unused) && k < |unused| && HasSession(p.table, unused[k])
      ensures HasSession(RemoveSessions(p, w.cat, unused[..k]).table, unused[k])
    {
      hide Good, HasSession;
      RemoveSessionsExact(w, p, unused[..k]);
      StillThere(p.table, unused, k);
    }

    lemma StillThere(t: Table, ss: seq<string>, k: nat)
      requires DistinctStrings(ss) && k < |ss| && HasSession(t, ss[k])
      ensures HasSession(DropAll(t, ss[..k]), ss[k])
    {
      DropAllEntries(t, ss[..k]);
      var i :| 0 <= i < |t| && t[i].session == ss[k];
      assert t[i] in DropAll(t, ss[..k]);
    }

    lemma {:induction false} UnusedDistinct(t: Table, reqs: seq<Request>)
      requires DistinctSessions(t)
      ensures DistinctStrings(Unused(t, reqs))
    {
      if t != [] {
        var init := t[..|t| - 1];
        UnusedDistinct(init, reqs);
        UnusedExact(init, reqs);
        forall i | 0 <= i < |init| ensures init[i].session != t[|t| - 1].session {
          assert t[i] == init[i];
        }
      }
    }

    // ---- Plans for one model ------------------------------------------------------------------------

    method CollectPlans(m: string) returns (plans: seq<CModelPlan>)
      ensures plans == PlansOf(table, m)
    {
      plans := [];
      for i := 0 to |table|
        invariant plans == PlansOf(table[..i], m)
      {
        assert table[..i + 1][..i] == table[..i];
        var mine: seq<CModelPlan>, all := [], table[i].models;
        for j := 0 to |all|
          invariant mine == PlansIn(all[..j], m)
        {
          assert all[..j + 1][..j] == all[..j];
          if all[j].model == m {
            mine := mine + [all[j]];
          }
        }
        assert all[..|all|] == all;
        plans := plans + mine;
      }
      assert table[..|table|] == table;
    }

    method MergeBackends(plans: seq<CModelPlan>) returns (merged: seq<BackendPlan>)
      ensures merged == MergeAll(plans)
    {
      merged := [];
      for i := 0 to |plans|
        invariant merged == MergeAll(plans[..i])
      {
        assert plans[..i + 1][..i] == plans[..i];
        var before, more := merged, plans[i].backends;
        for k := 0 to |more|
          invariant merged == Merge(before, more[..k])
        {
          assert more[..k + 1][..k] == more[..k];
          var known := Uses(merged, more[k].backend);
          if !known {
            merged := merged + [more[k]];
          }
        }
        assert more[..|more|] == more;
      }
      assert plans[..|plans|] == plans;
    }

    // ---- Pipelines nobody requests any more ---------------------------------------------------------

    method IsInUse(reqs: seq<Request>, u: string) returns (used: bool)
      ensures used <==> InUse(reqs, u)
    {
      used := false;
      for k := 0 to |reqs|
        invariant used <==> exists l :: 0 <= l < k && reqs[l].pipeline.uuid == u
      {
        if reqs[k].pipeline.uuid == u {
          used := true;
        }
      }
    }

    method ComputePipelinesToRemove() returns (gone: seq<string>)
      ensures forall u :: u in gone <==> InUse(lastRequests, u) && !InUse(requests, u)
    {
      gone := [];
      for k := 0 to |lastRequests|
        invariant forall u :: u in gone <==> (exists l :: 0 <= l < k && lastRequests[l].pipeline.uuid == u) && !InUse(requests, u)
      {
        var u := lastRequests[k].pipeline.uuid;
        var used := IsInUse(requests, u);
        if !used && u !in gone {
          gone := gone + [u];
        }
      }
    }

    /** Adds one for each of the models. */
    method CountUp(counts: map<string, int>, models: seq<CModel>) returns (more: map<string, int>)
      ensures counts.Keys <= more.Keys
      ensures forall k :: 0 <= k < |models| ==> models[k].uuid in more
    {
      more := counts;
      for k := 0 to |models|
        invariant counts.Keys <= more.Keys
        invariant forall l :: 0 <= l < k ==> models[l].uuid in more
      {
        var m := models[k].uuid;
        more := more[m := if m in more then more[m] + 1 else 1];
      }
    }

    /** The models whose last users are leaving: only sessions that still have plans, of
      * pipelines that are gone, are counted down. */
    method ComputeModelsToRemove(gone: seq<string>) returns (models: seq<string>)
      requires forall i, k :: 0 <= i < |lastRequests| && 0 <= k < |lastRequests[i].pipeline.models| ==>
                 lastRequests[i].pipeline.models[k].uuid in cmodels
      ensures forall m :: m in models ==> m in cmodels
      ensures models != [] ==> exists i :: 0 <= i < |lastRequests| && Leftover(table, gone, lastRequests[i])
    {
      var counts: map<string, int> := map[];
      for i := 0 to |lastRequests|
        invariant forall l, k :: 0 <= l < i && 0 <= k < |lastRequests[l].pipeline.models| ==>
                    lastRequests[l].pipeline.models[k].uuid in counts
      {
        counts := CountUp(counts, lastRequests[i].pipeline.models);
      }
      var adding := ComputePipelinesToAdd();
      for i := 0 to |requests|
        invariant forall l, k :: 0 <= l < |lastRequests| && 0 <= k < |lastRequests[l].pipeline.models| ==>
                    lastRequests[l].pipeline.models[k].uuid in counts
      {
        if requests[i].pipeline.uuid in adding {
          counts := CountUp(counts, requests[i].pipeline.models);
        }
      }
      models := [];
      for i := 0 to |lastRequests|
        invariant forall l, k :: 0 <= l < |lastRequests| && 0 <= k < |lastRequests[l].pipeline.models| ==>
                    lastRequests[l].pipeline.models[k].uuid in counts
        invariant models != [] ==> exists l :: 0 <= l < i && Leftover(table, gone, lastRequests[l])
        invariant forall m :: m in models ==> m in cmodels
      {
        var at := FindSession(lastRequests[i].session);
        if at < |table| && lastRequests[i].pipeline.uuid in gone {
          assert Leftover(table, gone, lastRequests[i]);
          var leaving := lastRequests[i].pipeline.models;
          for k := 0 to |leaving|
            invariant forall m :: m in models ==> m in cmodels
            invariant forall l, n :: 0 <= l < |lastRequests| && 0 <= n < |lastRequests[l].pipeline.models| ==>
                        lastRequests[l].pipeline.models[n].uuid in counts
          {
            var m := leaving[k].uuid;
            counts := counts[m := counts[m] - 1];
            if counts[m] == 0 && m !in models {
              models := models + [m];
            }
          }
        }
      }
    }

    method IsPlaced(models: seq<CModel>) returns (placed: bool)
      ensures placed <==> PipelinePlaced(table, models)
    {
      placed := true;
      for k := 0 to |models|
        invariant placed <==> forall l :: 0 <= l < k ==> Hosts(table, models[l].uuid) != {}
      {
        var plans := CollectPlans(models[k].uuid);
        var merged := MergeBackends(plans);
        MergedHosts(table, models[k].uuid);
        NamesNonEmpty(merged);
        placed := placed && merged != [];
      }
    }

    method ComputePipelinesToAdd() returns (adding: seq<string>)
      ensures adding == ToAdd(table, requests)
    {
      adding := [];
      for k := 0 to |requests|
        invariant adding == ToAdd(table, requests[..k])
      {
        assert requests[..k + 1][..k] == requests[..k];
        var placed := IsPlaced(requests[k].pipeline.models);
        if !placed && requests[k].pipeline.uuid !in adding {
          adding := adding + [requests[k].pipeline.uuid];
        }
      }
      assert requests[..|requests|] == requests;
    }

    method RemoveModelEverywhere(ghost w: World, m: string)
      requires Ready(w) && m in cmodels
      modifies this`table, this`backends
      ensures Ready(w)
    {
      var plans := CollectPlans(m);
      var hosts := MergeBackends(plans);
      UndeployPairs(w, seq(|hosts|, k requires 0 <= k < |hosts| => (m, hosts[k].backend)));
    }

    /** This step finds nothing to do: sessions of pipelines that left are gone already. */
    method RemoveUnusedPipelines(ghost w: World)
      requires Ready(w) && RequestsOk(w, requests) && AllRequested(table, requests)
      requires forall i :: 0 <= i < |lastRequests| ==> FirstSegment(lastRequests[i].session) == lastRequests[i].pipeline.uuid
      requires forall i, k :: 0 <= i < |lastRequests| && 0 <= k < |lastRequests[i].pipeline.models| ==>
                 lastRequests[i].pipeline.models[k].uuid in cmodels
      modifies this`table, this`backends
      ensures Now() == old(Now()) && Ready(w)
    {
      hide Good, AllRequested, RequestsOk, WorldOk, InUse, Leftover, Requested;
      ghost var p := Now();
      var gone := ComputePipelinesToRemove();
      var models := ComputeModelsToRemove(gone);
      for k := 0 to |models|
        invariant Ready(w)
        invariant k == 0 ==> table == p.table && backends == p.backends
      {
        RemoveModelEverywhere(w, models[k]);
      }
      forall i | 0 <= i < |lastRequests| ensures !Leftover(p.table, gone, lastRequests[i]) {
        NothingLeftOver(w, p.table, requests, gone, lastRequests[i]);
      }
      assert models == [];
    }

    // ---- Deploying pipelines ------------------------------------------------------------------------

    method SessionsOfPipeline(u: string) returns (sessions: seq<string>)
      ensures sessions == SessionsOf(requests, u)
    {
      sessions := [];
      for k := 0 to |requests|
        invariant sessions == SessionsOf(requests[..k], u)
      {
        assert requests[..k + 1][..k] == requests[..k];
        if requests[k].pipeline.uuid == u {
          sessions := sessions + [requests[k].session];
        }
      }
      assert requests[..|requests|] == requests;
    }

    method DeployEach(ghost w: World, models: seq<CModel>, sessions: seq<string>)
      returns (ok: bool, deployed: seq<(string, string)>, shared: seq<CModelPlan>)
      requires Ready(w) && PipelineSessions(w, models, sessions)
      requires forall k :: 0 <= k < |models| ==> models[k].uuid in cmodels
      modifies this`table, this`backends
      ensures PolicyModel.Progress(Now(), ok, deployed, shared) == DeployModels(old(Now()), cmodels, models, sessions)
    {
      hide Good, WorldOk, PipelineSessions, Deploy, PlansOf;
      ghost var p := Now();
      ok, deployed, shared := true, [], [];
      ReadyDistinct(w);
      for k := 0 to |models|
        invariant ok && Progress(Now(), ok, deployed, shared) == DeployModels(p, cmodels, models[..k], sessions)
        invariant forall i, j :: 0 <= i < j < |backends| ==> backends[i].name != backends[j].name
      {
        assert models[..k + 1][..k] == models[..k];
        var m := models[k].uuid;
        var plans := CollectPlans(m);
        if plans != [] {
          shared := shared + plans;
        } else {
          RegisteredProfiled(w, m);
          DeployKeepsNames(Now(), cmodels, m, sessions);
          var used := DeployCModel(m, sessions);
          if used.None? {
            ok := false;
            StaysFailed(p, cmodels, models, sessions, k + 1);
            return;
          }
          deployed := deployed + [(m, used.value)];
        }
      }
      assert models[..|models|] == models;
    }

    lemma DeployKeepsNames(p: Pool, cat: Catalog, m: string, sessions: seq<string>)
      ensures SameBackends(Deploy(p, cat, m, sessions).0.backends, p.backends)
      ensures Deploy(p, cat, m, sessions).1.None? ==> Deploy(p, cat, m, sessions).0 == p
    {
    }

    lemma {:induction false} StaysFailed(p: Pool, cat: Catalog, models: seq<CModel>, sessions: seq<string>, k: nat)
      requires k <= |models| && !DeployModels(p, cat, models[..k], sessions).ok
      ensures DeployModels(p, cat, models, sessions) == DeployModels(p, cat, models[..k], sessions)
      decreases |models|
    {
      hide Deploy, PlansOf;
      if k == |models| {
        assert models[..k] == models;
      } else {
        var init := models[..|models| - 1];
        assert init[..k] == models[..k];
        StaysFailed(p, cat, init, sessions, k);
      }
    }

    method SharePlans(sessions: seq<string>, plans: seq<CModelPlan>)
      modifies this`table
      ensures table == Share(old(table), sessions, plans)
    {
      ghost var t := table;
      for i := 0 to |sessions|
        invariant table == Share(t, sessions[..i], plans)
      {
        assert sessions[..i + 1][..i] == sessions[..i];
        ghost var before := table;
        for k := 0 to |plans|
          invariant table == AppendPlans(before, sessions[i], plans[..k])
        {
          AppendOneMore(before, sessions[i], plans, k);
          var at := FindSession(sessions[i]);
          if at == |table| {
            table := table + [SessionPlans(sessions[i], [])];
          }
          table := table[at := table[at].(models := table[at].models + [plans[k]])];
        }
        assert plans[..|plans|] == plans;
      }
      assert sessions[..|sessions|] == sessions;
    }

    /** Appending plans one at a time is appending them all. */
    lemma AppendOneMore(t: Table, s: string, plans: seq<CModelPlan>, k: nat)
      requires k < |plans|
      ensures var r := AppendPlans(t, s, plans[..k]);
              var i := IndexOf(r, s);
              var longer := if i == |r| then r + [SessionPlans(s, [])] else r;
              AppendPlans(t, s, plans[..k + 1]) == longer[i := longer[i].(models := longer[i].models + [plans[k]])]
    {
      var r, i := AppendPlans(t, s, plans[..k]), IndexOf(t, s);
      assert plans[..k + 1] == plans[..k] + [plans[k]];
      if k == 0 {
        assert plans[..0] == [];
        assert plans[..1] == [plans[0]];
        assert [] + [plans[0]] == [plans[0]];
      } else if i < |t| {
        assert r[i].session == s && forall x :: 0 <= x < i ==> r[x].session == t[x].session;
        assert IndexOf(r, s) == i;
        assert t[i].models + plans[..k + 1] == (t[i].models + plans[..k]) + [plans[k]];
      } else {
        assert r[|t|].session == s;
        assert forall x :: 0 <= x < |t| ==> r[x].session != s;
        assert IndexOf(r, s) == |t|;
      }
    }

    /** One pipeline: all its models, or none. */
    method DeployPipeline(ghost w: World, u: string)
      requires Ready(w) && u in pipelines && PipelineSessions(w, ModelsOf(pipelines, u), SessionsOf(requests, u))
      requires forall k :: 0 <= k < |pipelines[u].models| ==> pipelines[u].models[k].uuid in cmodels
      modifies this`table, this`backends
      ensures Now() == PolicyModel.DeployPipeline(old(Now()), cmodels, ModelsOf(pipelines, u), SessionsOf(requests, u))
      ensures old(Clean(Now(), cmodels, ModelsOf(pipelines, u), SessionsOf(requests, u))) ==> Ready(w)
    {
      hide Good, WorldOk, PipelineSessions, DeployModels, UndeployAll, Share;
      ghost var p := Now();
      var models := pipelines[u].models;
      var sessions := SessionsOfPipeline(u);
      var ok, deployed, shared := DeployEach(w, models, sessions);
      if ok {
        SharePlans(sessions, shared);
      } else {
        AfterTrying(w, p, models, sessions);
        UndeployPairs(w, deployed);
      }
      if Clean(p, cmodels, models, sessions) {
        DeployPipelineGood(w, p, models, sessions);
      }
    }

    lemma AfterTrying(w: World, p: Pool, models: seq<CModel>, sessions: seq<string>)
      requires Good(w, p) && WorldOk(w) && PipelineSessions(w, models, sessions)
      requires forall k :: 0 <= k < |models| ==> models[k].uuid in w.cat
      ensures var g := DeployModels(p, w.cat, models, sessions);
              Good(w, g.pool) && forall k :: 0 <= k < |g.deployed| ==> g.deployed[k].0 in w.cat
    {
      hide Good, WorldOk, WithinBudget, OthersSame, Runs;
      var g := DeployModels(p, w.cat, models, sessions);
      DeployModelsOk(w, p, models, models, sessions);
      forall k | 0 <= k < |g.deployed| ensures g.deployed[k].0 in w.cat {
        assert DeployedFor(p.table, g.pool.table, sessions, models, g.deployed[k]);
        var n :| 0 <= n < |models| && models[n].uuid == g.deployed[k].0;
      }
    }

    method DeployNewPipelines(ghost w: World)
      requires Ready(w) && RequestsOk(w, requests) && AllRequested(table, requests)
      requires AllClean(Now(), cmodels, pipelines, requests, ToAdd(table, requests))
      modifies this`table, this`backends
      ensures Now() == DeployPipelines(old(Now()), cmodels, pipelines, requests, ToAdd(old(table), requests))
      ensures Ready(w)
    {
      hide Good, WorldOk, RequestsOk, AllRequested, InUse, Clean, PolicyModel.DeployPipeline, AllClean, SessionsOf, ModelsOf, ToAdd;
      ghost var p := Now();
      var adding := ComputePipelinesToAdd();
      ToAddAreRequested(table, requests);
      for k := 0 to |adding|
        invariant Now() == DeployPipelines(p, cmodels, pipelines, requests, adding[..k])
        invariant Ready(w)
      {
        assert adding[..k + 1][..k] == adding[..k];
        CleanSoFar(p, cmodels, pipelines, requests, adding, k);
        SessionsFit(w, requests, adding[k]);
        PipelineIsKnown(w, requests, adding[k]);
        DeployPipeline(w, adding[k]);
      }
      assert adding[..|adding|] == adding;
    }

    lemma PipelineIsKnown(w: World, reqs: seq<Request>, u: string)
      requires WorldOk(w) && RequestsOk(w, reqs) && InUse(reqs, u)
      ensures u in w.pipes && forall k :: 0 <= k < |w.pipes[u].models| ==> w.pipes[u].models[k].uuid in w.cat
    {
      var i :| 0 <= i < |reqs| && reqs[i].pipeline.uuid == u;
      forall k | 0 <= k < |w.pipes[u].models| ensures w.pipes[u].models[k].uuid in w.cat {
        assert Registered(w, w.pipes[u].models[k]);
      }
    }

    lemma {:induction false} CleanSoFar(p: Pool, cat: Catalog, pipes: map<string, Pipeline>, reqs: seq<Request>, todo: seq<string>, k: nat)
      requires AllClean(p, cat, pipes, reqs, todo) && k < |todo|
      ensures Clean(DeployPipelines(p, cat, pipes, reqs, todo[..k]), cat, ModelsOf(pipes, todo[k]), SessionsOf(reqs, todo[k]))
      decreases |todo|
    {
      hide Clean, PolicyModel.DeployPipeline;
      var init := todo[..|todo| - 1];
      if k < |init| {
        CleanSoFar(p, cat, pipes, reqs, init, k);
        assert init[..k] == todo[..k];
      } else {
        assert init == todo[..k];
      }
    }

    // ---- Sessions of pipelines that are already there -------------------------------------------------

    /** One merged plan for each model that has plans; fewer than there are models if one has none. */
    method BorrowFor(q: Request) returns (borrowed: seq<CModelPlan>)
      ensures AllPlanned(table, q.pipeline.models) ==> borrowed == BorrowPlans(table, q.session, q.pipeline.models)
      ensures |borrowed| == |q.pipeline.models| <==> AllPlanned(table, q.pipeline.models)
    {
      hide PlansOf, MergeAll;
      var models := q.pipeline.models;
      borrowed := [];
      for k := 0 to |models|
        invariant AllPlanned(table, models[..k]) ==> borrowed == BorrowPlans(table, q.session, models[..k])
        invariant |borrowed| <= k
        invariant |borrowed| == k <==> AllPlanned(table, models[..k])
      {
        assert models[..k + 1] == models[..k] + [models[k]];
        AllPlannedSnoc(table, models, k);
        var plans := CollectPlans(models[k].uuid);
        if plans != [] {
          var merged := MergeBackends(plans);
          borrowed := borrowed + [CModelPlan(models[k].uuid, q.session, merged)];
        }
      }
      assert models[..|models|] == models;
    }

    lemma AllPlannedSnoc(t: Table, models: seq<CModel>, k: nat)
      requires k < |models|
      ensures AllPlanned(t, models[..k + 1]) <==> AllPlanned(t, models[..k]) && PlansOf(t, models[k].uuid) != []
    {
      hide PlansOf;
      var more, less := models[..k + 1], models[..k];
      assert more[k] == models[k];
      if AllPlanned(t, more) {
        forall i | 0 <= i < k ensures PlansOf(t, less[i].uuid) != [] {
          assert more[i] == less[i];
        }
      }
    }

    method AssignBackendsToUnscheduledSessions()
      modifies this`table
      ensures table == Assign(old(table), requests)
    {
      hide BorrowPlans, AllPlanned;
      ghost var t := table;
      for k := 0 to |requests|
        invariant table == Assign(t, requests[..k])
      {
        assert requests[..k + 1][..k] == requests[..k];
        var q := requests[k];
        var at := FindSession(q.session);
        if at == |table| {
          var borrowed := BorrowFor(q);
          if |borrowed| == |q.pipeline.models| {
            table := table + [SessionPlans(q.session, borrowed)];
          }
        }
      }
      assert requests[..|requests|] == requests;
    }

    // ---- Scaling ------------------------------------------------------------------------------------------

    /** The models asked for, in order of first mention, and the rate asked of each. */
    method RequestedRates() returns (wanted: seq<string>, rate: map<string, real>)
      requires forall k :: 0 <= k < |requests| ==> DistinctModelIds(requests[k].pipeline.models)
      ensures wanted == Wanted(requests)
      ensures forall m :: m in wanted ==> m in rate && rate[m] == Demand(requests, m)
    {
      wanted, rate := [], map[];
      for i := 0 to |requests|
        invariant wanted == Wanted(requests[..i])
        invariant forall m :: m in wanted <==> m in rate
        invariant forall m :: m in rate ==> rate[m] == Demand(requests[..i], m)
      {
        assert requests[..i + 1][..i] == requests[..i];
        wanted, rate := AddRates(wanted, rate, requests[..i], requests[i].pipeline.models, requests[i].fps);
      }
      assert requests[..|requests|] == requests;
    }

    /** The models of one request, on top of those of the requests before it. */
    method AddRates(wanted0: seq<string>, rate0: map<string, real>, ghost before: seq<Request>, models: seq<CModel>, fps: real)
      returns (wanted: seq<string>, rate: map<string, real>)
      requires DistinctModelIds(models) && wanted0 == Wanted(before)
      requires forall m :: m in wanted0 <==> m in rate0
      requires forall m :: m in rate0 ==> rate0[m] == Demand(before, m)
      ensures wanted == Mention(wanted0, models)
      ensures forall m :: m in wanted <==> m in rate
      ensures forall m :: m in rate ==> rate[m] == Demand(before, m) + if HasModel(models, m) then fps else 0.0
    {
      hide HasModel, Demand, Wanted, DistinctModelIds;
      wanted, rate := wanted0, rate0;
      NoModelYet();
      assert models[..0] == [];
      for k := 0 to |models|
        invariant wanted == Mention(wanted0, models[..k])
        invariant forall m :: m in wanted <==> m in rate
        invariant forall m :: m in rate ==> rate[m] == Demand(before, m) + if HasModel(models[..k], m) then fps else 0.0
      {
        assert models[..k + 1] == models[..k] + [models[k]];
        HasModelSnoc(models[..k], models[k]);
        NewMention(before, models, k);
        var m := models[k].uuid;
        if m !in rate {
          wanted := wanted + [m];
          rate := rate[m := 0.0];
        }
        rate := rate[m := rate[m] + fps];
      }
      assert models[..|models|] == models;
    }

    lemma NoModelYet()
      ensures forall m :: !HasModel([], m)
    {
    }

    /** A model not mentioned yet has no demand yet, and no pipeline lists a model twice. */
    lemma NewMention(reqs: seq<Request>, models: seq<CModel>, k: nat)
      requires DistinctModelIds(models) && k < |models|
      ensures !HasModel(models[..k], models[k].uuid)
      ensures models[k].uuid !in Mention(Wanted(reqs), models[..k]) ==> Demand(reqs, models[k].uuid) == 0.0
    {
      MentionExact(Wanted(reqs), models[..k], models[k].uuid);
      NoDemand(reqs, models[k].uuid);
    }

    lemma {:induction false} NoDemand(reqs: seq<Request>, m: string)
      ensures m !in Wanted(reqs) ==> Demand(reqs, m) == 0.0
    {
      if reqs != [] {
        NoDemand(reqs[..|reqs| - 1], m);
        MentionExact(Wanted(reqs[..|reqs| - 1]), reqs[|reqs| - 1].pipeline.models, m);
      }
    }

    /** Names of the backends in the plans for one model. */
    function HostsAmong(plans: seq<CModelPlan>, m: string): set<string> {
      set j, b | 0 <= j < |plans| && plans[j].model == m && b in Names(plans[j].backends) :: b
    }

    lemma HostsGrow(t: Table, i: nat, m: string)
      requires i < |t|
      ensures Hosts(t[..i + 1], m) == Hosts(t[..i], m) + HostsAmong(t[i].models, m)
    {
      assert t[..i + 1] == t[..i] + [t[i]];
      forall b ensures b in Hosts(t[..i + 1], m) <==> b in Hosts(t[..i], m) + HostsAmong(t[i].models, m) {
        RunsSnoc(t[..i], t[i], m, b);
      }
    }

    lemma HostsAmongGrow(plans: seq<CModelPlan>, j: nat, m: string)
      requires j < |plans|
      ensures HostsAmong(plans[..j + 1], m) ==
              HostsAmong(plans[..j], m) + (if plans[j].model == m then Names(plans[j].backends) else {})
    {
      var more, less := plans[..j + 1], plans[..j];
      var added := if plans[j].model == m then Names(plans[j].backends) else {};
      forall b ensures b in HostsAmong(more, m) <==> b in HostsAmong(less, m) + added {
        if x :| 0 <= x < |less| && less[x].model == m && b in Names(less[x].backends) {
          assert more[x] == less[x];
        }
        assert more[j] == plans[j];
        if x :| 0 <= x < |more| && more[x].model == m && b in Names(more[x].backends) {
          assert x < j ==> less[x] == more[x];
        }
      }
    }

    /** The keys counted so far are those of the placements of the models in `done`. */
    ghost predicate CountedAre(counted: set<string>, done: set<string>)
      reads this
    {
      forall x, b :: NoUnderscore(x) ==> (Key(x, b) in counted <==> x in done && Runs(table, x, b))
    }

    /** The keys of `done` and those of `m` on the given hosts. */
    ghost predicate Counting(counted: set<string>, done: set<string>, m: string, hosts: set<string>)
      reads this
    {
      forall x, b :: NoUnderscore(x) ==>
        (Key(x, b) in counted <==> (x in done && Runs(table, x, b)) || (x == m && b in hosts))
    }

    lemma CountOne(counted: set<string>, done: set<string>, m: string, hosts: set<string>, b: string)
      requires NoUnderscore(m) && Counting(counted, done, m, hosts)
      ensures Counting(counted + {Key(m, b)}, done, m, hosts + {b})
      ensures m !in done ==> (Key(m, b) in counted <==> b in hosts)
    {
      forall x, y | NoUnderscore(x) && Key(x, y) == Key(m, b) ensures x == m && y == b {
        KeyInjective(x, y, m, b);
      }
    }

    /** Rate served for one model: its own rate for each distinct key of model and backend. */
    method ScheduledRate(m: string, counted0: set<string>, ghost done: set<string>)
      returns (sessions: seq<string>, rate: real, counted: set<string>)
      requires m in cmodels && Profiled(cmodels[m]) && NoUnderscore(m) && m !in done && DistinctSessions(table)
      requires CountedAre(counted0, done)
      ensures sessions == SessionsWith(table, m)
      ensures rate == Rate(|Hosts(table, m)|, Fps(cmodels, m))
      ensures CountedAre(counted, done + {m})
    {
      hide Hosts, HostsAmong, Names, Fps, Rate, Counting, CountedAre;
      sessions, rate, counted := [], 0.0, counted0;
      ghost var hosts: set<string> := {};
      NoHosts(m);
      StartCounting(counted0, done, m);
      RateGrows(0, Fps(cmodels, m));
      for i := 0 to |table|
        invariant hosts == Hosts(table[..i], m)
        invariant sessions == SessionsWith(table[..i], m)
        invariant rate == Rate(|hosts|, Fps(cmodels, m))
        invariant Counting(counted, done, m, hosts)
      {
        assert table[..i + 1][..i] == table[..i];
        var plans := table[i].models;
        var j := FindPlan(plans, m);
        if j < |plans| {
          sessions := sessions + [table[i].session];
        }
        counted, rate, hosts := CountEntry(m, plans, counted, rate, done, hosts);
        HostsGrow(table, i, m);
      }
      assert table[..|table|] == table;
      StopCounting(counted, done, m);
    }

    lemma StartCounting(counted: set<string>, done: set<string>, m: string)
      requires CountedAre(counted, done)
      ensures Counting(counted, done, m, {})
    {
    }

    lemma StopCounting(counted: set<string>, done: set<string>, m: string)
      requires Counting(counted, done, m, Hosts(table, m))
      ensures CountedAre(counted, done + {m})
    {
    }

    lemma NoHosts(m: string)
      ensures Hosts([], m) == {}
    {
    }

    lemma NoHostsAmong(m: string)
      ensures HostsAmong([], m) == {}
    {
    }

    method CountEntry(m: string, plans: seq<CModelPlan>, counted0: set<string>, rate0: real,
                      ghost done: set<string>, ghost hosts0: set<string>)
      returns (counted: set<string>, rate: real, ghost hosts: set<string>)
      requires m in cmodels && Profiled(cmodels[m]) && NoUnderscore(m) && m !in done
      requires Counting(counted0, done, m, hosts0) && rate0 == Rate(|hosts0|, Fps(cmodels, m))
      ensures hosts == hosts0 + HostsAmong(plans, m)
      ensures Counting(counted, done, m, hosts) && rate == Rate(|hosts|, Fps(cmodels, m))
    {
      hide Fps, Counting, Names, HostsAmong, Rate;
      counted, rate, hosts := counted0, rate0, hosts0;
      NoHostsAmong(m);
      assert plans[..0] == [];
      for j := 0 to |plans|
        invariant hosts == hosts0 + HostsAmong(plans[..j], m)
        invariant rate == Rate(|hosts|, Fps(cmodels, m))
        invariant Counting(counted, done, m, hosts)
      {
        HostsAmongGrow(plans, j, m);
        Reassociate(hosts0, HostsAmong(plans[..j], m), Names(plans[j].backends));
        if plans[j].model == m {
          var own := OwnRate(m);
          counted, rate, hosts := CountPlan(m, own, plans[j].backends, counted, rate, done, hosts);
        }
      }
      assert plans[..|plans|] == plans;
    }

    lemma Reassociate<T>(a: set<T>, b: set<T>, c: set<T>)
      ensures a + b + c == a + (b + c)
      ensures a + (b + {}) == a + b
    {
    }

    lemma OneMoreOrSame<T>(xs: set<T>, x: T)
      ensures x in xs ==> xs + {x} == xs
      ensures x !in xs ==> |xs + {x}| == |xs| + 1
    {
    }

    method CountPlan(m: string, own: real, bs: seq<BackendPlan>, counted0: set<string>, rate0: real,
                     ghost done: set<string>, ghost hosts0: set<string>)
      returns (counted: set<string>, rate: real, ghost hosts: set<string>)
      requires NoUnderscore(m) && m !in done
      requires Counting(counted0, done, m, hosts0) && rate0 == Rate(|hosts0|, own)
      ensures hosts == hosts0 + Names(bs)
      ensures Counting(counted, done, m, hosts) && rate == Rate(|hosts|, own)
    {
      hide Counting, Names, HostsAmong, Rate, Key, NoUnderscore;
      counted, rate, hosts := counted0, rate0, hosts0;
      NamesNonEmpty([]);
      for k := 0 to |bs|
        invariant hosts == hosts0 + Names(bs[..k])
        invariant rate == Rate(|hosts|, own)
        invariant Counting(counted, done, m, hosts)
      {
        assert bs[..k + 1] == bs[..k] + [bs[k]];
        NamesSnoc(bs[..k], bs[k]);
        Reassociate(hosts0, Names(bs[..k]), {bs[k].backend});
        counted, rate, hosts := CountHost(m, own, bs[k].backend, counted, rate, done, hosts);
      }
      assert bs[..|bs|] == bs;
    }

    /** One backend of a plan: it counts unless its key has been counted. */
    method CountHost(m: string, own: real, b: string, counted0: set<string>, rate0: real,
                     ghost done: set<string>, ghost hosts0: set<string>)
      returns (counted: set<string>, rate: real, ghost hosts: set<string>)
      requires NoUnderscore(m) && m !in done
      requires Counting(counted0, done, m, hosts0) && rate0 == Rate(|hosts0|, own)
      ensures hosts == hosts0 + {b}
      ensures Counting(counted, done, m, hosts) && rate == Rate(|hosts|, own)
    {
      hide Counting, Names, HostsAmong, Rate, Key, NoUnderscore;
      counted, rate, hosts := counted0, rate0, hosts0;
      CountOne(counted, done, m, hosts, b);
      RateGrows(|hosts|, own);
      OneMoreOrSame(hosts, b);
      var key := Key(m, b);
      if key !in counted {
        counted, rate, hosts := counted + {key}, rate + own, hosts + {b};
      } else {
        OneMoreOrSame(counted, key);
      }
    }

    /** `math.ceil(scheduled / rate)` is the number of backends. */
    lemma CeilOfRate(n: nat, fps: real)
      requires fps > 0.0
      ensures Ceil(Rate(n, fps) / fps) == n
    {
      assert Rate(n, fps) / fps == n as real;
    }

    /** Takes the model off the backend met first, if there is one. */
    method RemoveFirstHost(ghost w: World, m: string) returns (any: bool)
      requires Ready(w) && m in cmodels
      modifies this`table, this`backends
      ensures Ready(w)
      ensures any <==> FirstHost(old(table), m).Some?
      ensures Now() == if any then Undeploy(old(Now()), cmodels, m, FirstHost(old(table), m).value) else old(Now())
    {
      hide Good, WorldOk, Undeploy, MergeAll, PlansOf;
      var plans := CollectPlans(m);
      var hosts := MergeBackends(plans);
      if hosts == [] {
        return false;
      }
      RemoveSafely(w, m, hosts[0].backend);
      any := true;
    }

    method ScaleModelDown(ghost w: World, m: string, delta: nat)
      requires Ready(w) && m in cmodels
      modifies this`table, this`backends
      ensures Now() == ScaleDown(old(Now()), cmodels, m, delta)
    {
      hide Good, WorldOk, Undeploy, FirstHost;
      ghost var p := Now();
      for k := 0 to delta
        invariant Now() == ScaleDown(p, cmodels, m, k)
        invariant Ready(w)
      {
        var any := RemoveFirstHost(w, m);
        if !any {
          NothingToScaleDown(p, cmodels, m, k, delta);
          return;
        }
      }
    }

    lemma {:induction false} NothingToScaleDown(p: Pool, cat: Catalog, m: string, k: nat, delta: nat)
      requires k <= delta && FirstHost(ScaleDown(p, cat, m, k).table, m).None?
      ensures ScaleDown(p, cat, m, delta) == ScaleDown(p, cat, m, k)
    {
      hide FirstHost, Undeploy;
      if k < delta {
        NothingToScaleDown(p, cat, m, k, delta - 1);
      }
    }

    method ScaleModelUp(ghost w: World, m: string, sessions: seq<string>, delta: nat)
      requires Ready(w) && m in cmodels
      modifies this`table, this`backends
      ensures Now() == ScaleUp(old(Now()), cmodels, m, sessions, delta).0
    {
      hide Good, WorldOk, Deploy;
      ghost var p := Now();
      ReadyDistinct(w);
      RegisteredProfiled(w, m);
      for k := 0 to delta
        invariant (Now(), true) == ScaleUp(p, cmodels, m, sessions, k)
        invariant forall i, j :: 0 <= i < j < |backends| ==> backends[i].name != backends[j].name
      {
        DeployKeepsNames(Now(), cmodels, m, sessions);
        var used := DeployCModel(m, sessions);
        if used.None? {
          NoMoreScalingUp(p, cmodels, m, sessions, k + 1, delta);
          return;
        }
      }
    }

    lemma {:induction false} NoMoreScalingUp(p: Pool, cat: Catalog, m: string, sessions: seq<string>, k: nat, delta: nat)
      requires k <= delta && !ScaleUp(p, cat, m, sessions, k).1
      ensures ScaleUp(p, cat, m, sessions, delta) == ScaleUp(p, cat, m, sessions, k)
    {
      hide Deploy;
      if k < delta {
        NoMoreScalingUp(p, cat, m, sessions, k, delta - 1);
      }
    }

    /** What scaling needs to know of each model, measured before any model is scaled. */
    method Measure(ghost w: World, wanted: seq<string>) returns (serving: map<string, real>, sessions: map<string, seq<string>>)
      requires Ready(w) && DistinctStrings(wanted) && forall m :: m in wanted ==> m in cmodels
      ensures forall m :: m in wanted ==> m in serving && serving[m] == Rate(|Hosts(table, m)|, Fps(cmodels, m))
      ensures forall m :: m in wanted ==> m in sessions && sessions[m] == SessionsWith(table, m)
    {
      hide Good, Hosts, SessionsWith, Rate, CountedAre;
      var counted: set<string>;
      serving, sessions, counted := map[], map[], {};
      ghost var done: set<string> := {};
      ReadyDistinct(w);
      NothingCounted();
      for k := 0 to |wanted|
        invariant done == set l | 0 <= l < k :: wanted[l]
        invariant CountedAre(counted, done)
        invariant forall l :: 0 <= l < k ==>
                    && wanted[l] in serving && serving[wanted[l]] == Rate(|Hosts(table, wanted[l])|, Fps(cmodels, wanted[l]))
                    && wanted[l] in sessions && sessions[wanted[l]] == SessionsWith(table, wanted[l])
      {
        var m := wanted[k];
        RegisteredProfiled(w, m);
        var mine, rate;
        mine, rate, counted := ScheduledRate(m, counted, done);
        serving, sessions := serving[m := rate], sessions[m := mine];
        done := done + {m};
      }
    }

    lemma NothingCounted()
      ensures CountedAre({}, {})
    {
    }

    lemma WantedAreKnown(w: World)
      requires Ready(w) && RequestsOk(w, requests)
      ensures forall m :: m in Wanted(requests) ==> m in cmodels
      ensures forall k :: 0 <= k < |requests| ==> DistinctModelIds(requests[k].pipeline.models)
    {
      WantedFrom(w, requests, requests);
    }

    lemma {:induction false} WantedFrom(w: World, reqs: seq<Request>, all: seq<Request>)
      requires WorldOk(w) && RequestsOk(w, all) && reqs <= all
      ensures forall m :: m in Wanted(reqs) ==> m in w.cat
    {
      if reqs != [] {
        var init, q := reqs[..|reqs| - 1], reqs[|reqs| - 1];
        assert q == all[|reqs| - 1];
        WantedFrom(w, init, all);
        forall m | m in Wanted(reqs) ensures m in w.cat {
          MentionExact(Wanted(init), q.pipeline.models, m);
          if HasModel(q.pipeline.models, m) {
            var k :| 0 <= k < |q.pipeline.models| && q.pipeline.models[k].uuid == m;
            assert Registered(w, q.pipeline.models[k]);
          }
        }
      }
    }

    method ScaleOne(ghost w: World, ghost t: Table, m: string, asked: real, serving: real, sessions: seq<string>)
      requires Ready(w) && RequestsOk(w, requests) && m in Wanted(requests) && m in cmodels
      requires asked == Demand(requests, m) && serving == Rate(|Hosts(t, m)|, Fps(cmodels, m)) && sessions == SessionsWith(t, m)
      modifies this`table, this`backends
      ensures Now() == ScaleModel(old(Now()), cmodels, t, requests, m)
    {
      hide Good, WorldOk, RequestsOk, Hosts, SessionsWith, PlansOf, Rate, ScaleDown, ScaleUp, Demand, Wanted;
      SessionsOrPlans(t, m);
      if sessions == [] {
        return;
      }
      RegisteredProfiled(w, m);
      var fps := OwnRate(m);
      var want, have := Ceil(asked / fps), Ceil(serving / fps);
      CeilOfRate(|Hosts(t, m)|, fps);
      TargetPositive(w, requests, m);
      if have > want {
        ScaleModelDown(w, m, have - want);
      } else {
        ScaleModelUp(w, m, sessions, want - have);
      }
    }

    lemma SessionsOrPlans(t: Table, m: string)
      ensures SessionsWith(t, m) == [] <==> PlansOf(t, m) == []
    {
      UnplannedIsNoPlans(t, m);
      SessionsWithExact(t, m);
      if Unplanned(t, m) {
        if SessionsWith(t, m) != [] {
          assert SessionsWith(t, m)[0] in SessionsWith(t, m);
        }
      } else {
        SomebodyPlans(t, m);
      }
    }

    method ScaleSessions(ghost w: World)
      requires Ready(w) && RequestsOk(w, requests)
      modifies this`table, this`backends
      ensures Now() == Scale(old(Now()), cmodels, requests)
      ensures Ready(w)
    {
      hide Good, WorldOk, RequestsOk, Rate, Hosts, SessionsWith, ScaleModel, SameSkeleton, Settled, WithinBudget;
      ghost var p := Now();
      WantedAreKnown(w);
      WantedDistinct(requests);
      var wanted, asked := RequestedRates();
      var serving, sessions := Measure(w, wanted);
      for k := 0 to |wanted|
        invariant Now() == ScaleAll(p, cmodels, p.table, requests, wanted[..k])
        invariant Ready(w)
      {
        assert wanted[..k + 1][..k] == wanted[..k];
        var m := wanted[k];
        ScaleOne(w, p.table, m, asked[m], serving[m], sessions[m]);
        ScaleAllReaches(w, p, requests, wanted[..k + 1]);
      }
      assert wanted[..|wanted|] == wanted;
    }

    // ---- One call ---------------------------------------------------------------------------------------------

    /** Between calls, over the registered pipelines, models and kinds of backends in `w`. */
    ghost predicate Valid(w: World)
      reads this
    {
      && WorldOk(w)
      && Inv(w, BackendNames(lastBackends), table)
      && AllRequested(table, lastRequests)
      && RequestsOk(w, lastRequests)
      && Configured(w.cat, table)
    }

    method FillDictionaries(all: seq<Request>)
      modifies this`cmodels, this`pipelines
      ensures pipelines == PipesOf(all) && cmodels == CatOf(all)
    {
      pipelines, cmodels := map[], map[];
      for i := 0 to |all|
        invariant pipelines == PipesOf(all[..i]) && cmodels == CatOf(all[..i])
      {
        assert all[..i + 1][..i] == all[..i];
        var p := all[i].pipeline;
        if p.uuid !in pipelines {
          pipelines := pipelines[p.uuid := p];
        }
        ghost var before := cmodels;
        for k := 0 to |p.models|
          invariant pipelines == PipesOf(all[..i + 1])
          invariant cmodels == AddModels(before, p.models[..k])
        {
          assert p.models[..k + 1][..k] == p.models[..k];
          if p.models[k].uuid !in cmodels {
            cmodels := cmodels[p.models[k].uuid := p.models[k]];
          }
        }
        assert p.models[..|p.models|] == p.models;
      }
      assert all[..|all|] == all;
    }

    method KeyRequests(reqs: array<Request>)
      modifies reqs
      ensures reqs[..] == Keyed(old(reqs[..]))
    {
      ghost var raw := reqs[..];
      for i := 0 to reqs.Length
        invariant forall k :: 0 <= k < i ==> reqs[k] == WithKey(raw[k])
        invariant forall k :: i <= k < reqs.Length ==> reqs[k] == raw[k]
      {
        reqs[i] := reqs[i].(session := Key(reqs[i].pipeline.uuid, reqs[i].session));
      }
      KeyedExact(raw);
      assert reqs[..] == Keyed(raw);
    }

    method StoreRequests(reqs: seq<Request>)
      modifies this`requests
      ensures requests == Stored(reqs)
    {
      requests := [];
      for i := 0 to |reqs|
        invariant requests == Stored(reqs[..i])
      {
        assert reqs[..i + 1][..i] == reqs[..i];
        var k := 0;
        while k < |requests| && requests[k].session != reqs[i].session
          invariant k <= |requests|
          invariant forall l :: 0 <= l < k ==> requests[l].session != reqs[i].session
        {
          k := k + 1;
        }
        PositionIs(requests, reqs[i].session, k);
        if k < |requests| {
          requests := requests[k := reqs[i]];
        } else {
          requests := requests + [reqs[i]];
        }
      }
      assert reqs[..|reqs|] == reqs;
    }

    /** Keys the requests and fills in everything the steps of the call look at. */
    method TakeIn(reqs: array<Request>, bs: seq<Backend>)
      modifies reqs, this`requests, this`cmodels, this`pipelines, this`backends
      ensures reqs[..] == Keyed(old(reqs[..])) && requests == Stored(reqs[..]) && backends == bs
      ensures pipelines == PipesOf(lastRequests + reqs[..]) && cmodels == CatOf(lastRequests + reqs[..])
    {
      hide Keyed, Stored, PipesOf, CatOf;
      KeyRequests(reqs);
      FillDictionaries(lastRequests + reqs[..]);
      StoreRequests(reqs[..]);
      backends := bs;
    }

    /** The six steps of a call, in their order. */
    method RunSteps(ghost w: World, ghost live: set<string>)
      requires live == BackendNames(lastBackends) && w.cat == cmodels && w.pipes == pipelines
      requires CallOk(w, Now(), live, live - BackendNames(backends), requests)
      requires Unshared(w, Now(), live - BackendNames(backends), requests)
      requires forall i :: 0 <= i < |lastRequests| ==> FirstSegment(lastRequests[i].session) == lastRequests[i].pipeline.uuid
      requires forall i, k :: 0 <= i < |lastRequests| && 0 <= k < |lastRequests[i].pipeline.models| ==>
                 lastRequests[i].pipeline.models[k].uuid in cmodels
      modifies this`table, this`backends
      ensures Now() == PolicyModel.Schedule(old(Now()), cmodels, pipelines, live - BackendNames(old(backends)), requests)
      ensures Good(w, Now()) && AllRequested(table, requests)
      ensures WithinBudget(w.cat, Now(), old(Now()))
    {
      hide Good, Inv, WithinBudget, AllRequested, RequestsOk, WorldOk, BackendsOk, NoDebt, AllClean, Expire,
        RemoveSessions, Unused, DeployPipelines, ToAdd, Assign, Scale;
      ghost var p := Now();
      ghost var gone := live - BackendNames(backends);
      RemoveExpiredBackends();
      ExpireGood(w, p, live, gone);
      RemoveUnusedSessions(w);
      assert Now() == Prune(p, cmodels, gone, requests);
      PruneExact(w, p, live, gone, requests);
      RemoveUnusedPipelines(w);
      DeployNewPipelines(w);
      AssignBackendsToUnscheduledSessions();
      assert Now() == BeforeScaling(w, p, gone, requests);
      BeforeScalingGood(w, p, live, gone, requests);
      ScaleSessions(w);
      ScheduleIsScale(w, p, gone, requests);
      ScheduleKeeps(w, p, live, gone, requests);
    }

    method CollectAllPlans() returns (plans: seq<CModelPlan>)
      ensures plans == AllPlans(table)
    {
      plans := [];
      for i := 0 to |table|
        invariant plans == AllPlans(table[..i])
      {
        assert table[..i + 1][..i] == table[..i];
        plans := plans + table[i].models;
      }
      assert table[..|table|] == table;
    }

    /** `schedule`. The requests are re-keyed in place; the table that results is the specified
      * one; the object is ready for the next call; and the answer lists, backend by backend,
      * exactly the placements in the table. */
    method Schedule(ghost w: World, reqs: array<Request>, bs: seq<Backend>) returns (plan: seq<BackendGroup>)
      requires Valid(w)
      requires BackendsOk(w, bs) && NoDebt(bs)
      requires forall i :: 0 <= i < reqs.Length ==> Offered(w, reqs[i])
      requires Unshared(CallWorld(w, lastRequests, Keyed(reqs[..])), Pool(table, bs), BackendNames(lastBackends) - BackendNames(bs),
                        Stored(Keyed(reqs[..])))
      modifies this, reqs
      ensures reqs[..] == Keyed(old(reqs[..]))
      ensures Valid(w)
      ensures lastRequests == Stored(reqs[..]) && BackendNames(lastBackends) == BackendNames(bs)
      ensures var w1 := CallWorld(w, old(lastRequests), reqs[..]);
              var gone := old(BackendNames(lastBackends)) - BackendNames(bs);
              && Pool(table, lastBackends) == PolicyModel.Schedule(Pool(old(table), bs), w1.cat, w1.pipes, gone, lastRequests)
              && WithinBudget(w1.cat, Pool(table, lastBackends), Pool(old(table), bs))
      ensures Grouped(plan) && Listed(plan) == Placements(AllPlans(table)) && AllFrom(plan, AllPlans(table))
    {
      hide AllFrom, Configured, Inv, Good, BackendsOk, AllRequested, RequestsOk, Unshared, WorldOk, WithinBudget, PolicyModel.Schedule, NoDebt,
        Keyed, Stored, PipesOf, CatOf, BackendNames, Offered, Grouped, Listed, Placements, AllPlans, CallOk;
      ghost var raw, last, t, live := reqs[..], lastRequests, table, BackendNames(lastBackends);
      ghost var w1 := CallWorld(w, last, Keyed(raw));
      CallIsOk(w, t, live, last, raw, bs);
      TakeIn(reqs, bs);
      RunSteps(w1, live);
      BudgetNames(w1, Now(), Pool(t, bs));
      AfterCall(w, w1, last, raw, Now(), bs);
      StaysConfigured(w, w1, live, t, last, raw, bs, Now());
      lastBackends := backends;
      lastRequests := requests;
      var plans := CollectAllPlans();
      plan := Regroup(plans);
    }

    /** What the table says of components carries over from call to call. */
    lemma StaysConfigured(w: World, w1: World, live: set<string>, t: Table, last: seq<Request>, raw: seq<Request>,
                          bs: seq<Backend>, q: Pool)
      requires WorldOk(w) && Inv(w, live, t) && AllRequested(t, last) && RequestsOk(w, last) && Configured(w.cat, t)
      requires forall i :: 0 <= i < |raw| ==> Offered(w, raw[i])
      requires w1 == CallWorld(w, last, Keyed(raw)) && Good(w1, q)
      requires q == PolicyModel.Schedule(Pool(t, bs), w1.cat, w1.pipes, live - BackendNames(bs), Stored(Keyed(raw)))
      ensures Configured(w.cat, q.table)
    {
      hide Configured, PolicyModel.Schedule, Inv, AllRequested, RequestsOk, WorldOk, PartOf, Keyed, Stored, PipesOf, CatOf, Offered;
      AllKnown(w, last, raw);
      PlansInPart(w, w1, live, t, last);
      ConfiguredInPart(w1, w, live, t);
      ScheduleConfigured(w1.cat, Pool(t, bs), w1.pipes, live - BackendNames(bs), Stored(Keyed(raw)));
      ConfiguredInPart(w1, w, BackendNames(q.backends), q.table);
    }

    lemma BudgetNames(w: World, q: Pool, p: Pool)
      requires WithinBudget(w.cat, q, p)
      ensures SameBackends(q.backends, p.backends)
    {
    }
  }
}
