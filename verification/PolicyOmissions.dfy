/** Why a requested session is left without plans: some pipeline found no room. */
module PolicyOmissions {
  import opened Ids
  import opened PolicyModel
  import opened PolicyTables
  import opened PolicyGrowth
  import opened PolicyInvariants
  import opened PolicyBudget
  import opened PolicyPruning
  import opened PolicyDeployment
  import opened PolicyAllOrNothing
  import opened PolicyPlacement
  import opened PolicyAssignment
  import opened PolicyScaling
  import opened PolicyRuns

  /** The pool when pipeline `i` of the list has its turn. */
  function AtTurn(w: World, p: Pool, reqs: seq<Request>, todo: seq<string>, i: nat): Pool
    requires i <= |todo|
  {
    DeployPipelines(p, w.cat, w.pipes, reqs, todo[..i])
  }

  /** One of its new models then finds no backend with room. */
  predicate NoRoomAt(w: World, p: Pool, reqs: seq<Request>, todo: seq<string>, i: nat)
    requires i < |todo|
  {
    !Roomy(AtTurn(w, p, reqs, todo, i), w.cat, ModelsOf(w.pipes, todo[i]))
  }

  /** What holds for the pipelines of a call when they are about to be deployed. */
  ghost predicate TurnsOk(w: World, p: Pool, reqs: seq<Request>, todo: seq<string>) {
    && WorldOk(w) && Good(w, p) && RequestsOk(w, reqs) && AllRequested(p.table, reqs)
    && (forall u :: u in todo ==> InUse(reqs, u))
    && AllClean(p, w.cat, w.pipes, reqs, todo)
  }

  /** At the last turn. */
  lemma LastTurn(w: World, p: Pool, reqs: seq<Request>, todo: seq<string>)
    requires TurnsOk(w, p, reqs, todo) && todo != []
    ensures var last := |todo| - 1;
            var q, u := AtTurn(w, p, reqs, todo, last), todo[last];
            && TurnsOk(w, p, reqs, todo[..last]) && Good(w, q)
            && PipelineSessions(w, ModelsOf(w.pipes, u), SessionsOf(reqs, u))
            && Clean(q, w.cat, ModelsOf(w.pipes, u), SessionsOf(reqs, u))
            && AtTurn(w, p, reqs, todo, |todo|) == DeployPipeline(q, w.cat, ModelsOf(w.pipes, u), SessionsOf(reqs, u))
            && forall i :: 0 <= i < last ==> NoRoomAt(w, p, reqs, todo[..last], i) == NoRoomAt(w, p, reqs, todo, i)
  {
    hide Good, WorldOk, RequestsOk, AllRequested, InUse, Clean, DeployPipeline, PipelineSessions, Roomy;
    var last := |todo| - 1;
    assert todo[..|todo|] == todo;
    DeployPipelinesGood(w, p, reqs, todo[..last]);
    SessionsFit(w, reqs, todo[last]);
    forall i | 0 <= i < last ensures NoRoomAt(w, p, reqs, todo[..last], i) == NoRoomAt(w, p, reqs, todo, i) {
      assert todo[..last][..i] == todo[..i];
    }
  }

  lemma OutsideStays(r: Table, t: Table, ss: seq<string>, s: string)
    requires OthersSame(r, t, ss) && s !in ss && HasSession(t, s)
    ensures HasSession(r, s)
  {
    DropAllEntries(r, ss);
    DropAllEntries(t, ss);
    var i :| 0 <= i < |t| && t[i].session == s;
    assert t[i] in DropAll(t, ss);
    var k :| 0 <= k < |r| && r[k] == t[i];
  }

  lemma OwnPipeline(reqs: seq<Request>, u: string, s: string)
    requires s in SessionsOf(reqs, u) && forall i :: 0 <= i < |reqs| ==> FirstSegment(reqs[i].session) == reqs[i].pipeline.uuid
    ensures FirstSegment(s) == u
  {
    SessionsOfExact(reqs, u);
    var i :| 0 <= i < |reqs| && reqs[i].session == s && reqs[i].pipeline.uuid == u;
  }

  /** The session of another pipeline keeps its plans in a turn. */
  lemma OthersTurn(w: World, q: Pool, reqs: seq<Request>, u: string, other: string, s: string)
    requires Good(w, q) && PipelineSessions(w, ModelsOf(w.pipes, u), SessionsOf(reqs, u))
    requires forall i :: 0 <= i < |reqs| ==> FirstSegment(reqs[i].session) == reqs[i].pipeline.uuid
    requires u != other && s in SessionsOf(reqs, other) && HasSession(q.table, s)
    ensures HasSession(DeployPipeline(q, w.cat, ModelsOf(w.pipes, u), SessionsOf(reqs, u)).table, s)
  {
    hide Good, PipelineSessions, DeployPipeline, DeployModels, SessionsOf, HasSession, OthersSame, PlacedWhole;
    var models, ss := ModelsOf(w.pipes, u), SessionsOf(reqs, u);
    AllOrNothing(w, q, models, ss);
    OwnPipeline(reqs, other, s);
    if s in ss {
      OwnPipeline(reqs, u, s);
    }
    OutsideStays(DeployPipeline(q, w.cat, models, ss).table, q.table, ss, s);
  }

  /** A session of a pipeline that finds room has plans after its turn. */
  lemma OwnTurn(w: World, q: Pool, models: seq<CModel>, ss: seq<string>, s: string)
    requires Good(w, q) && PipelineSessions(w, models, ss) && Roomy(q, w.cat, models) && s in ss
    ensures HasSession(DeployPipeline(q, w.cat, models, ss).table, s)
  {
    hide Good, PipelineSessions, DeployPipeline, DeployModels, Roomy, OthersSame, PlansEvery;
    AttemptSucceedsIff(w, q, models, ss);
    AllOrNothing(w, q, models, ss);
    var t := DeployPipeline(q, w.cat, models, ss).table;
    assert PlacedWhole(t, s, models);
    var i :| 0 <= i < |t| && t[i].session == s && PlansEvery(t[i], models);
  }

  lemma LastOwn(w: World, p: Pool, reqs: seq<Request>, todo: seq<string>, s: string)
    requires TurnsOk(w, p, reqs, todo) && todo != []
    requires s in SessionsOf(reqs, todo[|todo| - 1]) && !NoRoomAt(w, p, reqs, todo, |todo| - 1)
    ensures HasSession(AtTurn(w, p, reqs, todo, |todo|).table, s)
  {
    var last := |todo| - 1;
    var q, u := AtTurn(w, p, reqs, todo, last), todo[last];
    LastTurn(w, p, reqs, todo);
    assert Roomy(q, w.cat, ModelsOf(w.pipes, u));
    hide *;
    OwnTurn(w, q, ModelsOf(w.pipes, u), SessionsOf(reqs, u), s);
  }

  lemma LastOther(w: World, p: Pool, reqs: seq<Request>, todo: seq<string>, other: string, s: string)
    requires TurnsOk(w, p, reqs, todo) && todo != [] && other != todo[|todo| - 1]
    requires s in SessionsOf(reqs, other) && HasSession(AtTurn(w, p, reqs, todo, |todo| - 1).table, s)
    ensures HasSession(AtTurn(w, p, reqs, todo, |todo|).table, s)
  {
    hide *;
    var last := |todo| - 1;
    LastTurn(w, p, reqs, todo);
    KnownSegments(w, p, reqs, todo);
    OthersTurn(w, AtTurn(w, p, reqs, todo, last), reqs, todo[last], other, s);
  }

  lemma EarlierTurns(w: World, p: Pool, reqs: seq<Request>, todo: seq<string>, n: nat)
    requires TurnsOk(w, p, reqs, todo) && DistinctStrings(todo) && n < |todo| - 1
    ensures var init := todo[..|todo| - 1];
            && TurnsOk(w, p, reqs, init) && DistinctStrings(init) && init[n] == todo[n] && todo[n] != todo[|todo| - 1]
            && NoRoomAt(w, p, reqs, init, n) == NoRoomAt(w, p, reqs, todo, n)
            && AtTurn(w, p, reqs, init, |init|) == AtTurn(w, p, reqs, todo, |todo| - 1)
  {
    LastTurn(w, p, reqs, todo);
    hide TurnsOk, NoRoomAt;
    SameTurn(w, p, reqs, todo, |todo| - 1);
  }

  /** A session whose own pipeline found room has plans when all have had their turn. */
  lemma {:induction false} RoomForOwn(w: World, p: Pool, reqs: seq<Request>, todo: seq<string>, n: nat, s: string)
    requires TurnsOk(w, p, reqs, todo) && DistinctStrings(todo)
    requires n < |todo| && s in SessionsOf(reqs, todo[n]) && !NoRoomAt(w, p, reqs, todo, n)
    ensures HasSession(AtTurn(w, p, reqs, todo, |todo|).table, s)
  {
    hide *;
    if n < |todo| - 1 {
      EarlierTurns(w, p, reqs, todo, n);
      RoomForOwn(w, p, reqs, todo[..|todo| - 1], n, s);
      LastOther(w, p, reqs, todo, todo[n], s);
    } else {
      LastOwn(w, p, reqs, todo, s);
    }
  }

  lemma KnownSegments(w: World, p: Pool, reqs: seq<Request>, todo: seq<string>)
    requires TurnsOk(w, p, reqs, todo)
    ensures forall i :: 0 <= i < |reqs| ==> FirstSegment(reqs[i].session) == reqs[i].pipeline.uuid
  {
    hide FirstSegment;
  }

  lemma SameTurn(w: World, p: Pool, reqs: seq<Request>, todo: seq<string>, n: nat)
    requires n <= |todo|
    ensures AtTurn(w, p, reqs, todo[..n], |todo[..n]|) == AtTurn(w, p, reqs, todo, n)
  {
    assert todo[..n][..n] == todo[..n];
  }

  /** A pipeline that finds room takes no model away from others. */
  lemma RoomKeepsOthers(w: World, q: Pool, models: seq<CModel>, ss: seq<string>, other: seq<CModel>)
    requires Good(w, q) && PipelineSessions(w, models, ss) && Clean(q, w.cat, models, ss) && Roomy(q, w.cat, models)
    requires PipelinePlaced(q.table, other)
    ensures PipelinePlaced(DeployPipeline(q, w.cat, models, ss).table, other)
  {
    var g, r := DeployModels(q, w.cat, models, ss), DeployPipeline(q, w.cat, models, ss);
    AttemptSucceedsIff(w, q, models, ss);
    hide Good, PipelineSessions, Roomy, DeployModels, Runs, WithinBudget, OthersSame, DeployedFor, Hosts;
    DeployModelsOk(w, q, models, models, ss);
    ShareNothing(g.pool.table, ss);
    forall k | 0 <= k < |other| ensures Hosts(r.table, other[k].uuid) != {} {
      var b :| b in Hosts(q.table, other[k].uuid);
      assert Runs(r.table, other[k].uuid, b);
      assert b in Hosts(r.table, other[k].uuid);
    }
  }

  lemma {:induction false} RoomForAll(w: World, p: Pool, reqs: seq<Request>, todo: seq<string>, other: seq<CModel>)
    requires TurnsOk(w, p, reqs, todo) && PipelinePlaced(p.table, other)
    requires forall i :: 0 <= i < |todo| ==> !NoRoomAt(w, p, reqs, todo, i)
    ensures PipelinePlaced(AtTurn(w, p, reqs, todo, |todo|).table, other)
  {
    hide TurnsOk, Good, Clean, DeployPipeline, PipelineSessions, Roomy, PipelinePlaced;
    if todo == [] {
      assert todo[..0] == [];
    } else {
      var last := |todo| - 1;
      LastTurn(w, p, reqs, todo);
      assert todo[..last][..last] == todo[..last];
      RoomForAll(w, p, reqs, todo[..last], other);
      assert !NoRoomAt(w, p, reqs, todo, last);
      var u := todo[last];
      RoomKeepsOthers(w, AtTurn(w, p, reqs, todo, last), ModelsOf(w.pipes, u), SessionsOf(reqs, u), other);
    }
  }

  lemma {:induction false} ToAddExact(t: Table, reqs: seq<Request>)
    ensures DistinctStrings(ToAdd(t, reqs))
    ensures forall k :: 0 <= k < |reqs| && reqs[k].pipeline.uuid !in ToAdd(t, reqs) ==> PipelinePlaced(t, reqs[k].pipeline.models)
  {
    if reqs != [] {
      var init := reqs[..|reqs| - 1];
      ToAddExact(t, init);
      hide PipelinePlaced;
      assert forall k :: 0 <= k < |init| ==> reqs[k] == init[k];
    }
  }

  /** A pipeline is deployed exactly if it is requested and some model of it runs nowhere. */
  lemma {:induction false} ToAddIff(t: Table, reqs: seq<Request>, u: string)
    ensures u in ToAdd(t, reqs) <==>
            exists k :: 0 <= k < |reqs| && reqs[k].pipeline.uuid == u && SomewhereMissing(t, reqs[k].pipeline.models)
  {
    if reqs != [] {
      var init, q := reqs[..|reqs| - 1], reqs[|reqs| - 1];
      ToAddIff(t, init, u);
      assert SomewhereMissing(t, q.pipeline.models) <==> !PipelinePlaced(t, q.pipeline.models);
      hide SomewhereMissing, PipelinePlaced;
      if k :| 0 <= k < |init| && init[k].pipeline.uuid == u && SomewhereMissing(t, init[k].pipeline.models) {
        assert reqs[k].pipeline.uuid == u && SomewhereMissing(t, reqs[k].pipeline.models);
      }
    }
  }

  /** Some model of a pipeline has no backend. */
  predicate SomewhereMissing(t: Table, models: seq<CModel>) {
    exists k :: 0 <= k < |models| && Hosts(t, models[k].uuid) == {}
  }

  lemma PlacedIsPlanned(t: Table, models: seq<CModel>)
    requires Shape(t) && PipelinePlaced(t, models)
    ensures AllPlanned(t, models)
  {
    forall k | 0 <= k < |models| ensures PlansOf(t, models[k].uuid) != [] {
      PlannedIsHosted(t, models[k].uuid);
      UnplannedIsNoPlans(t, models[k].uuid);
    }
  }

  /** Why request `k` was left out: its own pipeline was to be deployed and found no room; or all its
    * models had a backend already, and some other pipeline found no room and was taken back. */
  predicate LeftOut(w: World, q: Pool, reqs: seq<Request>, k: nat)
    requires k < |reqs|
  {
    var todo := ToAdd(q.table, reqs);
    exists i :: 0 <= i < |todo| && NoRoomAt(w, q, reqs, todo, i) &&
      (reqs[k].pipeline.uuid in todo ==> todo[i] == reqs[k].pipeline.uuid)
  }

  lemma OmittedBeforeScaling(w: World, q: Pool, reqs: seq<Request>, k: nat)
    requires TurnsOk(w, q, reqs, ToAdd(q.table, reqs)) && k < |reqs|
    requires var d := AtTurn(w, q, reqs, ToAdd(q.table, reqs), |ToAdd(q.table, reqs)|);
             Shape(d.table) && d.table <= Assign(d.table, reqs) && !HasSession(Assign(d.table, reqs), reqs[k].session)
    ensures LeftOut(w, q, reqs, k)
  {
    hide TurnsOk, Good, Roomy, Shape, Assign, PipelinePlaced, AtTurn, NoRoomAt, ToAdd, AllPlanned;
    var todo, u, s := ToAdd(q.table, reqs), reqs[k].pipeline.uuid, reqs[k].session;
    var d := AtTurn(w, q, reqs, todo, |todo|);
    ToAddExact(q.table, reqs);
    AssignComplete(d.table, reqs, k);
    if u in todo {
      var n :| 0 <= n < |todo| && todo[n] == u;
      SessionsOfExact(reqs, u);
      if !NoRoomAt(w, q, reqs, todo, n) {
        RoomForOwn(w, q, reqs, todo, n, s);
      }
    } else if forall i :: 0 <= i < |todo| ==> !NoRoomAt(w, q, reqs, todo, i) {
      RoomForAll(w, q, reqs, todo, reqs[k].pipeline.models);
      PlacedIsPlanned(d.table, reqs[k].pipeline.models);
    }
  }

  /** A requested session is left without plans after a call only if a pipeline deployed in the call found
    * no room for one of its new models when its turn came: its own one, if that was to be deployed. */
  lemma OmittedOnlyIfFull(w: World, p: Pool, live: set<string>, gone: set<string>, reqs: seq<Request>, k: nat)
    requires CallOk(w, p, live, gone, reqs) && Unshared(w, p, gone, reqs) && k < |reqs|
    requires !HasSession(Schedule(p, w.cat, w.pipes, gone, reqs).table, reqs[k].session)
    ensures LeftOut(w, Prune(p, w.cat, gone, reqs), reqs, k)
  {
    hide WithinBudget, Inv, BackendsOk, WorldOk, RequestsOk, LeftOut, Prune, Scale, Schedule, HasSession, AllClean;
    var q := Prune(p, w.cat, gone, reqs);
    var todo := ToAdd(q.table, reqs);
    PruneExact(w, p, live, gone, reqs);
    ToAddAreRequested(q.table, reqs);
    DeployPipelinesGood(w, q, reqs, todo);
    assert todo[..|todo|] == todo;
    var d, a := DeployPipelines(q, w.cat, w.pipes, reqs, todo), BeforeScaling(w, p, gone, reqs);
    AssignInv(w, BackendNames(d.backends), d.table, reqs, reqs);
    ScheduleIsScale(w, p, gone, reqs);
    BeforeScalingGood(w, p, live, gone, reqs);
    ScaleReaches(w, a, reqs);
    if HasSession(a.table, reqs[k].session) {
      SkeletonHas(Scale(a, w.cat, reqs).table, a.table, reqs[k].session);
    }
    GoodIsShape(w, d);
    OmittedBeforeScaling(w, q, reqs, k);
  }

  lemma SkeletonHas(r: Table, t: Table, s: string)
    requires SameSkeleton(r, t) && HasSession(t, s)
    ensures HasSession(r, s)
  {
    var i :| 0 <= i < |t| && t[i].session == s;
    assert SameModels(r[i], t[i]);
  }
}
