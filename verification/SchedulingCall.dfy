/** What a call of the policy is given, and how it relates to what is registered overall. */
module SchedulingCall {
  import opened Ids
  import opened PolicyModel
  import opened PolicyInvariants
  import opened PolicyBudget
  import opened PolicyPruning
  import opened PolicyRuns

  // ---- Requests under their keys ------------------------------------------------------------

  function WithKey(q: Request): Request {
    q.(session := Key(q.pipeline.uuid, q.session))
  }

  function Keyed(reqs: seq<Request>): (r: seq<Request>)
    ensures |r| == |reqs|
  {
    if reqs == [] then [] else Keyed(reqs[..|reqs| - 1]) + [WithKey(reqs[|reqs| - 1])]
  }

  lemma {:induction false} KeyedExact(reqs: seq<Request>)
    ensures forall i :: 0 <= i < |reqs| ==> Keyed(reqs)[i] == WithKey(reqs[i])
  {
    if reqs != [] {
      KeyedExact(reqs[..|reqs| - 1]);
    }
  }

  function Position(d: seq<Request>, s: string): (i: nat)
    ensures i <= |d|
    ensures i < |d| ==> d[i].session == s
    ensures forall k :: 0 <= k < i ==> d[k].session != s
  {
    if d == [] then 0
    else
      var i := Position(d[..|d| - 1], s);
      if i < |d| - 1 then i else if d[|d| - 1].session == s then |d| - 1 else |d|
  }

  lemma PositionIs(d: seq<Request>, s: string, k: nat)
    requires k <= |d| && (k < |d| ==> d[k].session == s) && forall l :: 0 <= l < k ==> d[l].session != s
    ensures Position(d, s) == k
  {
  }

  /** The dictionary of requests by key: a later request replaces an earlier one in its place. */
  function Stored(reqs: seq<Request>): seq<Request> {
    if reqs == [] then []
    else
      var d, q := Stored(reqs[..|reqs| - 1]), reqs[|reqs| - 1];
      var i := Position(d, q.session);
      if i < |d| then d[i := q] else d + [q]
  }

  /** Keys are distinct, every stored request is one of those given, and every key given is stored. */
  lemma {:induction false} StoredExact(reqs: seq<Request>)
    ensures forall i, j :: 0 <= i < j < |Stored(reqs)| ==> Stored(reqs)[i].session != Stored(reqs)[j].session
    ensures forall q :: q in Stored(reqs) ==> q in reqs
    ensures forall s :: Requested(Stored(reqs), s) <==> Requested(reqs, s)
  {
    if reqs != [] {
      var init, q := reqs[..|reqs| - 1], reqs[|reqs| - 1];
      assert reqs == init + [q];
      StoredExact(init);
      var d, r := Stored(init), Stored(reqs);
      var i := Position(d, q.session);
      forall x | x in r ensures x in reqs {
        if x != q {
          assert x in d;
        }
      }
      RequestedPut(d, r, i, q);
      RequestedPut(init, reqs, |init|, q);
      hide Stored, Requested;
    }
  }

  /** Of several requests with one key it is the last that is kept. */
  lemma {:induction false} LatestIsStored(reqs: seq<Request>, i: nat)
    requires i < |reqs| && forall k :: i < k < |reqs| ==> reqs[k].session != reqs[i].session
    ensures reqs[i] in Stored(reqs)
  {
    var init, q := reqs[..|reqs| - 1], reqs[|reqs| - 1];
    var d := Stored(init);
    var at := Position(d, q.session);
    if i < |init| {
      LatestIsStored(init, i);
      var j :| 0 <= j < |d| && d[j] == reqs[i];
      assert Stored(reqs)[j] == d[j];
    } else {
      assert Stored(reqs)[at] == q;
    }
  }

  /** The keys come in the order in which they are first used. */
  lemma {:induction false} StoredInOrder(reqs: seq<Request>, i: nat, j: nat)
    requires i < j < |Stored(reqs)|
    ensures Position(reqs, Stored(reqs)[i].session) < Position(reqs, Stored(reqs)[j].session) < |reqs|
  {
    var init, q := reqs[..|reqs| - 1], reqs[|reqs| - 1];
    var d := Stored(init);
    StoredExact(init);
    if j < |d| {
      StoredInOrder(init, i, j);
    } else {
      RequestedPosition(init, q.session);
      RequestedPosition(init, d[i].session);
      assert Requested(d, d[i].session);
      NotYetStored(d, q.session);
    }
  }

  lemma RequestedPosition(reqs: seq<Request>, s: string)
    ensures Requested(reqs, s) <==> Position(reqs, s) < |reqs|
  {
  }

  lemma NotYetStored(d: seq<Request>, s: string)
    ensures Position(d, s) == |d| ==> !Requested(d, s)
  {
  }

  /** Who is requested after one request was put into a list, at its end or in place of one of the same key. */
  lemma RequestedPut(d: seq<Request>, r: seq<Request>, i: nat, q: Request)
    requires i <= |d| && (i < |d| ==> d[i].session == q.session)
    requires r == if i < |d| then d[i := q] else d + [q]
    ensures forall s :: Requested(r, s) <==> Requested(d, s) || s == q.session
  {
    forall s ensures Requested(r, s) <==> Requested(d, s) || s == q.session {
      if k :| 0 <= k < |d| && d[k].session == s {
        assert r[k].session == s;
      }
      assert r[i].session == q.session;
    }
  }

  // ---- The dictionaries of a call ----------------------------------------------------------------

  function PipesOf(all: seq<Request>): map<string, Pipeline> {
    if all == [] then map[]
    else
      var d, p := PipesOf(all[..|all| - 1]), all[|all| - 1].pipeline;
      if p.uuid in d then d else d[p.uuid := p]
  }

  function AddModels(d: Catalog, models: seq<CModel>): Catalog {
    if models == [] then d
    else
      var r, c := AddModels(d, models[..|models| - 1]), models[|models| - 1];
      if c.uuid in r then r else r[c.uuid := c]
  }

  function CatOf(all: seq<Request>): Catalog {
    if all == [] then map[] else AddModels(CatOf(all[..|all| - 1]), all[|all| - 1].pipeline.models)
  }

  /** The part of what is registered that a call knows of. */
  function CallWorld(w: World, last: seq<Request>, keyed: seq<Request>): World {
    World(PipesOf(last + keyed), CatOf(last + keyed), w.gpu)
  }

  predicate Offered(w: World, q: Request) {
    q.pipeline.uuid in w.pipes && w.pipes[q.pipeline.uuid] == q.pipeline && q.fps > 0.0
  }

  predicate KnownPipeline(w: World, q: Request) {
    q.pipeline.uuid in w.pipes && w.pipes[q.pipeline.uuid] == q.pipeline
  }

  /** `v` knows only what `w` knows, and every model of every pipeline it knows. */
  predicate PartOf(v: World, w: World) {
    && v.gpu == w.gpu
    && (forall u :: u in v.pipes ==> u in w.pipes && v.pipes[u] == w.pipes[u])
    && (forall m :: m in v.cat ==> m in w.cat && v.cat[m] == w.cat[m])
    && forall u, k :: u in v.pipes && 0 <= k < |v.pipes[u].models| ==> v.pipes[u].models[k].uuid in v.cat
  }

  lemma {:induction false} AddModelsExact(w: World, d: Catalog, models: seq<CModel>)
    requires forall m :: m in d ==> m in w.cat && d[m] == w.cat[m]
    requires forall k :: 0 <= k < |models| ==> Registered(w, models[k])
    ensures forall m :: m in AddModels(d, models) ==> m in w.cat && AddModels(d, models)[m] == w.cat[m]
    ensures forall m :: m in d ==> m in AddModels(d, models)
    ensures forall k :: 0 <= k < |models| ==> models[k].uuid in AddModels(d, models)
  {
    if models != [] {
      AddModelsExact(w, d, models[..|models| - 1]);
    }
  }

  predicate MentionsPipeline(all: seq<Request>, u: string) {
    exists i :: 0 <= i < |all| && all[i].pipeline.uuid == u
  }

  predicate MentionsModel(all: seq<Request>, m: string) {
    exists i :: 0 <= i < |all| && HasModel(all[i].pipeline.models, m)
  }

  /** The dictionaries of a call hold the pipelines and models that its requests mention, and no others. */
  lemma {:induction false} OnlyMentioned(all: seq<Request>)
    ensures forall u :: u in PipesOf(all) <==> MentionsPipeline(all, u)
    ensures forall m :: m in CatOf(all) <==> MentionsModel(all, m)
  {
    if all != [] {
      var init, q := all[..|all| - 1], all[|all| - 1];
      OnlyMentioned(init);
      AddModelsKeys(CatOf(init), q.pipeline.models);
      hide HasModel, AddModels;
      forall u: string
        ensures MentionsPipeline(all, u) <==> MentionsPipeline(init, u) || u == q.pipeline.uuid
        ensures MentionsModel(all, u) <==> MentionsModel(init, u) || HasModel(q.pipeline.models, u)
      {
        MentionedSnoc(all, u);
      }
    }
  }

  lemma MentionedSnoc(all: seq<Request>, u: string)
    requires all != []
    ensures var init, q := all[..|all| - 1], all[|all| - 1];
            && (MentionsPipeline(all, u) <==> MentionsPipeline(init, u) || u == q.pipeline.uuid)
            && (MentionsModel(all, u) <==> MentionsModel(init, u) || HasModel(q.pipeline.models, u))
  {
    hide HasModel;
    var init, last := all[..|all| - 1], |all| - 1;
    if i :| 0 <= i < |init| && init[i].pipeline.uuid == u {
      assert all[i].pipeline.uuid == u;
    }
    if i :| 0 <= i < |init| && HasModel(init[i].pipeline.models, u) {
      assert HasModel(all[i].pipeline.models, u);
    }
    assert all[last].pipeline.uuid == u ==> MentionsPipeline(all, u);
    assert HasModel(all[last].pipeline.models, u) ==> MentionsModel(all, u);
  }

  lemma {:induction false} AddModelsKeys(d: Catalog, models: seq<CModel>)
    ensures forall m :: m in AddModels(d, models) <==> m in d || HasModel(models, m)
  {
    if models != [] {
      var init, c := models[..|models| - 1], models[|models| - 1];
      AddModelsKeys(d, init);
      forall m ensures HasModel(models, m) <==> HasModel(init, m) || c.uuid == m {
        if k :| 0 <= k < |init| && init[k].uuid == m {
          assert models[k].uuid == m;
        }
        assert models[|init|] == c;
      }
    }
  }

  lemma ModelsRegistered(w: World, q: Request)
    requires WorldOk(w) && KnownPipeline(w, q)
    ensures forall k :: 0 <= k < |q.pipeline.models| ==> Registered(w, q.pipeline.models[k])
  {
  }

  lemma OneMorePipeline(w: World, init: seq<Request>, q: Request)
    requires PartOf(World(PipesOf(init), CatOf(init), w.gpu), w) && KnownPipeline(w, q)
    requires var cat, models := CatOf(init), q.pipeline.models;
             && (forall m :: m in AddModels(cat, models) ==> m in w.cat && AddModels(cat, models)[m] == w.cat[m])
             && (forall m :: m in cat ==> m in AddModels(cat, models))
             && forall k :: 0 <= k < |models| ==> models[k].uuid in AddModels(cat, models)
    ensures PartOf(World(PipesOf(init + [q]), CatOf(init + [q]), w.gpu), w)
    ensures PipesOf(init + [q]).Keys == PipesOf(init).Keys + {q.pipeline.uuid}
  {
    hide AddModels;
    assert (init + [q])[..|init|] == init;
  }

  lemma {:induction false} DictionariesExact(w: World, all: seq<Request>)
    requires WorldOk(w) && forall i :: 0 <= i < |all| ==> KnownPipeline(w, all[i])
    ensures PartOf(World(PipesOf(all), CatOf(all), w.gpu), w)
    ensures forall i :: 0 <= i < |all| ==> all[i].pipeline.uuid in PipesOf(all)
  {
    if all != [] {
      var init, q := all[..|all| - 1], all[|all| - 1];
      DictionariesExact(w, init);
      assert all == init + [q];
      assert KnownPipeline(w, q);
      ModelsRegistered(w, q);
      hide WorldOk, Registered, PipesOf, CatOf, PartOf, KnownPipeline;
      AddModelsExact(w, CatOf(init), q.pipeline.models);
      OneMorePipeline(w, init, q);
    }
  }

  // ---- The invariant in the part and in the whole ---------------------------------------------------

  lemma PartIsOk(v: World, w: World)
    requires PartOf(v, w) && WorldOk(w)
    ensures WorldOk(v)
  {
    forall u, k | u in v.pipes && 0 <= k < |v.pipes[u].models| ensures Registered(v, v.pipes[u].models[k]) {
      assert Registered(w, w.pipes[u].models[k]);
    }
  }

  lemma EntryInPart(v: World, w: World, live: set<string>, e: SessionPlans)
    requires PartOf(v, w) && WorldOk(w)
    ensures EntryFits(v, live, e) ==> EntryFits(w, live, e)
    ensures FirstSegment(e.session) in v.pipes && EntryFits(w, live, e) ==> EntryFits(v, live, e)
  {
    forall j | 0 <= j < |e.models| && HasModel(KeyModels(v, e.session), e.models[j].model)
      ensures KeyModels(v, e.session) == KeyModels(w, e.session)
      ensures PlanFits(v, live, e.models[j]) <==> PlanFits(w, live, e.models[j])
    {
      assert FirstSegment(e.session) in v.pipes;
      var k :| 0 <= k < |KeyModels(v, e.session)| && KeyModels(v, e.session)[k].uuid == e.models[j].model;
      assert e.models[j].model in v.cat;
    }
  }

  lemma InvInPart(v: World, w: World, live: set<string>, t: Table)
    requires PartOf(v, w) && WorldOk(w)
    ensures Inv(v, live, t) ==> Inv(w, live, t)
    ensures (forall i :: 0 <= i < |t| ==> FirstSegment(t[i].session) in v.pipes) && Inv(w, live, t) ==> Inv(v, live, t)
  {
    hide EntryFits;
    forall i | 0 <= i < |t|
      ensures EntryFits(v, live, t[i]) ==> EntryFits(w, live, t[i])
      ensures FirstSegment(t[i].session) in v.pipes && EntryFits(w, live, t[i]) ==> EntryFits(v, live, t[i])
    {
      EntryInPart(v, w, live, t[i]);
    }
    assert v.gpu == w.gpu;
    assert CpuCap(v, t) <==> CpuCap(w, t);
  }

  lemma RequestedSegment(w: World, reqs: seq<Request>, t: Table, i: nat)
    requires AllRequested(t, reqs) && RequestsOk(w, reqs) && i < |t|
    ensures exists k :: 0 <= k < |reqs| && FirstSegment(t[i].session) == reqs[k].pipeline.uuid
  {
    assert Requested(reqs, t[i].session);
    var k :| 0 <= k < |reqs| && reqs[k].session == t[i].session;
  }

  // ---- Putting a call together --------------------------------------------------------------------------

  lemma KeyedRequests(w: World, raw: seq<Request>)
    requires WorldOk(w) && forall i :: 0 <= i < |raw| ==> Offered(w, raw[i])
    ensures RequestsOk(w, Stored(Keyed(raw)))
    ensures forall i :: 0 <= i < |Keyed(raw)| ==> KnownPipeline(w, Keyed(raw)[i])
  {
    KeyedExact(raw);
    StoredExact(Keyed(raw));
    hide WorldOk, FirstSegment, Stored, Keyed, Offered;
    var d := Stored(Keyed(raw));
    forall k | 0 <= k < |raw| ensures KnownPipeline(w, Keyed(raw)[k]) {
      KeyedFits(w, raw, k);
    }
    forall i | 0 <= i < |d|
      ensures KnownPipeline(w, d[i]) && FirstSegment(d[i].session) == d[i].pipeline.uuid && d[i].fps > 0.0
    {
      assert d[i] in Keyed(raw);
      var k :| 0 <= k < |raw| && Keyed(raw)[k] == d[i];
      KeyedFits(w, raw, k);
    }
  }

  lemma KeyedFits(w: World, raw: seq<Request>, k: nat)
    requires WorldOk(w) && k < |raw| && Offered(w, raw[k]) && |Keyed(raw)| == |raw|
    ensures KnownPipeline(w, Keyed(raw)[k]) && Keyed(raw)[k].fps > 0.0
    ensures FirstSegment(Keyed(raw)[k].session) == Keyed(raw)[k].pipeline.uuid
  {
    KeyedExact(raw);
    FirstSegmentOfKey(raw[k].pipeline.uuid, raw[k].session);
  }

  lemma EveryRequestKnown(w: World, last: seq<Request>, keyed: seq<Request>)
    requires RequestsOk(w, last) && forall i :: 0 <= i < |keyed| ==> KnownPipeline(w, keyed[i])
    ensures forall i :: 0 <= i < |last + keyed| ==> KnownPipeline(w, (last + keyed)[i])
  {
    var all := last + keyed;
    forall i | 0 <= i < |all| ensures KnownPipeline(w, all[i]) {
      if i < |last| {
        assert all[i] == last[i];
      } else {
        assert all[i] == keyed[i - |last|];
      }
    }
  }

  /** Requests in order for what is registered are in order for the part that mentions them. */
  lemma RequestsInPart(w: World, w1: World, reqs: seq<Request>, all: seq<Request>)
    requires PartOf(w1, w) && RequestsOk(w, reqs) && w1.pipes == PipesOf(all)
    requires forall i :: 0 <= i < |all| ==> all[i].pipeline.uuid in PipesOf(all)
    requires forall i :: 0 <= i < |reqs| ==> reqs[i] in all
    ensures RequestsOk(w1, reqs)
  {
    forall i | 0 <= i < |reqs| ensures reqs[i].pipeline.uuid in w1.pipes {
      assert reqs[i] in all;
      var k :| 0 <= k < |all| && all[k] == reqs[i];
    }
  }

  lemma AllKnown(w: World, last: seq<Request>, raw: seq<Request>)
    requires WorldOk(w) && RequestsOk(w, last) && forall i :: 0 <= i < |raw| ==> Offered(w, raw[i])
    ensures var w1 := CallWorld(w, last, Keyed(raw));
            && PartOf(w1, w)
            && WorldOk(w1)
            && RequestsOk(w1, last)
            && RequestsOk(w1, Stored(Keyed(raw)))
  {
    hide WorldOk, RequestsOk, Offered, KnownPipeline, PartOf, Keyed, Stored, PipesOf, CatOf, Requested;
    var keyed := Keyed(raw);
    KeyedRequests(w, raw);
    EveryRequestKnown(w, last, keyed);
    DictionariesExact(w, last + keyed);
    var w1 := CallWorld(w, last, keyed);
    PartIsOk(w1, w);
    StoredExact(keyed);
    RequestsInPart(w, w1, last, last + keyed);
    RequestsInPart(w, w1, Stored(keyed), last + keyed);
  }

  lemma PlansInPart(w: World, w1: World, live: set<string>, t: Table, reqs: seq<Request>)
    requires PartOf(w1, w) && WorldOk(w) && RequestsOk(w1, reqs) && AllRequested(t, reqs) && Inv(w, live, t)
    ensures Inv(w1, live, t)
  {
    hide Inv;
    forall i | 0 <= i < |t| ensures FirstSegment(t[i].session) in w1.pipes {
      RequestedSegment(w1, reqs, t, i);
    }
    InvInPart(w1, w, live, t);
  }

  lemma LastInPart(v: World, last: seq<Request>)
    requires RequestsOk(v, last) && forall u, k :: u in v.pipes && 0 <= k < |v.pipes[u].models| ==> v.pipes[u].models[k].uuid in v.cat
    ensures forall i :: 0 <= i < |last| ==> FirstSegment(last[i].session) == last[i].pipeline.uuid
    ensures forall i, k :: 0 <= i < |last| && 0 <= k < |last[i].pipeline.models| ==> last[i].pipeline.models[k].uuid in v.cat
  {
    forall i, k | 0 <= i < |last| && 0 <= k < |last[i].pipeline.models| ensures last[i].pipeline.models[k].uuid in v.cat {
      assert v.pipes[last[i].pipeline.uuid].models[k].uuid in v.cat;
    }
  }

  /** Every condition a call needs is met by what the last one left and what this one is given. */
  lemma CallIsOk(w: World, t: Table, live: set<string>, last: seq<Request>, raw: seq<Request>, bs: seq<Backend>)
    requires WorldOk(w) && Inv(w, live, t) && AllRequested(t, last) && RequestsOk(w, last)
    requires BackendsOk(w, bs) && NoDebt(bs)
    requires forall i :: 0 <= i < |raw| ==> Offered(w, raw[i])
    ensures var w1 := CallWorld(w, last, Keyed(raw));
            CallOk(w1, Pool(t, bs), live, live - BackendNames(bs), Stored(Keyed(raw)))
    ensures var w1 := CallWorld(w, last, Keyed(raw));
            && (forall i :: 0 <= i < |last| ==> FirstSegment(last[i].session) == last[i].pipeline.uuid)
            && forall i, k :: 0 <= i < |last| && 0 <= k < |last[i].pipeline.models| ==> last[i].pipeline.models[k].uuid in w1.cat
  {
    hide Inv, WorldOk, NoDebt, Offered, RequestsOk, AllRequested, Keyed, Stored, PipesOf, CatOf, BackendNames;
    AllKnown(w, last, raw);
    var w1 := CallWorld(w, last, Keyed(raw));
    PlansInPart(w, w1, live, t, last);
    LastInPart(w1, last);
    assert live - (live - BackendNames(bs)) <= BackendNames(bs);
  }

  lemma AfterCall(w: World, w1: World, last: seq<Request>, raw: seq<Request>, p: Pool, bs: seq<Backend>)
    requires WorldOk(w) && RequestsOk(w, last) && w1 == CallWorld(w, last, Keyed(raw))
    requires forall i :: 0 <= i < |raw| ==> Offered(w, raw[i])
    requires Good(w1, p) && SameBackends(p.backends, bs)
    ensures Inv(w, BackendNames(p.backends), p.table) && RequestsOk(w, Stored(Keyed(raw)))
    ensures BackendNames(p.backends) == BackendNames(bs)
  {
    hide Inv, WorldOk, NoDebt, Offered, RequestsOk, Keyed, Stored, PipesOf, CatOf, BackendNames, BackendsOk;
    AllKnown(w, last, raw);
    InvInPart(w1, w, BackendNames(p.backends), p.table);
    KeyedRequests(w, raw);
    SameBackendsOk(w, p.backends, bs);
  }
}
