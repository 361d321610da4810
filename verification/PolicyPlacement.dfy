/** How an attempt to deploy a pipeline turns out, read off the pool before it: its backends as slots
  * with room, and the needs of those of its models that are not planned yet. */
module PolicyPlacement {
  import opened Options
  import opened Ids
  import opened PolicyModel
  import opened PolicyTables
  import opened PolicyGrowth
  import opened PolicyInvariants
  import opened PolicyBudget
  import opened PolicyPruning
  import opened PolicyDeployment
  import opened PolicyAllOrNothing

  // ---- Filling slots ---------------------------------------------------------------------------------

  /** A backend with so much free memory, or one that runs so many models. */
  datatype Slot = Gpu(free: real) | Cpu(models: nat)

  predicate Takes(x: Slot, need: real) {
    match x
    case Gpu(free) => need > 0.0 && free > need
    case Cpu(models) => need <= 0.0 && models < MAX_MODELS_PER_BACKEND
  }

  /** More memory, or fewer models. */
  predicate Roomier(x: Slot, y: Slot) {
    (x.Gpu? && y.Gpu? && x.free > y.free) || (x.Cpu? && y.Cpu? && x.models < y.models)
  }

  /** The first roomiest slot that takes the need. */
  function Pick(slots: seq<Slot>, need: real): (r: Option<nat>)
    ensures r.Some? ==> r.value < |slots| && Takes(slots[r.value], need)
  {
    if slots == [] then None
    else
      var init, x := slots[..|slots| - 1], slots[|slots| - 1];
      var best := Pick(init, need);
      if Takes(x, need) && (best.None? || Roomier(x, init[best.value])) then Some(|init|) else best
  }

  function Used(x: Slot, need: real): Slot {
    match x
    case Gpu(free) => Gpu(free - need)
    case Cpu(models) => Cpu(models + 1)
  }

  /** The slots after as many needs as found room, one after the other, and how many did. */
  datatype Filling = Filling(slots: seq<Slot>, placed: nat)

  function Fill(slots: seq<Slot>, needs: seq<real>): (r: Filling)
    ensures r.placed <= |needs|
  {
    if needs == [] then Filling(slots, 0)
    else
      var init, need := needs[..|needs| - 1], needs[|needs| - 1];
      var f := Fill(slots, init);
      if f.placed < |init| then f
      else
        match Pick(f.slots, need)
        case None => f
        case Some(i) => Filling(f.slots[i := Used(f.slots[i], need)], f.placed + 1)
  }

  /** Some slot takes the need exactly if one is picked. */
  lemma {:induction false} PickIsComplete(slots: seq<Slot>, need: real)
    ensures Pick(slots, need).None? <==> forall i :: 0 <= i < |slots| ==> !Takes(slots[i], need)
  {
    if slots != [] {
      PickIsComplete(slots[..|slots| - 1], need);
    }
  }

  /** And then none is roomier. */
  lemma {:induction false} PickIsRoomiest(slots: seq<Slot>, need: real)
    requires Pick(slots, need).Some?
    ensures forall i :: 0 <= i < |slots| && Takes(slots[i], need) ==> !Roomier(slots[i], slots[Pick(slots, need).value])
  {
    var init := slots[..|slots| - 1];
    if Pick(init, need).Some? {
      PickIsRoomiest(init, need);
    } else {
      PickIsComplete(init, need);
    }
    forall i | 0 <= i < |init| ensures init[i] == slots[i] {
    }
  }

  // ---- A pool as slots ---------------------------------------------------------------------------------

  function Load(t: Table, b: Backend): nat {
    |ModelsOn(t, b.name)|
  }

  function SlotOf(t: Table, b: Backend): Slot {
    if b.gpu.Some? then Gpu(b.gpu.value) else Cpu(Load(t, b))
  }

  function SlotsOf(t: Table, bs: seq<Backend>): (r: seq<Slot>)
    ensures |r| == |bs| && forall i :: 0 <= i < |bs| ==> r[i] == SlotOf(t, bs[i])
  {
    if bs == [] then [] else SlotsOf(t, bs[..|bs| - 1]) + [SlotOf(t, bs[|bs| - 1])]
  }

  function Slots(p: Pool): seq<Slot> {
    SlotsOf(p.table, p.backends)
  }

  function At(bs: seq<Backend>, i: Option<nat>): Option<Backend>
    requires i.Some? ==> i.value < |bs|
  {
    if i.Some? then Some(bs[i.value]) else None
  }

  /** A model that runs nowhere gets the backend whose slot is picked for its need. */
  lemma ChooseIsPick(p: Pool, cat: Catalog, m: string)
    requires Unplanned(p.table, m)
    ensures Choose(p, cat, m) == At(p.backends, Pick(Slots(p), Need(cat, m)))
  {
    UnplannedHosts(p.table, m);
    forall b ensures !Runs(p.table, m, b) {
      assert b !in Hosts(p.table, m);
    }
    if Need(cat, m) > 0.0 {
      PickGpu(p.table, cat, m, p.backends);
    } else {
      PickCpu(p.table, cat, m, p.backends);
    }
  }

  lemma PotentialSnoc(t: Table, cat: Catalog, m: string, bs: seq<Backend>, b: Backend)
    ensures Potential(t, cat, m, bs + [b]) == Potential(t, cat, m, bs) + if Qualifies(t, cat, m, b) then [b] else []
  {
    assert (bs + [b])[..|bs|] == bs;
  }

  lemma BestGpuSnoc(bs: seq<Backend>, b: Backend)
    ensures BestGpu(bs + [b]) ==
            if FreeMem(b) > (if BestGpu(bs).Some? then FreeMem(BestGpu(bs).value) else 0.0) then Some(b) else BestGpu(bs)
  {
    assert (bs + [b])[..|bs|] == bs;
  }

  lemma BestCpuSnoc(t: Table, bs: seq<Backend>, b: Backend)
    ensures BestCpu(t, bs + [b]) ==
            if Load(t, b) < (if BestCpu(t, bs).Some? then Load(t, BestCpu(t, bs).value) else MAX_MODELS_PER_BACKEND) then Some(b) else BestCpu(t, bs)
  {
    assert (bs + [b])[..|bs|] == bs;
  }

  lemma PickSnoc(slots: seq<Slot>, x: Slot, need: real)
    ensures Pick(slots + [x], need) ==
            if Takes(x, need) && (Pick(slots, need).None? || Roomier(x, slots[Pick(slots, need).value])) then Some(|slots|)
            else Pick(slots, need)
  {
    assert (slots + [x])[..|slots|] == slots;
  }

  lemma SlotsSnoc(t: Table, bs: seq<Backend>, b: Backend)
    ensures SlotsOf(t, bs + [b]) == SlotsOf(t, bs) + [SlotOf(t, b)]
  {
    assert (bs + [b])[..|bs|] == bs;
  }

  /** Which backends qualify for a model that runs nowhere, and their slots. */
  lemma QualifyingSlot(t: Table, cat: Catalog, m: string, b: Backend)
    requires !Runs(t, m, b.name)
    ensures Need(cat, m) > 0.0 ==> (Qualifies(t, cat, m, b) <==> b.gpu.Some? && FreeMem(b) > Need(cat, m))
    ensures Need(cat, m) <= 0.0 ==> (Qualifies(t, cat, m, b) <==> b.gpu.None?)
    ensures SlotOf(t, b) == if b.gpu.Some? then Gpu(FreeMem(b)) else Cpu(Load(t, b))
  {
    hide Runs, ModelsOn, Need;
  }

  lemma {:induction false} PickGpu(t: Table, cat: Catalog, m: string, bs: seq<Backend>)
    requires Need(cat, m) > 0.0 && forall b :: !Runs(t, m, b)
    ensures BestGpu(Potential(t, cat, m, bs)) == At(bs, Pick(SlotsOf(t, bs), Need(cat, m)))
  {
    if bs != [] {
      var init, b := bs[..|bs| - 1], bs[|bs| - 1];
      PickGpu(t, cat, m, init);
      QualifyingSlot(t, cat, m, b);
      assert bs == init + [b];
      hide *;
      PickGpuStep(t, cat, m, init, b);
    }
  }

  lemma PickGpuStep(t: Table, cat: Catalog, m: string, bs: seq<Backend>, b: Backend)
    requires Need(cat, m) > 0.0 && (Qualifies(t, cat, m, b) <==> b.gpu.Some? && FreeMem(b) > Need(cat, m))
    requires BestGpu(Potential(t, cat, m, bs)) == At(bs, Pick(SlotsOf(t, bs), Need(cat, m)))
    ensures BestGpu(Potential(t, cat, m, bs + [b])) == At(bs + [b], Pick(SlotsOf(t, bs + [b]), Need(cat, m)))
  {
    hide Potential, BestGpu, Pick, Need, Runs, ModelsOn, Qualifies, SlotsOf, Load;
    var c, slots := Potential(t, cat, m, bs), SlotsOf(t, bs);
    PotentialSnoc(t, cat, m, bs, b);
    BestGpuSnoc(c, b);
    SlotsSnoc(t, bs, b);
    PickSnoc(slots, SlotOf(t, b), Need(cat, m));
    assert c + [] == c;
  }

  lemma {:induction false} PickCpu(t: Table, cat: Catalog, m: string, bs: seq<Backend>)
    requires Need(cat, m) <= 0.0 && forall b :: !Runs(t, m, b)
    ensures BestCpu(t, Potential(t, cat, m, bs)) == At(bs, Pick(SlotsOf(t, bs), Need(cat, m)))
  {
    if bs != [] {
      var init, b := bs[..|bs| - 1], bs[|bs| - 1];
      PickCpu(t, cat, m, init);
      QualifyingSlot(t, cat, m, b);
      assert bs == init + [b];
      hide *;
      PickCpuStep(t, cat, m, init, b);
    }
  }

  lemma PickCpuStep(t: Table, cat: Catalog, m: string, bs: seq<Backend>, b: Backend)
    requires Need(cat, m) <= 0.0 && (Qualifies(t, cat, m, b) <==> b.gpu.None?)
    requires BestCpu(t, Potential(t, cat, m, bs)) == At(bs, Pick(SlotsOf(t, bs), Need(cat, m)))
    ensures BestCpu(t, Potential(t, cat, m, bs + [b])) == At(bs + [b], Pick(SlotsOf(t, bs + [b]), Need(cat, m)))
  {
    hide Potential, BestCpu, Pick, Need, Runs, ModelsOn, Qualifies, SlotsOf, FreeMem, Load;
    var c, slots := Potential(t, cat, m, bs), SlotsOf(t, bs);
    PotentialSnoc(t, cat, m, bs, b);
    BestCpuSnoc(t, c, b);
    SlotsSnoc(t, bs, b);
    PickSnoc(slots, SlotOf(t, b), Need(cat, m));
    assert c + [] == c;
  }

  /** Deploying it uses that slot and no other. */
  lemma DeployUses(p: Pool, cat: Catalog, m: string, ss: seq<string>, i: nat)
    requires Shape(p.table) && DistinctBackends(p.backends) && DistinctStrings(ss) && ss != [] && Unplanned(p.table, m)
    requires i < |p.backends| && Takes(SlotOf(p.table, p.backends[i]), Need(cat, m))
    ensures Slots(DeployOn(p, cat, m, ss, p.backends[i].name)) == Slots(p)[i := Used(Slots(p)[i], Need(cat, m))]
  {
    var b := p.backends[i].name;
    var q, bp := DeployOn(p, cat, m, ss, b), NewBackendPlan(cat, m, b);
    UnplannedHosts(p.table, m);
    assert b !in Hosts(p.table, m);
    AddPlansShape(p.table, ss, m, bp);
    forall k | 0 <= k < |p.backends|
      ensures SlotOf(q.table, q.backends[k]) ==
              if k == i then Used(SlotOf(p.table, p.backends[i]), Need(cat, m)) else SlotOf(p.table, p.backends[k])
    {
      hide Shape, Unplanned, AddPlans, Adjust, Runs, ModelsOn, SlotsOf, SlotOf;
      AdjustMem(p.backends, b, -Charge(cat, m), k);
      assert k != i ==> p.backends[k].name != b;
      SlotAfter(p.table, q.table, p.backends[k], q.backends[k], cat, m, b);
    }
    hide Shape, Unplanned, AddPlans, Adjust, Runs, ModelsOn, SlotOf;
  }

  lemma SlotAfter(t: Table, r: Table, x: Backend, y: Backend, cat: Catalog, m: string, b: string)
    requires forall n, c :: Runs(r, n, c) <==> Runs(t, n, c) || (n == m && c == b)
    requires !Runs(t, m, b) && (x.name == b ==> Takes(SlotOf(t, x), Need(cat, m)))
    requires y == if x.name == b && x.gpu.Some? then x.(gpu := Some(x.gpu.value - Charge(cat, m))) else x
    ensures SlotOf(r, y) == if x.name == b then Used(SlotOf(t, x), Need(cat, m)) else SlotOf(t, x)
  {
    hide Runs, Need;
    var before, after := ModelsOn(t, x.name), ModelsOn(r, x.name);
    if x.name == b {
      assert after == before + {m};
    } else {
      assert after == before;
    }
  }

  // ---- An attempt as a filling ---------------------------------------------------------------------------

  /** The models of a pipeline that are not planned yet, in order. */
  function NewModels(t: Table, models: seq<CModel>): (r: seq<string>)
    ensures |r| <= |models|
  {
    if models == [] then []
    else
      var r, m := NewModels(t, models[..|models| - 1]), models[|models| - 1].uuid;
      if Unplanned(t, m) then r + [m] else r
  }

  function Needs(cat: Catalog, ms: seq<string>): (r: seq<real>)
    ensures |r| == |ms|
  {
    if ms == [] then [] else Needs(cat, ms[..|ms| - 1]) + [Need(cat, ms[|ms| - 1])]
  }

  /** What the attempt at a pipeline comes to, from the pool and the models alone. */
  function Forecast(p: Pool, cat: Catalog, models: seq<CModel>): Filling {
    Fill(Slots(p), Needs(cat, NewModels(p.table, models)))
  }

  /** All of its new models find room. */
  predicate Roomy(p: Pool, cat: Catalog, models: seq<CModel>) {
    Forecast(p, cat, models).placed == |NewModels(p.table, models)|
  }

  predicate FirstsDeployed(pairs: seq<(string, string)>, ms: seq<string>) {
    |pairs| <= |ms| && forall k :: 0 <= k < |pairs| ==> pairs[k].0 == ms[k]
  }

  /** Progress through some models matches a filling with the needs of the new ones. */
  predicate Matches(g: Progress, f: Filling, ms: seq<string>) {
    && (g.ok <==> f.placed == |ms|)
    && |g.deployed| == f.placed && FirstsDeployed(g.deployed, ms)
    && Slots(g.pool) == f.slots
  }

  predicate AsForecast(p: Pool, cat: Catalog, models: seq<CModel>, g: Progress) {
    Matches(g, Forecast(p, cat, models), NewModels(p.table, models))
  }

  /** An attempt succeeds exactly if all models that were not planned find room, one after the other;
    * and it deploys exactly those that come before the first one that does not. */
  lemma {:induction false} AttemptIsForecast(w: World, p: Pool, all: seq<CModel>, models: seq<CModel>, ss: seq<string>)
    requires Good(w, p) && PipelineSessions(w, all, ss) && models <= all
    ensures AsForecast(p, w.cat, models, DeployModels(p, w.cat, models, ss))
  {
    if models != [] {
      hide Good, PipelineSessions, AsForecast, DeployModels;
      var init, c := models[..|models| - 1], models[|models| - 1];
      assert models == init + [c];
      InitIsPrefix(all, init, c);
      AttemptIsForecast(w, p, all, init, ss);
      SharedExact(w, p, all, init, ss);
      TurnComes(w, p, all, init, c, ss);
      ForecastNext(w, p, all, init, c, ss);
    }
  }

  lemma NewSnoc(t: Table, init: seq<CModel>, c: CModel)
    ensures NewModels(t, init + [c]) == NewModels(t, init) + if Unplanned(t, c.uuid) then [c.uuid] else []
  {
    assert (init + [c])[..|init|] == init;
  }

  lemma NeedsSnoc(cat: Catalog, ms: seq<string>, m: string)
    ensures Needs(cat, ms + [m]) == Needs(cat, ms) + [Need(cat, m)]
  {
    assert (ms + [m])[..|ms|] == ms;
  }

  lemma FillSnoc(slots: seq<Slot>, needs: seq<real>, need: real)
    ensures var f, r := Fill(slots, needs), Fill(slots, needs + [need]);
            && (f.placed < |needs| || Pick(f.slots, need).None? ==> r == f)
            && (f.placed == |needs| && Pick(f.slots, need).Some? ==>
                  var i := Pick(f.slots, need).value; r == Filling(f.slots[i := Used(f.slots[i], need)], f.placed + 1))
  {
    assert (needs + [need])[..|needs|] == needs;
  }

  /** What one more model does to an attempt. */
  lemma DeploySnoc(p: Pool, cat: Catalog, init: seq<CModel>, c: CModel, ss: seq<string>)
    ensures var g, r := DeployModels(p, cat, init, ss), DeployModels(p, cat, init + [c], ss);
            var plans, d := PlansOf(g.pool.table, c.uuid), Deploy(g.pool, cat, c.uuid, ss);
            && (!g.ok ==> r == g)
            && (g.ok && plans != [] ==> r == g.(shared := g.shared + plans))
            && (g.ok && plans == [] && d.1.None? ==> r == g.(ok := false))
            && (g.ok && plans == [] && d.1.Some? ==> r == g.(pool := d.0, deployed := g.deployed + [(c.uuid, d.1.value)]))
  {
    hide PlansOf, Deploy;
    assert (init + [c])[..|init|] == init;
  }

  /** Failed already. */
  lemma StillFailed(g: Progress, f: Filling, ms: seq<string>, m: string)
    requires Matches(g, f, ms) && !g.ok
    ensures Matches(g, f, ms + [m])
  {
    hide Slots;
  }

  /** No room for one more. */
  lemma NoMore(g: Progress, f: Filling, ms: seq<string>, m: string)
    requires Matches(g, f, ms) && g.ok
    ensures Matches(g.(ok := false), f, ms + [m])
  {
    hide Slots;
  }

  /** Room for one more. */
  lemma OneMore(g: Progress, f: Filling, ms: seq<string>, m: string, b: string, pool: Pool, slots: seq<Slot>)
    requires Matches(g, f, ms) && g.ok && Slots(pool) == slots
    ensures Matches(g.(pool := pool, deployed := g.deployed + [(m, b)]), Filling(slots, f.placed + 1), ms + [m])
  {
    hide Slots;
  }

  /** A new model when its turn comes and nothing has failed yet. */
  lemma DeployMatches(w: World, p: Pool, m: string, ss: seq<string>)
    requires Good(w, p) && Unplanned(p.table, m) && DistinctStrings(ss) && ss != []
    ensures var i, d := Pick(Slots(p), Need(w.cat, m)), Deploy(p, w.cat, m, ss);
            && (i.None? <==> d.1.None?)
            && (i.Some? ==> Slots(d.0) == Slots(p)[i.value := Used(Slots(p)[i.value], Need(w.cat, m))])
  {
    hide Unplanned, Slots, Choose, Need, SameHosts, CpuCap, Fits;
    var i := Pick(Slots(p), Need(w.cat, m));
    ChooseIsPick(p, w.cat, m);
    if i.Some? {
      PickedSlot(p, i.value);
      DeployUses(p, w.cat, m, ss, i.value);
    }
  }

  lemma ForecastNew(w: World, p: Pool, init: seq<CModel>, c: CModel, ss: seq<string>)
    requires DistinctStrings(ss) && ss != [] && Good(w, DeployModels(p, w.cat, init, ss).pool)
    requires AsForecast(p, w.cat, init, DeployModels(p, w.cat, init, ss)) && Unplanned(p.table, c.uuid)
    requires var t := DeployModels(p, w.cat, init, ss).pool.table; Unplanned(t, c.uuid) && PlansOf(t, c.uuid) == []
    ensures AsForecast(p, w.cat, init + [c], DeployModels(p, w.cat, init + [c], ss))
  {
    var m, g, f := c.uuid, DeployModels(p, w.cat, init, ss), Forecast(p, w.cat, init);
    NewSnoc(p.table, init, c);
    hide Good, Unplanned, NewModels, Matches, DeployModels, Needs, Fill, Pick, Slots, PlansOf, Deploy, Need;
    var ms := NewModels(p.table, init);
    NeedsSnoc(w.cat, ms, m);
    FillSnoc(Slots(p), Needs(w.cat, ms), Need(w.cat, m));
    DeploySnoc(p, w.cat, init, c, ss);
    MatchesSays(g, f, ms);
    if !g.ok {
      StillFailed(g, f, ms, m);
    } else {
      DeployMatches(w, g.pool, m, ss);
      var i, d := Pick(f.slots, Need(w.cat, m)), Deploy(g.pool, w.cat, m, ss);
      if i.None? {
        NoMore(g, f, ms, m);
      } else {
        OneMore(g, f, ms, m, d.1.value, d.0, Slots(d.0));
      }
    }
  }

  lemma MatchesSays(g: Progress, f: Filling, ms: seq<string>)
    requires Matches(g, f, ms)
    ensures (g.ok <==> f.placed == |ms|) && f.placed <= |ms| && Slots(g.pool) == f.slots
  {
  }

  lemma ForecastKnown(w: World, p: Pool, init: seq<CModel>, c: CModel, ss: seq<string>)
    requires AsForecast(p, w.cat, init, DeployModels(p, w.cat, init, ss)) && !Unplanned(p.table, c.uuid)
    requires PlansOf(DeployModels(p, w.cat, init, ss).pool.table, c.uuid) != []
    ensures AsForecast(p, w.cat, init + [c], DeployModels(p, w.cat, init + [c], ss))
  {
    NewSnoc(p.table, init, c);
    DeploySnoc(p, w.cat, init, c, ss);
    hide Unplanned, NewModels, DeployModels, Needs, Fill, Slots, PlansOf, Deploy;
    assert NewModels(p.table, init) + [] == NewModels(p.table, init);
  }

  lemma ForecastNext(w: World, p: Pool, all: seq<CModel>, init: seq<CModel>, c: CModel, ss: seq<string>)
    requires PipelineSessions(w, all, ss) && Good(w, DeployModels(p, w.cat, init, ss).pool)
    requires var g := DeployModels(p, w.cat, init, ss);
             && AsForecast(p, w.cat, init, g)
             && (Unplanned(g.pool.table, c.uuid) <==> Unplanned(p.table, c.uuid))
             && (Unplanned(g.pool.table, c.uuid) <==> PlansOf(g.pool.table, c.uuid) == [])
    ensures AsForecast(p, w.cat, init + [c], DeployModels(p, w.cat, init + [c], ss))
  {
    assert DistinctStrings(ss) && ss != [];
    hide *;
    if Unplanned(p.table, c.uuid) {
      ForecastNew(w, p, init, c, ss);
    } else {
      ForecastKnown(w, p, init, c, ss);
    }
  }

  lemma PickedSlot(p: Pool, i: nat)
    ensures |Slots(p)| == |p.backends| && (i < |p.backends| ==> Slots(p)[i] == SlotOf(p.table, p.backends[i]))
  {
  }

  lemma AttemptSucceedsIff(w: World, p: Pool, models: seq<CModel>, ss: seq<string>)
    requires Good(w, p) && PipelineSessions(w, models, ss)
    ensures var g, ms, n := DeployModels(p, w.cat, models, ss), NewModels(p.table, models), Forecast(p, w.cat, models).placed;
            && (g.ok <==> Roomy(p, w.cat, models))
            && n <= |ms| && |g.deployed| == n && FirstsDeployed(g.deployed, ms)
  {
    AttemptIsForecast(w, p, models, models, ss);
  }

  // ---- What cannot be placed now cannot be placed later -------------------------------------------------------

  /** Filling makes no room. */
  lemma {:induction false} FillMakesNoRoom(slots: seq<Slot>, needs: seq<real>, need: real)
    ensures var f := Fill(slots, needs);
            |f.slots| == |slots| && forall i :: 0 <= i < |slots| && Takes(f.slots[i], need) ==> Takes(slots[i], need)
  {
    if needs != [] {
      FillMakesNoRoom(slots, needs[..|needs| - 1], need);
    }
  }

  /** Nor is a need placed that no slot takes. */
  lemma {:induction false} NoRoomFor(slots: seq<Slot>, needs: seq<real>, k: nat)
    requires k < |needs| && forall i :: 0 <= i < |slots| ==> !Takes(slots[i], needs[k])
    ensures Fill(slots, needs).placed <= k
  {
    var init, need := needs[..|needs| - 1], needs[|needs| - 1];
    if k < |init| {
      NoRoomFor(slots, init, k);
    } else {
      FillMakesNoRoom(slots, init, need);
      PickIsComplete(Fill(slots, init).slots, need);
    }
  }

  lemma {:induction false} NeedsAt(cat: Catalog, ms: seq<string>, k: nat)
    requires k < |ms|
    ensures Needs(cat, ms)[k] == Need(cat, ms[k])
  {
    if k < |ms| - 1 {
      NeedsAt(cat, ms[..|ms| - 1], k);
    }
  }

  /** A pipeline fails if no backend is usable for one of its new models before it is begun. */
  lemma SaturatedFails(w: World, p: Pool, models: seq<CModel>, ss: seq<string>, k: nat)
    requires Good(w, p) && PipelineSessions(w, models, ss)
    requires k < |NewModels(p.table, models)| && Saturated(p, w.cat, NewModels(p.table, models)[k])
    ensures !DeployModels(p, w.cat, models, ss).ok && |DeployModels(p, w.cat, models, ss).deployed| <= k
  {
    var ms := NewModels(p.table, models);
    var needs := Needs(w.cat, ms);
    AttemptSucceedsIff(w, p, models, ss);
    NeedsAt(w.cat, ms, k);
    NewAreUnplanned(p.table, models, k);
    ChooseIsBest(p, w.cat, ms[k]);
    ChooseIsPick(p, w.cat, ms[k]);
    PickIsComplete(Slots(p), needs[k]);
    NoRoomFor(Slots(p), needs, k);
  }

  lemma {:induction false} NewAreUnplanned(t: Table, models: seq<CModel>, k: nat)
    requires k < |NewModels(t, models)|
    ensures Unplanned(t, NewModels(t, models)[k])
  {
    var init := models[..|models| - 1];
    if k < |NewModels(t, init)| {
      NewAreUnplanned(t, init, k);
    }
  }

  // ---- When memory comes back, and when the plans stay in order -----------------------------------------------

  /** A failed attempt gives back all the memory it took exactly if, of the new models that find room, none
    * after the first costs any. */
  lemma MemoryRestoredIff(w: World, p: Pool, models: seq<CModel>, ss: seq<string>)
    requires Good(w, p) && PipelineSessions(w, models, ss) && !Roomy(p, w.cat, models)
    ensures var r, ms, n := DeployPipeline(p, w.cat, models, ss), NewModels(p.table, models), Forecast(p, w.cat, models).placed;
            && SameBackends(r.backends, p.backends) && n <= |ms|
            && ((forall i :: 0 <= i < |p.backends| && p.backends[i].gpu.Some? ==> FreeMem(r.backends[i]) == FreeMem(p.backends[i]))
                <==> forall k :: 0 < k < n ==> Charge(w.cat, ms[k]) == 0.0)
  {
    hide Good, PipelineSessions, DeployPipeline, Roomy, Charge, DeployModels;
    AttemptSucceedsIff(w, p, models, ss);
    RestoredIffLaterFree(w, p, models, ss);
    var pairs, ms := DeployModels(p, w.cat, models, ss).deployed, NewModels(p.table, models);
    assert forall k :: 0 <= k < |pairs| ==> pairs[k].0 == ms[k];
  }

  /** The plans are in good order after an attempt exactly if some new model finds no room or all models
    * of the pipeline are new. */
  lemma OrderedIff(w: World, p: Pool, models: seq<CModel>, ss: seq<string>)
    requires Good(w, p) && PipelineSessions(w, models, ss)
    ensures Shape(DeployPipeline(p, w.cat, models, ss).table) <==> !Roomy(p, w.cat, models) || Fresh(p.table, models)
    ensures Clean(p, w.cat, models, ss) <==> !Roomy(p, w.cat, models) || Fresh(p.table, models)
  {
    hide Good, PipelineSessions, DeployPipeline, Shape, Clean, Fresh, DeployModels;
    OrderedIffClean(w, p, models, ss);
    AttemptSucceedsIff(w, p, models, ss);
  }

  // ---- Each of them does happen ---------------------------------------------------------------------------------

  function Model(id: string, need: real): CModel {
    CModel(id, [PolicyModel.Component(id, [ProfileUnit(1, 1.0, need)])])
  }

  lemma ModelNeeds(cat: Catalog, id: string, need: real)
    requires id in cat && cat[id] == Model(id, need)
    ensures Need(cat, id) == need
  {
    var u := ProfileUnit(1, 1.0, need);
    assert [u][..0] == [];
    assert BestProfile([u]) == Some(u);
    var cs := cat[id].components;
    assert cs[..0] == [] && NeedOf(cs[..0]) == 0.0;
  }

  lemma EmptyIsGood(w: World, bs: seq<Backend>)
    requires BackendsOk(w, bs) && NoDebt(bs)
    ensures Good(w, Pool([], bs))
  {
    forall b ensures ModelsOn([], b) == {} {
    }
  }

  /** Three models that need 4 each. */
  const THREE := [Model("a", 4.0), Model("b", 4.0), Model("c", 4.0)]
  const ONE_GPU := World(map["p" := Pipeline("p", THREE)], map["a" := THREE[0], "b" := THREE[1], "c" := THREE[2]], {"g"})
  const TEN_FREE := Pool([], [Backend("g", Some(10.0))])

  lemma NewThree(t: Table)
    requires t == []
    ensures NewModels(t, THREE) == ["a", "b", "c"]
  {
    assert THREE[..2][..1][..0] == [] && THREE[..2][..1] == [THREE[0]] && THREE[..2] == [THREE[0], THREE[1]];
    assert NewModels(t, THREE[..2][..1]) == ["a"];
    assert NewModels(t, THREE[..2]) == ["a", "b"];
  }

  lemma NeedsThree()
    ensures Needs(ONE_GPU.cat, ["a", "b", "c"]) == [4.0, 4.0, 4.0]
  {
    var ms, cat := ["a", "b", "c"], ONE_GPU.cat;
    ModelNeeds(cat, "a", 4.0);
    ModelNeeds(cat, "b", 4.0);
    ModelNeeds(cat, "c", 4.0);
    forall k | 0 <= k < 3 ensures Needs(cat, ms)[k] == 4.0 {
      NeedsAt(cat, ms, k);
    }
  }

  lemma FillThree()
    ensures Fill([Gpu(10.0)], [4.0, 4.0, 4.0]) == Filling([Gpu(2.0)], 2)
  {
    var needs := [4.0, 4.0, 4.0];
    assert needs[..2] == [4.0, 4.0] && [4.0, 4.0][..1] == [4.0] && [4.0][..0] == [];
    PickOne(10.0);
    PickOne(6.0);
    PickOne(2.0);
    assert Fill([Gpu(10.0)], []) == Filling([Gpu(10.0)], 0);
    assert Fill([Gpu(10.0)], [4.0]) == Filling([Gpu(6.0)], 1);
    assert Fill([Gpu(10.0)], [4.0, 4.0]) == Filling([Gpu(2.0)], 2);
  }

  lemma PickOne(free: real)
    ensures Pick([Gpu(free)], 4.0) == if free > 4.0 then Some(0) else None
  {
    assert [Gpu(free)][..0] == [];
  }

  lemma ThreeForecast()
    ensures NewModels([], THREE) == ["a", "b", "c"] && Forecast(TEN_FREE, ONE_GPU.cat, THREE) == Filling([Gpu(2.0)], 2)
  {
    NewThree([]);
    NeedsThree();
    FillThree();
    assert Slots(TEN_FREE) == [Gpu(10.0)];
  }

  lemma ModelIsProfiled(id: string, need: real)
    ensures Profiled(Model(id, need))
  {
    var u := ProfileUnit(1, 1.0, need);
    assert [u][..0] == [];
    assert BestProfile([u]) == Some(u);
  }

  lemma ThreeRegistered()
    ensures WorldOk(ONE_GPU) && DistinctModelIds(THREE)
  {
    ModelIsProfiled("a", 4.0);
    ModelIsProfiled("b", 4.0);
    ModelIsProfiled("c", 4.0);
    hide Profiled;
  }

  lemma ThreeFit(s: string)
    ensures WorldOk(ONE_GPU) && Good(ONE_GPU, TEN_FREE) && PipelineSessions(ONE_GPU, THREE, [Key("p", s)])
  {
    ThreeRegistered();
    EmptyIsGood(ONE_GPU, TEN_FREE.backends);
    FirstSegmentOfKey("p", s);
    hide WorldOk, Good, Key, FirstSegment;
  }

  /** What two deployments of models that cost 4 take. */
  lemma TakenTwice(cat: Catalog, pairs: seq<(string, string)>, name: string)
    requires |pairs| == 2 && Charge(cat, pairs[0].0) == 4.0 && Charge(cat, pairs[1].0) == 4.0 && Taken(cat, pairs, name) == 8.0
    ensures Taken(cat, pairs[1..], name) == 4.0
  {
    TakenFirst(cat, pairs, name);
    assert pairs[1..][..0] == [] && pairs[..1][..0] == [];
    assert Taken(cat, [], name) == 0.0;
  }

  /** Nothing is planned and the only backend has 10 free. The third model finds no room; the plans are
    * all taken back, but of the memory only what the first took: 6 are left. */
  lemma RollbackKeepsMemory(s: string)
    ensures WorldOk(ONE_GPU) && Good(ONE_GPU, TEN_FREE) && PipelineSessions(ONE_GPU, THREE, [Key("p", s)])
    ensures DeployPipeline(TEN_FREE, ONE_GPU.cat, THREE, [Key("p", s)]) == Pool([], [Backend("g", Some(6.0))])
  {
    var w, p, ss := ONE_GPU, TEN_FREE, [Key("p", s)];
    ThreeFit(s);
    ThreeForecast();
    ModelNeeds(w.cat, "a", 4.0);
    ModelNeeds(w.cat, "b", 4.0);
    hide Good, WorldOk, PipelineSessions, DeployModels, NewModels, Forecast, DeployPipeline, Need, Taken, Key, Shape;
    AttemptIsForecast(w, p, THREE, THREE, ss);
    var g, r := DeployModels(p, w.cat, THREE, ss), DeployPipeline(p, w.cat, THREE, ss);
    assert SlotsOf(g.pool.table, g.pool.backends)[0] == SlotOf(g.pool.table, g.pool.backends[0]);
    assert !g.ok && |g.deployed| == 2 && FreeMem(g.pool.backends[0]) == 2.0;
    RollbackExact(w, p, THREE, ss);
    TakenByModels(p, w.cat, THREE, ss, 0);
    TakenTwice(w.cat, g.deployed, "g");
    DropAllEntries(p.table, ss);
    assert r.backends[0] == Backend("g", Some(6.0));
  }

  /** A pipeline of one model and another that shares it. */
  const FIRST := [Model("m", 0.0)]
  const BOTH := [Model("m", 0.0), Model("n", 0.0)]
  const ONE_CPU := World(map["q" := Pipeline("q", FIRST), "p" := Pipeline("p", BOTH)], map["m" := BOTH[0], "n" := BOTH[1]], {})
  const NOTHING_RUNS := Pool([], [Backend("c", None)])

  lemma TwoRegistered()
    ensures WorldOk(ONE_CPU) && DistinctModelIds(FIRST) && DistinctModelIds(BOTH)
  {
    ModelIsProfiled("m", 0.0);
    ModelIsProfiled("n", 0.0);
    hide Profiled;
  }

  lemma TwoFit(s: string)
    ensures WorldOk(ONE_CPU) && Good(ONE_CPU, NOTHING_RUNS)
    ensures PipelineSessions(ONE_CPU, FIRST, [Key("q", s)]) && PipelineSessions(ONE_CPU, BOTH, [Key("p", s)])
  {
    TwoRegistered();
    EmptyIsGood(ONE_CPU, NOTHING_RUNS.backends);
    FirstSegmentOfKey("q", s);
    FirstSegmentOfKey("p", s);
    hide WorldOk, Good, Key, FirstSegment;
  }

  lemma FillCpu(n: nat)
    requires n < MAX_MODELS_PER_BACKEND
    ensures Fill([Cpu(n)], [0.0]) == Filling([Cpu(n + 1)], 1)
  {
    assert [Cpu(n)][..0] == [] && [0.0][..0] == [];
    assert Fill([Cpu(n)], []) == Filling([Cpu(n)], 0);
  }

  lemma NeedNothing(m: string)
    requires m == "m" || m == "n"
    ensures Needs(ONE_CPU.cat, [m]) == [0.0]
  {
    ModelNeeds(ONE_CPU.cat, m, 0.0);
    NeedsAt(ONE_CPU.cat, [m], 0);
  }

  lemma NewFirst()
    ensures NewModels([], FIRST) == ["m"] && Fresh([], FIRST)
  {
    assert FIRST[..0] == [];
  }

  lemma NewSecond(t: Table)
    requires !Unplanned(t, "m") && Unplanned(t, "n")
    ensures NewModels(t, BOTH) == ["n"] && !Fresh(t, BOTH)
  {
    assert BOTH[..1] == FIRST && FIRST[..0] == [];
    assert NewModels(t, FIRST) == [];
    assert BOTH[0].uuid == "m";
  }

  lemma FirstForecast()
    ensures NewModels([], FIRST) == ["m"] && Fresh([], FIRST)
    ensures Forecast(NOTHING_RUNS, ONE_CPU.cat, FIRST) == Filling([Cpu(1)], 1)
  {
    NewFirst();
    NeedNothing("m");
    FillCpu(0);
    assert ModelsOn([], "c") == {};
    assert Slots(NOTHING_RUNS) == [Cpu(0)];
  }

  /** The first of the two pipelines is deployed without sharing anything. */
  lemma FirstAttempt(ss: seq<string>)
    requires Good(ONE_CPU, NOTHING_RUNS) && PipelineSessions(ONE_CPU, FIRST, ss)
    ensures var g := DeployModels(NOTHING_RUNS, ONE_CPU.cat, FIRST, ss);
            && g.ok && g.shared == [] && Slots(g.pool) == [Cpu(1)] && FirstsDeployed(g.deployed, ["m"])
            && DeployPipeline(NOTHING_RUNS, ONE_CPU.cat, FIRST, ss) == g.pool
  {
    FirstForecast();
    hide Good, PipelineSessions, DeployModels, NewModels, Forecast, Fresh;
    AttemptIsForecast(ONE_CPU, NOTHING_RUNS, FIRST, FIRST, ss);
    SharedExact(ONE_CPU, NOTHING_RUNS, FIRST, FIRST, ss);
    ShareNothing(DeployModels(NOTHING_RUNS, ONE_CPU.cat, FIRST, ss).pool.table, ss);
  }

  lemma FirstIsPlanned(t: Table, s: string)
    requires PlacedWhole(t, s, FIRST)
    ensures !Unplanned(t, "m")
  {
    assert FIRST[0].uuid == "m";
  }

  /** The first of the two pipelines is in place. */
  lemma FirstPlaced(s: string) returns (p: Pool)
    ensures p == DeployPipeline(NOTHING_RUNS, ONE_CPU.cat, FIRST, [Key("q", s)])
    ensures Good(ONE_CPU, p) && Slots(p) == [Cpu(1)]
    ensures !Unplanned(p.table, "m") && Unplanned(p.table, "n")
  {
    var w, start, ss := ONE_CPU, NOTHING_RUNS, [Key("q", s)];
    p := DeployPipeline(start, w.cat, FIRST, ss);
    TwoFit(s);
    FirstAttempt(ss);
    assert start.table == [];
    hide WorldOk, PipelineSessions, DeployModels, DeployPipeline, Key, PlacedWhole, Unplanned, Inv, BackendsOk, NoDebt, WithinBudget,
         TableProgress, OthersSame, Slots, FirstsDeployed;
    DeployPipelineGood(w, start, FIRST, ss);
    AllOrNothing(w, start, FIRST, ss);
    assert ss[0] in ss;
    FirstIsPlanned(p.table, ss[0]);
    DeployModelsOk(w, start, FIRST, FIRST, ss);
    GoodIsShape(w, p);
    SecondIsNew(p.table, ss, DeployModels(start, w.cat, FIRST, ss).deployed);
  }

  lemma GoodIsShape(w: World, p: Pool)
    requires Good(w, p)
    ensures Shape(p.table)
  {
  }

  lemma NowhereYet(m: string, b: string)
    ensures !Runs([], m, b)
  {
  }

  lemma SecondIsNew(t: Table, ss: seq<string>, pairs: seq<(string, string)>)
    requires Shape(t) && TableProgress([], ss, FIRST, t, pairs) && FirstsDeployed(pairs, ["m"])
    ensures Unplanned(t, "n")
  {
    hide Shape, Runs, OthersSame, DeployedFor, Unplanned;
    forall b ensures !Runs([], "n", b) && ("n", b) !in pairs {
      NowhereYet("n", b);
    }
    forall b ensures b !in Hosts(t, "n") {
    }
    PlannedIsHosted(t, "n");
  }

  /** One pipeline is in place and in good order; a second that shares its model and adds one is to be
    * deployed, finds room, and leaves a table out of order. */
  lemma SharingBreaksOrder(s: string)
    ensures var p := DeployPipeline(NOTHING_RUNS, ONE_CPU.cat, FIRST, [Key("q", s)]);
            && WorldOk(ONE_CPU) && Good(ONE_CPU, p) && PipelineSessions(ONE_CPU, BOTH, [Key("p", s)])
            && !PipelinePlaced(p.table, BOTH)
            && !Shape(DeployPipeline(p, ONE_CPU.cat, BOTH, [Key("p", s)]).table)
  {
    var p := FirstPlaced(s);
    TwoFit(s);
    hide WorldOk, PipelineSessions, DeployPipeline, Good;
    NewSecond(p.table);
    NeedNothing("n");
    FillCpu(1);
    assert Roomy(p, ONE_CPU.cat, BOTH);
    OrderedIff(ONE_CPU, p, BOTH, [Key("p", s)]);
    UnplannedHosts(p.table, "n");
    assert BOTH[1].uuid == "n";
  }
}