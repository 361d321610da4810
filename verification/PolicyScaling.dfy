/** Scaling: each requested model ends on as many backends as its demand calls for, or no
  * usable backend was left when its scale-up stopped. */
module PolicyScaling {
  import opened Options
  import opened PolicyModel
  import opened PolicyCosts
  import opened Sums
  import opened PolicyTables
  import opened PolicyGrowth
  import opened PolicyInvariants
  import opened PolicyBudget
  import opened PolicyPruning
  import opened PolicyDeployment
  import opened PolicyAssignment

  // ---- Tables that differ only in backends ---------------------------------------------------

  predicate SameModels(r: SessionPlans, t: SessionPlans) {
    && r.session == t.session
    && |r.models| == |t.models|
    && forall j :: 0 <= j < |t.models| ==> r.models[j].model == t.models[j].model
  }

  /** The same sessions with the same models in the same order. */
  predicate SameSkeleton(r: Table, t: Table) {
    |r| == |t| && forall i :: 0 <= i < |t| ==> SameModels(r[i], t[i])
  }

  lemma SkeletonTransitive(r: Table, q: Table, t: Table)
    requires SameSkeleton(r, q) && SameSkeleton(q, t)
    ensures SameSkeleton(r, t)
  {
    forall i | 0 <= i < |t| ensures SameModels(r[i], t[i]) {
      assert SameModels(r[i], q[i]) && SameModels(q[i], t[i]);
    }
  }

  lemma SameModelsPlans(r: SessionPlans, t: SessionPlans, m: string)
    requires SameModels(r, t)
    ensures Plans(r, m) <==> Plans(t, m)
  {
    if j :| 0 <= j < |t.models| && t.models[j].model == m {
      assert r.models[j].model == m;
    }
  }

  lemma {:induction false} SkeletonSessions(r: Table, t: Table, m: string)
    requires SameSkeleton(r, t)
    ensures SessionsWith(r, m) == SessionsWith(t, m)
    ensures Unplanned(r, m) <==> Unplanned(t, m)
  {
    forall i | 0 <= i < |t| ensures Plans(r[i], m) <==> Plans(t[i], m) {
      SameModelsPlans(r[i], t[i], m);
    }
    if t != [] {
      SkeletonSessions(r[..|r| - 1], t[..|t| - 1], m);
      PlansIsFirst(r[|r| - 1], m);
      PlansIsFirst(t[|t| - 1], m);
      assert SameModels(r[|r| - 1], t[|t| - 1]);
    }
  }

  lemma {:induction false} SessionsWithExact(t: Table, m: string)
    ensures forall s :: s in SessionsWith(t, m) <==> exists i :: 0 <= i < |t| && t[i].session == s && Plans(t[i], m)
    ensures DistinctSessions(t) ==> DistinctStrings(SessionsWith(t, m))
  {
    if t != [] {
      var init, e := t[..|t| - 1], t[|t| - 1];
      SessionsWithExact(init, m);
      PlansIsFirst(e, m);
      forall s ensures s in SessionsWith(t, m) <==> exists i :: 0 <= i < |t| && t[i].session == s && Plans(t[i], m) {
        if s in SessionsWith(init, m) {
          var i :| 0 <= i < |init| && init[i].session == s && Plans(init[i], m);
          assert t[i] == init[i];
        } else if s in SessionsWith(t, m) {
          assert t[|t| - 1] == e;
        }
      }
      if DistinctSessions(t) {
        assert e.session !in SessionsWith(init, m);
      }
    }
  }

  /** The sessions with a plan for a model are served all together. */
  lemma SessionsWithServe(w: World, live: set<string>, t: Table, m: string)
    requires Shape(t) && Fits(w, live, t)
    ensures var ss := SessionsWith(t, m);
            ServesAll(t, ss, m) && DistinctStrings(ss) && forall s :: s in ss ==> HasModel(KeyModels(w, s), m)
  {
    SessionsWithExact(t, m);
    var ss := SessionsWith(t, m);
    forall s | s in ss ensures HasSession(t, s) && HasModel(KeyModels(w, s), m) {
      var i :| 0 <= i < |t| && t[i].session == s && Plans(t[i], m);
      var j :| 0 <= j < |t[i].models| && t[i].models[j].model == m;
      assert EntryFits(w, live, t[i]);
    }
    forall i | 0 <= i < |t| ensures t[i].session in ss <==> Plans(t[i], m) {
    }
  }

  // ---- Scaling down -----------------------------------------------------------------------------

  lemma FirstHostIsHost(t: Table, m: string)
    ensures FirstHost(t, m).None? <==> Hosts(t, m) == {}
    ensures FirstHost(t, m).Some? ==> FirstHost(t, m).value in Hosts(t, m)
  {
    MergedHosts(t, m);
    NamesNonEmpty(MergeAll(PlansOf(t, m)));
  }

  predicate Idle(p: CModelPlan, m: string) {
    p.model != m || p.backends == []
  }

  predicate FirstBusy(plans: seq<CModelPlan>, m: string, j: nat) {
    j < |plans| && !Idle(plans[j], m) && forall l :: 0 <= l < j ==> Idle(plans[l], m)
  }

  predicate NoneBusy(plans: seq<CModelPlan>, m: string) {
    forall l :: 0 <= l < |plans| ==> Idle(plans[l], m)
  }

  /** The model leaves the backend that is named first, in the first plan for it that names any, of the first session
    * that has such a plan. */
  lemma {:induction false} FirstHostIs(t: Table, m: string, i: nat, j: nat)
    requires i < |t| && FirstBusy(t[i].models, m, j) && forall l :: 0 <= l < i ==> NoneBusy(t[l].models, m)
    ensures FirstHost(t, m) == Some(t[i].models[j].backends[0].backend)
  {
    var init, last := t[..|t| - 1], t[|t| - 1].models;
    MergeAllFirst(PlansOf(init, m), PlansIn(last, m));
    if i < |init| {
      FirstHostIs(init, m, i, j);
    } else {
      NobodyFirst(init, m);
      PlansInFirst(last, m, j);
    }
  }

  lemma {:induction false} NobodyFirst(t: Table, m: string)
    requires forall l :: 0 <= l < |t| ==> NoneBusy(t[l].models, m)
    ensures MergeAll(PlansOf(t, m)) == []
  {
    if t != [] {
      var init, last := t[..|t| - 1], t[|t| - 1].models;
      NobodyFirst(init, m);
      PlansInFirst(last, m, |last|);
      MergeAllFirst(PlansOf(init, m), PlansIn(last, m));
    }
  }

  lemma {:induction false} PlansInFirst(plans: seq<CModelPlan>, m: string, j: nat)
    requires FirstBusy(plans, m, j) || (j == |plans| && NoneBusy(plans, m))
    ensures var r := MergeAll(PlansIn(plans, m));
            if j < |plans| then r != [] && r[0] == plans[j].backends[0] else r == []
  {
    if plans != [] {
      var init, p := plans[..|plans| - 1], plans[|plans| - 1];
      PlansInFirst(init, m, if j < |init| then j else |init|);
      assert (PlansIn(init, m) + [p])[..|PlansIn(init, m)|] == PlansIn(init, m);
      MergeFirst(MergeAll(PlansIn(init, m)), p.backends);
    }
  }

  lemma {:induction false} MergeAllFirst(a: seq<CModelPlan>, b: seq<CModelPlan>)
    ensures var r, ra, rb := MergeAll(a + b), MergeAll(a), MergeAll(b);
            if ra != [] then r != [] && r[0] == ra[0] else if rb != [] then r != [] && r[0] == rb[0] else r == []
  {
    if b == [] {
      assert a + b == a;
    } else {
      var init, p := b[..|b| - 1], b[|b| - 1];
      MergeAllFirst(a, init);
      assert (a + b)[..|a + b| - 1] == a + init;
      MergeFirst(MergeAll(a + init), p.backends);
      MergeFirst(MergeAll(init), p.backends);
    }
  }

  lemma {:induction false} MergeFirst(into: seq<BackendPlan>, plans: seq<BackendPlan>)
    ensures var r := Merge(into, plans);
            if into != [] then r != [] && r[0] == into[0] else if plans != [] then r != [] && r[0] == plans[0] else r == []
  {
    if plans != [] {
      MergeFirst(into, plans[..|plans| - 1]);
    }
  }

  lemma TwoHostsSpare(t: Table, m: string, b: string)
    requires Shape(t) && SameHosts(t) && Hosts(t, m) != {b}
    ensures Spare(t, m, b)
  {
    forall i | 0 <= i < |t| ensures EntryWithout(t[i], m, b).Some? {
      EntryWithoutShape(t[i], m, b);
      forall j | 0 <= j < |t[i].models| && t[i].models[j].model == m
        ensures Names(t[i].models[j].backends) != {b}
      {
        assert Names(t[i].models[j].backends) == Hosts(t, t[i].models[j].model);
      }
    }
  }

  lemma RemoveSpareSkeleton(t: Table, m: string, b: string)
    requires Shape(t) && Spare(t, m, b)
    ensures SameSkeleton(Remove(t, m, b), t)
  {
    RemoveSpare(t, m, b);
    forall i | 0 <= i < |t| ensures SameModels(Remove(t, m, b)[i], t[i]) {
      assert EntryWithout(t[i], m, b) == Some(Remove(t, m, b)[i]);
      EntryWithoutShape(t[i], m, b);
    }
  }

  /** What scaling one model leaves alone: everything but the backends of that model. */
  ghost predicate OnlyScaled(w: World, q: Pool, p: Pool, m: string) {
    && Good(w, q)
    && WithinBudget(w.cat, q, p)
    && SameSkeleton(q.table, p.table)
    && OthersKept(q.table, p.table, m)
  }

  ghost predicate OthersKept(q: Table, p: Table, m: string) {
    forall x :: x != m ==> Hosts(q, x) == Hosts(p, x)
  }

  lemma OnlyScaledStep(w: World, r: Pool, q: Pool, p: Pool, m: string)
    requires OnlyScaled(w, q, p, m) && OnlyScaled(w, r, q, m)
    ensures OnlyScaled(w, r, p, m)
  {
    WithinTransitive(w.cat, r, q, p);
    SkeletonTransitive(r.table, q.table, p.table);
  }

  lemma RemoveSpareHosts(t: Table, m: string, b: string)
    requires Shape(t) && Spare(t, m, b)
    ensures Hosts(Remove(t, m, b), m) == Hosts(t, m) - {b}
    ensures OthersKept(Remove(t, m, b), t, m)
  {
    forall x, y ensures Runs(Remove(t, m, b), x, y) <==> Runs(t, x, y) && !(x == m && y == b) {
      RemoveSpareRuns(t, m, b, x, y);
    }
    SameRunsKept(Remove(t, m, b), t, m);
  }

  lemma SameRunsKept(q: Table, p: Table, m: string)
    requires forall x, y :: x != m ==> (Runs(q, x, y) <==> Runs(p, x, y))
    ensures OthersKept(q, p, m)
  {
    forall x | x != m ensures Hosts(q, x) == Hosts(p, x) {
      forall y ensures y in Hosts(q, x) <==> y in Hosts(p, x) {
      }
    }
  }

  lemma ScaleDownTable(t: Table, m: string, b: string)
    requires Shape(t) && SameHosts(t) && b in Hosts(t, m) && |Hosts(t, m)| > 1
    ensures SameSkeleton(Remove(t, m, b), t)
    ensures |Hosts(Remove(t, m, b), m)| == |Hosts(t, m)| - 1
    ensures OthersKept(Remove(t, m, b), t, m)
  {
    assert Hosts(t, m) != {b};
    TwoHostsSpare(t, m, b);
    RemoveSpareSkeleton(t, m, b);
    RemoveSpareHosts(t, m, b);
  }

  lemma ScaleDownOnce(w: World, q: Pool, m: string, b: string)
    requires Good(w, q) && |Hosts(q.table, m)| > 1 && b in Hosts(q.table, m)
    ensures OnlyScaled(w, Undeploy(q, w.cat, m, b), q, m)
    ensures |Hosts(Undeploy(q, w.cat, m, b).table, m)| == |Hosts(q.table, m)| - 1
  {
    ScaleDownTable(q.table, m, b);
    UndeployGood(w, q, m, b);
  }

  lemma ScaleDownMore(w: World, q: Pool, p: Pool, m: string)
    requires OnlyScaled(w, q, p, m) && |Hosts(q.table, m)| > 1
    ensures FirstHost(q.table, m).Some?
    ensures var r := Undeploy(q, w.cat, m, FirstHost(q.table, m).value);
            OnlyScaled(w, r, p, m) && |Hosts(r.table, m)| == |Hosts(q.table, m)| - 1
  {
    FirstHostIsHost(q.table, m);
    var b := FirstHost(q.table, m).value;
    ScaleDownOnce(w, q, m, b);
    OnlyScaledStep(w, Undeploy(q, w.cat, m, b), q, p, m);
  }

  /** `q` is `p` with `delta` backends fewer for the model. */
  ghost predicate ScaledDown(w: World, q: Pool, p: Pool, m: string, delta: nat) {
    OnlyScaled(w, q, p, m) && |Hosts(q.table, m)| + delta == |Hosts(p.table, m)|
  }

  lemma ScaleDownStep(w: World, p: Pool, m: string, delta: nat)
    requires 0 < delta < |Hosts(p.table, m)|
    requires ScaledDown(w, ScaleDown(p, w.cat, m, delta - 1), p, m, delta - 1)
    ensures ScaledDown(w, ScaleDown(p, w.cat, m, delta), p, m, delta)
  {
    hide Good, WithinBudget, SameSkeleton, OthersKept;
    ScaleDownMore(w, ScaleDown(p, w.cat, m, delta - 1), p, m);
  }

  lemma {:induction false} ScaleDownReaches(w: World, p: Pool, m: string, delta: nat)
    requires Good(w, p) && delta < |Hosts(p.table, m)|
    ensures ScaledDown(w, ScaleDown(p, w.cat, m, delta), p, m, delta)
  {
    hide Good, WithinBudget, SameSkeleton, OthersKept;
    if delta == 0 {
      ScaledNothing(w, p, m);
    } else {
      hide ScaleDown, Hosts;
      ScaleDownReaches(w, p, m, delta - 1);
      ScaleDownStep(w, p, m, delta);
    }
  }

  lemma ScaledNothing(w: World, p: Pool, m: string)
    requires Good(w, p)
    ensures OnlyScaled(w, p, p, m)
  {
    WithinRefl(w.cat, p);
  }

  // ---- Scaling up --------------------------------------------------------------------------------

  lemma AddPlansSkeleton(t: Table, m: string, bp: BackendPlan)
    requires Shape(t) && !Runs(t, m, bp.backend)
    ensures DistinctStrings(SessionsWith(t, m))
    ensures SameSkeleton(AddPlans(t, SessionsWith(t, m), m, bp), t)
  {
    var ss := SessionsWith(t, m);
    SessionsWithExact(t, m);
    AddPlansTable(t, ss, m, bp);
    var r := AddPlans(t, ss, m, bp);
    forall s | s in ss ensures HasSession(t, s) {
      var i :| 0 <= i < |t| && t[i].session == s && Plans(t[i], m);
    }
    NoNewSessions(r, t, ss, m, bp);
    forall i | 0 <= i < |t| ensures SameModels(r[i], t[i]) {
      if t[i].session in ss {
        assert !EntryRuns(t[i], m, bp.backend);
        AddToEntryShape(t[i], m, bp);
      }
    }
  }

  lemma NoNewSessions(r: Table, t: Table, ss: seq<string>, m: string, bp: BackendPlan)
    requires GrownTable(r, t, ss, m, bp)
    ensures (forall s :: s in ss ==> HasSession(t, s)) ==> |r| == |t|
  {
    assert |r| > |t| ==> r[|t|].session in ss && !HasSession(t, r[|t|].session);
  }

  lemma ScaleUpTable(t: Table, m: string, bp: BackendPlan)
    requires Shape(t) && !Runs(t, m, bp.backend) && SessionsWith(t, m) != []
    ensures var r := AddPlans(t, SessionsWith(t, m), m, bp);
            && SameSkeleton(r, t)
            && |Hosts(r, m)| == |Hosts(t, m)| + 1
            && OthersKept(r, t, m)
  {
    var r := AddPlans(t, SessionsWith(t, m), m, bp);
    AddPlansSkeleton(t, m, bp);
    AddPlansShape(t, SessionsWith(t, m), m, bp);
    SameRunsKept(r, t, m);
    assert bp.backend !in Hosts(t, m);
    assert Hosts(r, m) == Hosts(t, m) + {bp.backend};
  }

  lemma DeployServing(w: World, q: Pool, m: string)
    requires Good(w, q)
    ensures var d := Deploy(q, w.cat, m, SessionsWith(q.table, m));
            && Good(w, d.0)
            && WithinBudget(w.cat, d.0, q)
            && (d.1.None? ==> d.0 == q && Saturated(q, w.cat, m))
            && (d.1.Some? ==>
                 && d.0.table == AddPlans(q.table, SessionsWith(q.table, m), m, NewBackendPlan(w.cat, m, d.1.value))
                 && !Runs(q.table, m, d.1.value))
  {
    SessionsWithServe(w, BackendNames(q.backends), q.table, m);
    DeployGood(w, q, m, SessionsWith(q.table, m));
  }

  lemma ScaleUpOnce(w: World, q: Pool, m: string)
    requires Good(w, q) && SessionsWith(q.table, m) != []
    ensures var d := Deploy(q, w.cat, m, SessionsWith(q.table, m));
            && OnlyScaled(w, d.0, q, m)
            && (d.1.Some? ==> |Hosts(d.0.table, m)| == |Hosts(q.table, m)| + 1)
            && (d.1.None? ==> d.0 == q && Saturated(q, w.cat, m))
  {
    DeployServing(w, q, m);
    var d := Deploy(q, w.cat, m, SessionsWith(q.table, m));
    if d.1.None? {
      ScaledNothing(w, q, m);
    } else {
      ScaleUpTable(q.table, m, NewBackendPlan(w.cat, m, d.1.value));
    }
  }

  lemma ScaleUpMore(w: World, q: Pool, p: Pool, m: string, ss: seq<string>)
    requires OnlyScaled(w, q, p, m) && ss == SessionsWith(p.table, m) && ss != []
    ensures var d := Deploy(q, w.cat, m, ss);
            && OnlyScaled(w, d.0, p, m)
            && (d.1.Some? ==> |Hosts(d.0.table, m)| == |Hosts(q.table, m)| + 1)
            && (d.1.None? ==> d.0 == q && Saturated(q, w.cat, m))
  {
    SkeletonSessions(q.table, p.table, m);
    ScaleUpOnce(w, q, m);
    OnlyScaledStep(w, Deploy(q, w.cat, m, ss).0, q, p, m);
  }

  /** `u` is `p` with `delta` backends more for the model, or with fewer more and no usable
    * backend left. */
  ghost predicate ScaledUp(w: World, u: (Pool, bool), p: Pool, m: string, delta: int) {
    && OnlyScaled(w, u.0, p, m)
    && (u.1 ==> |Hosts(u.0.table, m)| == |Hosts(p.table, m)| + delta)
    && (!u.1 ==> |Hosts(u.0.table, m)| < |Hosts(p.table, m)| + delta && Saturated(u.0, w.cat, m))
  }

  lemma ScaleUpStep(w: World, p: Pool, m: string, ss: seq<string>, delta: nat)
    requires delta > 0 && ss == SessionsWith(p.table, m) && ss != []
    requires ScaledUp(w, ScaleUp(p, w.cat, m, ss, delta - 1), p, m, delta - 1)
    ensures ScaledUp(w, ScaleUp(p, w.cat, m, ss, delta), p, m, delta)
  {
    var u := ScaleUp(p, w.cat, m, ss, delta - 1);
    if u.1 {
      ScaleUpMore(w, u.0, p, m, ss);
    }
  }

  lemma ScaleUpNone(w: World, p: Pool, m: string)
    requires Good(w, p)
    ensures ScaledUp(w, (p, true), p, m, 0)
  {
    ScaledNothing(w, p, m);
  }

  lemma {:induction false} ScaleUpReaches(w: World, p: Pool, m: string, ss: seq<string>, delta: nat)
    requires Good(w, p) && ss == SessionsWith(p.table, m) && ss != []
    ensures ScaledUp(w, ScaleUp(p, w.cat, m, ss, delta), p, m, delta)
  {
    hide Good, ScaledUp, SessionsWith, Deploy;
    if delta == 0 {
      ScaleUpNone(w, p, m);
    } else {
      ScaleUpReaches(w, p, m, ss, delta - 1);
      ScaleUpStep(w, p, m, ss, delta);
    }
  }

  // ---- The target -----------------------------------------------------------------------------------

  predicate LeastBackends(n: int, demand: real, fps: real) {
    (n - 1) as real * fps < demand <= n as real * fps
  }

  /** The target is the least number of backends whose combined rate, each at that of the model's slowest
    * component, meets what all requests ask of the model together. */
  lemma TargetIsLeast(cat: Catalog, reqs: seq<Request>, m: string)
    ensures LeastBackends(Target(cat, reqs, m), Total(Asked(reqs, m)), Fps(cat, m))
    ensures m in cat ==> SlowestRate(cat[m].components, Fps(cat, m))
  {
    DemandIsTotal(reqs, m);
    if m in cat {
      FpsIsSlowest(cat[m].components);
    }
    CeilIsLeast(Target(cat, reqs, m), Demand(reqs, m), Fps(cat, m), Demand(reqs, m) / Fps(cat, m));
  }

  lemma CeilIsLeast(n: int, demand: real, fps: real, ratio: real)
    requires fps > 0.0 && ratio == demand / fps && n == Ceil(ratio)
    ensures LeastBackends(n, demand, fps)
  {
    Scaled((n - 1) as real, ratio, fps, demand);
    Scaled(n as real, ratio, fps, demand);
  }

  lemma Scaled(a: real, ratio: real, fps: real, demand: real)
    requires fps > 0.0 && ratio == demand / fps
    ensures a < ratio ==> a * fps < demand
    ensures ratio <= a ==> demand <= a * fps
  {
    assert ratio * fps == demand;
    assert (ratio - a) * fps == demand - a * fps;
    if a < ratio {
      assert (ratio - a) * fps > 0.0;
    } else {
      assert (ratio - a) * fps <= 0.0;
    }
  }

  lemma {:induction false} DemandPositive(reqs: seq<Request>, m: string)
    requires forall i :: 0 <= i < |reqs| ==> reqs[i].fps > 0.0
    ensures Demand(reqs, m) >= 0.0
    ensures m in Wanted(reqs) ==> Demand(reqs, m) > 0.0
  {
    if reqs != [] {
      DemandPositive(reqs[..|reqs| - 1], m);
      MentionExact(Wanted(reqs[..|reqs| - 1]), reqs[|reqs| - 1].pipeline.models, m);
    }
  }

  lemma {:induction false} MentionExact(seen: seq<string>, models: seq<CModel>, m: string)
    ensures m in Mention(seen, models) <==> m in seen || HasModel(models, m)
  {
    if models != [] {
      MentionExact(seen, models[..|models| - 1], m);
      HasModelSnoc(models[..|models| - 1], models[|models| - 1]);
      assert models == models[..|models| - 1] + [models[|models| - 1]];
    }
  }

  lemma {:induction false} MentionDistinct(seen: seq<string>, models: seq<CModel>)
    requires DistinctStrings(seen)
    ensures DistinctStrings(Mention(seen, models))
  {
    if models != [] {
      MentionDistinct(seen, models[..|models| - 1]);
    }
  }

  lemma {:induction false} WantedDistinct(reqs: seq<Request>)
    ensures DistinctStrings(Wanted(reqs))
  {
    if reqs != [] {
      WantedDistinct(reqs[..|reqs| - 1]);
      MentionDistinct(Wanted(reqs[..|reqs| - 1]), reqs[|reqs| - 1].pipeline.models);
    }
  }

  lemma TargetPositive(w: World, reqs: seq<Request>, m: string)
    requires RequestsOk(w, reqs) && m in Wanted(reqs)
    ensures Target(w.cat, reqs, m) >= 1
  {
    DemandPositive(reqs, m);
    assert Demand(reqs, m) / Fps(w.cat, m) > 0.0;
  }

  // ---- One model, then all ------------------------------------------------------------------------

  /** On exactly the target number of backends, or on fewer with no usable backend left. */
  ghost predicate ReachedOrSaturated(cat: Catalog, reqs: seq<Request>, p: Pool, m: string) {
    || |Hosts(p.table, m)| == Target(cat, reqs, m)
    || (|Hosts(p.table, m)| < Target(cat, reqs, m) && Saturated(p, cat, m))
  }

  lemma ScaleModelDown(w: World, p: Pool, reqs: seq<Request>, m: string)
    requires Good(w, p) && 1 <= Target(w.cat, reqs, m) < |Hosts(p.table, m)|
    ensures var q := ScaleDown(p, w.cat, m, |Hosts(p.table, m)| - Target(w.cat, reqs, m));
            OnlyScaled(w, q, p, m) && ReachedOrSaturated(w.cat, reqs, q, m)
  {
    hide Good, OnlyScaled, Hosts, Target, Saturated;
    ScaleDownReaches(w, p, m, |Hosts(p.table, m)| - Target(w.cat, reqs, m));
  }

  lemma ScaleModelUp(w: World, p: Pool, reqs: seq<Request>, m: string)
    requires Good(w, p) && |Hosts(p.table, m)| <= Target(w.cat, reqs, m) && SessionsWith(p.table, m) != []
    ensures var q := ScaleUp(p, w.cat, m, SessionsWith(p.table, m), Target(w.cat, reqs, m) - |Hosts(p.table, m)|).0;
            OnlyScaled(w, q, p, m) && ReachedOrSaturated(w.cat, reqs, q, m)
  {
    hide Good, OnlyScaled, Hosts, Target, Saturated;
    ScaleUpReaches(w, p, m, SessionsWith(p.table, m), Target(w.cat, reqs, m) - |Hosts(p.table, m)|);
  }

  lemma ScaleModelReaches(w: World, p: Pool, t: Table, reqs: seq<Request>, m: string)
    requires Good(w, p) && RequestsOk(w, reqs) && m in Wanted(reqs)
    requires SameSkeleton(p.table, t) && Hosts(p.table, m) == Hosts(t, m)
    ensures var q := ScaleModel(p, w.cat, t, reqs, m);
            && OnlyScaled(w, q, p, m)
            && (!Unplanned(t, m) ==> ReachedOrSaturated(w.cat, reqs, q, m))
  {
    hide Good, WithinBudget, OthersKept, ReachedOrSaturated, SessionsWith, PlansOf, Unplanned, RequestsOk, ScaleUp, ScaleDown;
    TargetPositive(w, reqs, m);
    UnplannedIsNoPlans(t, m);
    SkeletonSessions(p.table, t, m);
    if Unplanned(t, m) {
      ScaledNothing(w, p, m);
    } else if |Hosts(t, m)| > Target(w.cat, reqs, m) {
      ScaleModelDown(w, p, reqs, m);
    } else {
      SomebodyPlans(t, m);
      ScaleModelUp(w, p, reqs, m);
    }
  }

  lemma SomebodyPlans(t: Table, m: string)
    requires !Unplanned(t, m)
    ensures SessionsWith(t, m) != []
  {
    SessionsWithExact(t, m);
    var i :| 0 <= i < |t| && Plans(t[i], m);
    assert t[i].session in SessionsWith(t, m);
  }

  /** The hosts of a model after its own turn are its hosts at the end. */
  ghost predicate Settled(w: World, p: Pool, reqs: seq<Request>, models: seq<string>, k: nat)
    requires k < |models|
  {
    var after := ScaleAll(p, w.cat, p.table, reqs, models[..k + 1]);
    && ReachedOrSaturated(w.cat, reqs, after, models[k])
    && Hosts(ScaleAll(p, w.cat, p.table, reqs, models).table, models[k]) == Hosts(after.table, models[k])
  }

  lemma ScaleNext(w: World, p: Pool, q0: Pool, reqs: seq<Request>, m: string)
    requires Good(w, q0) && WithinBudget(w.cat, q0, p) && SameSkeleton(q0.table, p.table)
    requires RequestsOk(w, reqs) && m in Wanted(reqs) && Hosts(q0.table, m) == Hosts(p.table, m)
    ensures var q := ScaleModel(q0, w.cat, p.table, reqs, m);
            && Good(w, q)
            && WithinBudget(w.cat, q, p)
            && SameSkeleton(q.table, p.table)
            && (forall x :: x != m ==> Hosts(q.table, x) == Hosts(q0.table, x))
            && (!Unplanned(p.table, m) ==> ReachedOrSaturated(w.cat, reqs, q, m))
  {
    hide Good, WithinBudget, SameSkeleton, ReachedOrSaturated, ScaleModel, Hosts, Unplanned, RequestsOk;
    ScaleModelReaches(w, q0, p.table, reqs, m);
    var q := ScaleModel(q0, w.cat, p.table, reqs, m);
    WithinTransitive(w.cat, q, q0, p);
    SkeletonTransitive(q.table, q0.table, p.table);
  }

  lemma StaysSettled(w: World, p: Pool, reqs: seq<Request>, models: seq<string>, k: nat)
    requires DistinctStrings(models) && k < |models| - 1
    requires Settled(w, p, reqs, models[..|models| - 1], k)
    requires var q0, q := ScaleAll(p, w.cat, p.table, reqs, models[..|models| - 1]), ScaleAll(p, w.cat, p.table, reqs, models);
             forall x :: x != models[|models| - 1] ==> Hosts(q.table, x) == Hosts(q0.table, x)
    ensures Settled(w, p, reqs, models, k)
  {
    hide Hosts, ReachedOrSaturated, ScaleModel;
    var init := models[..|models| - 1];
    assert init[k] == models[k] && models[k] != models[|models| - 1];
    assert init[..k + 1] == models[..k + 1];
    var after := ScaleAll(p, w.cat, p.table, reqs, models[..k + 1]);
    assert ReachedOrSaturated(w.cat, reqs, after, models[k]);
    assert Hosts(ScaleAll(p, w.cat, p.table, reqs, init).table, models[k]) == Hosts(after.table, models[k]);
  }

  lemma {:induction false} ScaleAllReaches(w: World, p: Pool, reqs: seq<Request>, models: seq<string>)
    requires Good(w, p) && RequestsOk(w, reqs) && DistinctStrings(models)
    requires forall m :: m in models ==> m in Wanted(reqs)
    ensures var q := ScaleAll(p, w.cat, p.table, reqs, models);
            && Good(w, q)
            && WithinBudget(w.cat, q, p)
            && SameSkeleton(q.table, p.table)
            && (forall x :: x !in models ==> Hosts(q.table, x) == Hosts(p.table, x))
            && forall k :: 0 <= k < |models| && !Unplanned(p.table, models[k]) ==> Settled(w, p, reqs, models, k)
  {
    if models == [] {
      WithinRefl(w.cat, p);
    } else {
      hide Good, WithinBudget, SameSkeleton, OthersKept, ReachedOrSaturated, ScaleModel, Hosts, Unplanned, RequestsOk;
      var init, m := models[..|models| - 1], models[|models| - 1];
      assert models == init + [m];
      ScaleAllReaches(w, p, reqs, init);
      ScaleNext(w, p, ScaleAll(p, w.cat, p.table, reqs, init), reqs, m);
      hide Settled;
      forall k | 0 <= k < |models| && !Unplanned(p.table, models[k]) ensures Settled(w, p, reqs, models, k) {
        if k < |init| {
          StaysSettled(w, p, reqs, models, k);
        } else {
          LastSettled(w, p, reqs, models);
        }
      }
    }
  }

  lemma LastSettled(w: World, p: Pool, reqs: seq<Request>, models: seq<string>)
    requires models != [] && ReachedOrSaturated(w.cat, reqs, ScaleAll(p, w.cat, p.table, reqs, models), models[|models| - 1])
    ensures Settled(w, p, reqs, models, |models| - 1)
  {
    hide ScaleAll, ReachedOrSaturated, Hosts;
    assert models[..|models|] == models;
  }

  /** Scaling reaches its target or saturates, for every requested model that is placed; no
    * session gains or loses a model by it. */
  lemma ScaleReaches(w: World, p: Pool, reqs: seq<Request>)
    requires Good(w, p) && RequestsOk(w, reqs)
    ensures var q, models := Scale(p, w.cat, reqs), Wanted(reqs);
            && Good(w, q)
            && WithinBudget(w.cat, q, p)
            && SameSkeleton(q.table, p.table)
            && forall k :: 0 <= k < |models| && !Unplanned(p.table, models[k]) ==> Settled(w, p, reqs, models, k)
  {
    WantedDistinct(reqs);
    ScaleAllReaches(w, p, reqs, Wanted(reqs));
  }
}
