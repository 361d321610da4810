/** GPU memory: what a backend has free plus what its models take never grows within a call;
  * and which backend a model is given. */
module PolicyBudget {
  import opened Options
  import opened PolicyModel
  import opened PolicyTables
  import opened PolicyGrowth
  import opened PolicyInvariants

  // ---- Sums of charges -------------------------------------------------------------------

  ghost function SumCharges(cat: Catalog, models: set<string>): (sum: real)
    ensures sum >= 0.0
  {
    if models == {} then 0.0
    else
      var m :| m in models;
      Charge(cat, m) + SumCharges(cat, models - {m})
  }

  lemma {:induction false} SumPick(cat: Catalog, models: set<string>, x: string)
    requires x in models
    ensures SumCharges(cat, models) == Charge(cat, x) + SumCharges(cat, models - {x})
    decreases models
  {
    var m :| m in models && SumCharges(cat, models) == Charge(cat, m) + SumCharges(cat, models - {m});
    if m != x {
      SumPick(cat, models - {m}, x);
      SumPick(cat, models - {x}, m);
      assert models - {m} - {x} == models - {x} - {m};
    }
  }

  lemma {:induction false} SumMono(cat: Catalog, a: set<string>, b: set<string>)
    requires a <= b
    ensures SumCharges(cat, a) <= SumCharges(cat, b)
    decreases b
  {
    if x :| x in b && x !in a {
      SumMono(cat, a, b - {x});
      SumPick(cat, b, x);
    } else {
      assert a == b;
    }
  }

  // ---- Budgets -----------------------------------------------------------------------------

  /** Free memory of a backend plus the charges of all models it runs. */
  ghost function Budget(cat: Catalog, p: Pool, i: nat): real
    requires i < |p.backends|
  {
    FreeMem(p.backends[i]) + SumCharges(cat, ModelsOn(p.table, p.backends[i].name))
  }

  predicate SameBackends(q: seq<Backend>, p: seq<Backend>) {
    && |q| == |p|
    && forall i :: 0 <= i < |p| ==> q[i].name == p[i].name && q[i].gpu.Some? == p[i].gpu.Some?
  }

  /** The same backends, none of them with a larger budget. */
  ghost predicate WithinBudget(cat: Catalog, q: Pool, p: Pool) {
    && SameBackends(q.backends, p.backends)
    && forall i :: 0 <= i < |p.backends| ==> Budget(cat, q, i) <= Budget(cat, p, i)
  }

  lemma WithinTransitive(cat: Catalog, r: Pool, q: Pool, p: Pool)
    requires WithinBudget(cat, r, q) && WithinBudget(cat, q, p)
    ensures WithinBudget(cat, r, p)
  {
    forall i | 0 <= i < |p.backends| ensures Budget(cat, r, i) <= Budget(cat, p, i) {
      assert Budget(cat, r, i) <= Budget(cat, q, i) <= Budget(cat, p, i);
    }
  }

  /** Dropping placements without touching free memory. */
  lemma FewerRunsWithin(cat: Catalog, q: Pool, p: Pool)
    requires q.backends == p.backends
    requires forall m, b :: Runs(q.table, m, b) ==> Runs(p.table, m, b)
    ensures WithinBudget(cat, q, p)
  {
    forall i | 0 <= i < |p.backends| ensures Budget(cat, q, i) <= Budget(cat, p, i) {
      var b := p.backends[i].name;
      assert ModelsOn(q.table, b) <= ModelsOn(p.table, b);
      SumMono(cat, ModelsOn(q.table, b), ModelsOn(p.table, b));
    }
  }

  predicate DistinctBackends(bs: seq<Backend>) {
    forall i, j :: 0 <= i < j < |bs| ==> bs[i].name != bs[j].name
  }

  lemma AdjustMem(bs: seq<Backend>, name: string, delta: real, i: nat)
    requires DistinctBackends(bs) && i < |bs|
    ensures Adjust(bs, name, delta)[i] ==
            if bs[i].name == name && bs[i].gpu.Some? then bs[i].(gpu := Some(bs[i].gpu.value + delta)) else bs[i]
  {
  }

  lemma UndeployOne(p: Pool, cat: Catalog, m: string, b: string, i: nat)
    requires Shape(p.table) && DistinctBackends(p.backends) && i < |p.backends|
    ensures Budget(cat, Undeploy(p, cat, m, b), i) <= Budget(cat, p, i)
    ensures p.backends[i].gpu.Some? ==>
              FreeMem(Undeploy(p, cat, m, b).backends[i]) ==
              FreeMem(p.backends[i]) + if p.backends[i].name == b && Runs(p.table, m, b) then Charge(cat, m) else 0.0
  {
    hide Shape, Remove;
    var q, x := Undeploy(p, cat, m, b), p.backends[i].name;
    RemoveShape(p.table, m, b);
    FoundIsRuns(p.table, m, b);
    AdjustMem(p.backends, b, Charge(cat, m), i);
    var before, after := ModelsOn(p.table, x), ModelsOn(q.table, x);
    if x == b && Runs(p.table, m, b) {
      SumPick(cat, before, m);
      assert after <= before - {m};
      SumMono(cat, after, before - {m});
    } else {
      assert after <= before;
      SumMono(cat, after, before);
    }
  }

  lemma UndeployBudget(p: Pool, cat: Catalog, m: string, b: string)
    requires Shape(p.table) && DistinctBackends(p.backends)
    ensures WithinBudget(cat, Undeploy(p, cat, m, b), p)
    ensures NoDebt(p.backends) ==> NoDebt(Undeploy(p, cat, m, b).backends)
    ensures forall i :: 0 <= i < |p.backends| && p.backends[i].gpu.Some? ==>
              FreeMem(Undeploy(p, cat, m, b).backends[i]) ==
              FreeMem(p.backends[i]) + if p.backends[i].name == b && Runs(p.table, m, b) then Charge(cat, m) else 0.0
  {
    hide Shape, Budget, Runs;
    var q := Undeploy(p, cat, m, b);
    forall i | 0 <= i < |p.backends|
      ensures Budget(cat, q, i) <= Budget(cat, p, i)
      ensures p.backends[i].gpu.Some? ==>
                FreeMem(q.backends[i]) ==
                FreeMem(p.backends[i]) + if p.backends[i].name == b && Runs(p.table, m, b) then Charge(cat, m) else 0.0
    {
      UndeployOne(p, cat, m, b, i);
    }
  }

  lemma DeployBudget(p: Pool, cat: Catalog, m: string, ss: seq<string>, b: Backend)
    requires Shape(p.table) && DistinctBackends(p.backends) && DistinctStrings(ss)
    requires b in p.backends && Qualifies(p.table, cat, m, b)
    ensures WithinBudget(cat, DeployOn(p, cat, m, ss, b.name), p)
    ensures NoDebt(p.backends) ==> NoDebt(DeployOn(p, cat, m, ss, b.name).backends)
    ensures forall i :: 0 <= i < |p.backends| && p.backends[i].gpu.Some? ==>
              FreeMem(DeployOn(p, cat, m, ss, b.name).backends[i]) ==
              FreeMem(p.backends[i]) - if p.backends[i] == b then Charge(cat, m) else 0.0
  {
    var q, bp := DeployOn(p, cat, m, ss, b.name), NewBackendPlan(cat, m, b.name);
    AddPlansShape(p.table, ss, m, bp);
    assert b.gpu.Some? ==> b.gpu.value > Charge(cat, m);
    hide Shape, Qualifies, Runs, ModelsOn, Charge, AddPlans;
    forall i | 0 <= i < |p.backends|
      ensures Budget(cat, q, i) <= Budget(cat, p, i)
      ensures NoDebt(p.backends) && q.backends[i].gpu.Some? ==> q.backends[i].gpu.value >= 0.0
      ensures p.backends[i].gpu.Some? ==>
                FreeMem(q.backends[i]) == FreeMem(p.backends[i]) - if p.backends[i] == b then Charge(cat, m) else 0.0
    {
      AdjustMem(p.backends, b.name, -Charge(cat, m), i);
      assert p.backends[i].name == b.name ==> p.backends[i] == b;
      OneModelMore(cat, p.table, q.table, m, b.name, p.backends[i].name);
    }
  }

  /** What the models of a backend cost together after one model was put on some backend. */
  lemma OneModelMore(cat: Catalog, t: Table, r: Table, m: string, b: string, x: string)
    requires forall n, c :: Runs(r, n, c) ==> Runs(t, n, c) || (n == m && c == b)
    ensures SumCharges(cat, ModelsOn(r, x)) <= SumCharges(cat, ModelsOn(t, x)) + if x == b then Charge(cat, m) else 0.0
  {
    hide Runs, Charge;
    var before, after := ModelsOn(t, x), ModelsOn(r, x);
    if x == b {
      assert after <= before + {m};
      SumMono(cat, after, before + {m});
      SumPick(cat, before + {m}, m);
      assert (before + {m}) - {m} <= before;
      SumMono(cat, (before + {m}) - {m}, before);
    } else {
      assert after <= before;
      SumMono(cat, after, before);
    }
  }

  // ---- Which backend is chosen -----------------------------------------------------------

  /** A backend that may still take the model: it qualifies and, without a GPU, runs fewer
    * than the allowed number of models. */
  predicate Usable(t: Table, cat: Catalog, m: string, b: Backend) {
    && Qualifies(t, cat, m, b)
    && (b.gpu.None? ==> |ModelsOn(t, b.name)| < MAX_MODELS_PER_BACKEND)
  }

  predicate Saturated(p: Pool, cat: Catalog, m: string) {
    forall i :: 0 <= i < |p.backends| ==> !Usable(p.table, cat, m, p.backends[i])
  }

  lemma {:induction false} PotentialIsFilter(t: Table, cat: Catalog, m: string, bs: seq<Backend>)
    ensures forall b :: b in Potential(t, cat, m, bs) <==> b in bs && Qualifies(t, cat, m, b)
  {
    if bs != [] {
      PotentialIsFilter(t, cat, m, bs[..|bs| - 1]);
      assert bs == bs[..|bs| - 1] + [bs[|bs| - 1]];
    }
  }

  lemma {:induction false} BestGpuIsLargest(bs: seq<Backend>)
    ensures BestGpu(bs).None? <==> forall b :: b in bs ==> FreeMem(b) <= 0.0
    ensures BestGpu(bs).Some? ==>
              var best := BestGpu(bs).value;
              best in bs && FreeMem(best) > 0.0 && forall b :: b in bs ==> FreeMem(b) <= FreeMem(best)
  {
    if bs != [] {
      BestGpuIsLargest(bs[..|bs| - 1]);
      assert bs == bs[..|bs| - 1] + [bs[|bs| - 1]];
    }
  }

  lemma {:induction false} BestCpuIsLeast(t: Table, bs: seq<Backend>)
    ensures BestCpu(t, bs).None? <==> forall b :: b in bs ==> |ModelsOn(t, b.name)| >= MAX_MODELS_PER_BACKEND
    ensures BestCpu(t, bs).Some? ==>
              var best := BestCpu(t, bs).value;
              && best in bs
              && |ModelsOn(t, best.name)| < MAX_MODELS_PER_BACKEND
              && forall b :: b in bs ==> |ModelsOn(t, best.name)| <= |ModelsOn(t, b.name)|
  {
    if bs != [] {
      BestCpuIsLeast(t, bs[..|bs| - 1]);
      assert bs == bs[..|bs| - 1] + [bs[|bs| - 1]];
    }
  }

  /** A backend is chosen exactly when some backend is usable; then it is a usable one with the
    * most free memory (GPU) or the fewest models (CPU). */
  lemma ChooseIsBest(p: Pool, cat: Catalog, m: string)
    ensures Choose(p, cat, m).None? <==> Saturated(p, cat, m)
    ensures Choose(p, cat, m).Some? ==>
              var best := Choose(p, cat, m).value;
              && best in p.backends
              && Usable(p.table, cat, m, best)
              && forall b :: b in p.backends && Usable(p.table, cat, m, b) ==>
                   if Need(cat, m) > 0.0 then FreeMem(b) <= FreeMem(best)
                   else |ModelsOn(p.table, best.name)| <= |ModelsOn(p.table, b.name)|
  {
    PotentialIsFilter(p.table, cat, m, p.backends);
    var c := Potential(p.table, cat, m, p.backends);
    if Need(cat, m) > 0.0 {
      BestGpuIsLargest(c);
      forall b | b in c ensures FreeMem(b) > 0.0 {
      }
    } else {
      BestCpuIsLeast(p.table, c);
    }
  }

  /** More free memory or, for a model that needs none, fewer models. */
  predicate Better(p: Pool, cat: Catalog, m: string, a: Backend, b: Backend) {
    if Need(cat, m) > 0.0 then FreeMem(a) > FreeMem(b) else |ModelsOn(p.table, a.name)| < |ModelsOn(p.table, b.name)|
  }

  /** Of equally good backends the one reported first is chosen, which fixes the choice. */
  lemma ChooseIsFirst(p: Pool, cat: Catalog, m: string, k: nat)
    requires k < |p.backends| && Usable(p.table, cat, m, p.backends[k])
    requires forall i :: 0 <= i < k && Usable(p.table, cat, m, p.backends[i]) ==> Better(p, cat, m, p.backends[k], p.backends[i])
    requires forall i :: k < i < |p.backends| && Usable(p.table, cat, m, p.backends[i]) ==> !Better(p, cat, m, p.backends[i], p.backends[k])
    ensures Choose(p, cat, m) == Some(p.backends[k])
  {
    if Need(cat, m) > 0.0 {
      FirstLargest(p.table, cat, m, p.backends, k);
    } else {
      FirstLeast(p.table, cat, m, p.backends, k);
    }
  }

  lemma {:induction false} FirstLargest(t: Table, cat: Catalog, m: string, bs: seq<Backend>, k: nat)
    requires Need(cat, m) > 0.0 && k < |bs| && Qualifies(t, cat, m, bs[k])
    requires forall i :: 0 <= i < k && Qualifies(t, cat, m, bs[i]) ==> FreeMem(bs[i]) < FreeMem(bs[k])
    requires forall i :: k < i < |bs| && Qualifies(t, cat, m, bs[i]) ==> FreeMem(bs[i]) <= FreeMem(bs[k])
    ensures BestGpu(Potential(t, cat, m, bs)) == Some(bs[k])
  {
    hide Runs, Need;
    var init := bs[..|bs| - 1];
    var rest := Potential(t, cat, m, init);
    assert forall b: Backend :: (rest + [b])[..|rest|] == rest;
    if k < |init| {
      FirstLargest(t, cat, m, init, k);
    } else {
      PotentialIsFilter(t, cat, m, init);
      BestGpuIsLargest(rest);
    }
  }

  lemma {:induction false} FirstLeast(t: Table, cat: Catalog, m: string, bs: seq<Backend>, k: nat)
    requires k < |bs| && Qualifies(t, cat, m, bs[k]) && |ModelsOn(t, bs[k].name)| < MAX_MODELS_PER_BACKEND
    requires forall i :: 0 <= i < k && Qualifies(t, cat, m, bs[i]) ==> |ModelsOn(t, bs[k].name)| < |ModelsOn(t, bs[i].name)|
                                                                       || |ModelsOn(t, bs[i].name)| >= MAX_MODELS_PER_BACKEND
    requires forall i :: k < i < |bs| && Qualifies(t, cat, m, bs[i]) ==> |ModelsOn(t, bs[k].name)| <= |ModelsOn(t, bs[i].name)|
                                                                         || |ModelsOn(t, bs[i].name)| >= MAX_MODELS_PER_BACKEND
    ensures BestCpu(t, Potential(t, cat, m, bs)) == Some(bs[k])
  {
    hide Runs, Need, ModelsOn;
    var init := bs[..|bs| - 1];
    var rest := Potential(t, cat, m, init);
    assert forall b: Backend :: (rest + [b])[..|rest|] == rest;
    if k < |init| {
      FirstLeast(t, cat, m, init, k);
    } else {
      PotentialIsFilter(t, cat, m, init);
      BestCpuIsLeast(t, rest);
    }
  }
}
