/** What a model needs and serves and what is asked of it, in terms of its components and of the requests. */
module PolicyCosts {
  import opened Options
  import opened PolicyModel
  import opened Sums

  // ---- Memory ------------------------------------------------------------------------------------------

  /** GPU memory of a component at its best profile. */
  function Memory(c: Component): real {
    var best := BestProfile(c.profile);
    if best.Some? then best.value.gpuMem else 0.0
  }

  function Memories(cs: seq<Component>): (r: seq<real>)
    ensures |r| == |cs|
  {
    seq(|cs|, i requires 0 <= i < |cs| => Memory(cs[i]))
  }

  /** A model needs what all of its components need together. */
  lemma {:induction false} NeedIsTotal(cs: seq<Component>)
    ensures NeedOf(cs) == Total(Memories(cs))
  {
    if cs != [] {
      NeedIsTotal(cs[..|cs| - 1]);
      assert Memories(cs)[..|cs| - 1] == Memories(cs[..|cs| - 1]);
    }
  }

  lemma NeedAdds(a: seq<Component>, b: seq<Component>)
    ensures NeedOf([]) == 0.0
    ensures NeedOf(a + b) == NeedOf(a) + NeedOf(b)
    ensures forall c :: NeedOf([c]) == Memory(c)
  {
    hide NeedOf, Total, Memory;
    NeedIsTotal(a);
    NeedIsTotal(b);
    NeedIsTotal(a + b);
    assert Memories(a + b) == Memories(a) + Memories(b);
    TotalConcat(Memories(a), Memories(b));
    NeedOfNone();
    forall c ensures NeedOf([c]) == Memory(c) {
      NeedOfOne(c);
    }
  }

  lemma NeedOfNone()
    ensures NeedOf([]) == 0.0
  {
  }

  lemma NeedOfOne(c: Component)
    ensures NeedOf([c]) == Memory(c)
  {
    NeedIsTotal([c]);
    assert Memories([c]) == [Memory(c)];
    TotalOne(Memory(c));
  }

  /** So no component needs more than its model, and the memory taken for it covers them all. */
  lemma EveryComponentFits(cat: Catalog, m: string)
    requires m in cat && forall i :: 0 <= i < |cat[m].components| ==> Memory(cat[m].components[i]) >= 0.0
    ensures Charge(cat, m) == Total(Memories(cat[m].components))
    ensures forall i :: 0 <= i < |cat[m].components| ==> Memory(cat[m].components[i]) <= Charge(cat, m)
  {
    var cs := cat[m].components;
    NeedIsTotal(cs);
    PartOfTotal(Memories(cs));
    forall i | 0 <= i < |cs| ensures Memory(cs[i]) <= Charge(cat, m) {
      assert Memories(cs)[i] == Memory(cs[i]);
    }
  }

  // ---- Rate ---------------------------------------------------------------------------------------------

  /** Rate of a component at its best profile, if it has one. */
  predicate RateIs(c: Component, fps: real) {
    BestProfile(c.profile).Some? && BestProfile(c.profile).value.fps == fps
  }

  /** The rate is that of the slowest component: no component is slower and, unless it is the cap, one of
    * them has it. */
  predicate SlowestRate(cs: seq<Component>, fps: real) {
    && 0.0 < fps <= FPS_CAP
    && (forall i :: 0 <= i < |cs| && BestProfile(cs[i].profile).Some? ==> fps <= BestProfile(cs[i].profile).value.fps)
    && (fps == FPS_CAP || exists i :: 0 <= i < |cs| && RateIs(cs[i], fps))
  }

  lemma {:induction false} FpsIsSlowest(cs: seq<Component>)
    ensures SlowestRate(cs, FpsOf(cs))
  {
    if cs != [] {
      var init, last := cs[..|cs| - 1], |cs| - 1;
      FpsIsSlowest(init);
      assert forall i :: 0 <= i < last ==> init[i] == cs[i];
      var fps := FpsOf(init);
      if fps != FPS_CAP {
        var i :| 0 <= i < |init| && RateIs(init[i], fps);
        assert RateIs(cs[i], fps);
      }
      assert FpsOf(cs) != fps ==> RateIs(cs[last], FpsOf(cs));
    }
  }

  /** There is only one such rate. */
  lemma SlowestIsUnique(cs: seq<Component>, a: real, b: real)
    requires SlowestRate(cs, a) && SlowestRate(cs, b)
    ensures a == b
  {
  }

  // ---- Demand -------------------------------------------------------------------------------------------

  /** What each request asks of a model: its rate if its pipeline has the model. */
  function Asked(reqs: seq<Request>, m: string): (r: seq<real>)
    ensures |r| == |reqs|
  {
    seq(|reqs|, i requires 0 <= i < |reqs| => if HasModel(reqs[i].pipeline.models, m) then reqs[i].fps else 0.0)
  }

  /** The demand for a model is what all requests ask of it together. */
  lemma {:induction false} DemandIsTotal(reqs: seq<Request>, m: string)
    ensures Demand(reqs, m) == Total(Asked(reqs, m))
  {
    if reqs != [] {
      DemandIsTotal(reqs[..|reqs| - 1], m);
      assert Asked(reqs, m)[..|reqs| - 1] == Asked(reqs[..|reqs| - 1], m);
    }
  }

  lemma DemandAdds(a: seq<Request>, b: seq<Request>, m: string)
    ensures Demand([], m) == 0.0
    ensures Demand(a + b, m) == Demand(a, m) + Demand(b, m)
    ensures forall q :: Demand([q], m) == if HasModel(q.pipeline.models, m) then q.fps else 0.0
  {
    hide Demand, Total, HasModel;
    DemandIsTotal(a, m);
    DemandIsTotal(b, m);
    DemandIsTotal(a + b, m);
    assert Asked(a + b, m) == Asked(a, m) + Asked(b, m);
    TotalConcat(Asked(a, m), Asked(b, m));
    DemandOfNone(m);
    forall q ensures Demand([q], m) == if HasModel(q.pipeline.models, m) then q.fps else 0.0 {
      DemandOfOne(q, m);
    }
  }

  lemma DemandOfNone(m: string)
    ensures Demand([], m) == 0.0
  {
  }

  lemma DemandOfOne(q: Request, m: string)
    ensures Demand([q], m) == if HasModel(q.pipeline.models, m) then q.fps else 0.0
  {
    var x := if HasModel(q.pipeline.models, m) then q.fps else 0.0;
    DemandIsTotal([q], m);
    assert Asked([q], m) == [x];
    TotalOne(x);
  }

  // ---- Two components -------------------------------------------------------------------------------------

  function Profile(fps: real, mem: real): seq<ProfileUnit> {
    [ProfileUnit(1, fps, mem)]
  }

  lemma OneProfile(fps: real, mem: real)
    requires fps > 0.0
    ensures BestProfile(Profile(fps, mem)) == Some(ProfileUnit(1, fps, mem))
  {
    assert Profile(fps, mem)[..0] == [];
  }

  const DETECTOR := Component("d", Profile(10.0, 6.0))
  const CLASSIFIER := Component("c", Profile(100.0, 3.0))

  /** A detector that does 10 frames a second and a classifier that does 100. */
  const TWO := map["m" := CModel("m", [DETECTOR, CLASSIFIER])]

  lemma TwoNeed()
    ensures Need(TWO, "m") == 9.0 && Charge(TWO, "m") == 9.0
  {
    OneProfile(10.0, 6.0);
    OneProfile(100.0, 3.0);
    NeedAdds([DETECTOR], [CLASSIFIER]);
    assert [DETECTOR] + [CLASSIFIER] == TWO["m"].components;
  }

  lemma TwoRate()
    ensures Fps(TWO, "m") == 10.0
  {
    OneProfile(10.0, 6.0);
    OneProfile(100.0, 3.0);
    FpsIsSlowest(TWO["m"].components);
    assert TWO["m"].components == [DETECTOR, CLASSIFIER];
    assert SlowestRate([DETECTOR, CLASSIFIER], 10.0) by {
      assert RateIs([DETECTOR, CLASSIFIER][0], 10.0);
    }
    SlowestIsUnique([DETECTOR, CLASSIFIER], Fps(TWO, "m"), 10.0);
  }

  /** A backend with room for one of the components but not for both is not used, one with exactly what they
    * need is not either, and one with more is charged for both. */
  lemma TwoNeedBoth(sessions: seq<string>)
    ensures Choose(Pool([], [Backend("g", Some(5.0))]), TWO, "m") == None
    ensures Choose(Pool([], [Backend("g", Some(9.0))]), TWO, "m") == None
    ensures Deploy(Pool([], [Backend("g", Some(10.0))]), TWO, "m", sessions).1 == Some("g")
    ensures Deploy(Pool([], [Backend("g", Some(10.0))]), TWO, "m", sessions).0.backends == [Backend("g", Some(1.0))]
  {
    TwoNeed();
    OnlyBackend(5.0);
    OnlyBackend(9.0);
    OnlyBackend(10.0);
    assert [Backend("g", Some(10.0))][..0] == [];
  }

  lemma OnlyBackend(free: real)
    ensures var b := Backend("g", Some(free)); Choose(Pool([], [b]), TWO, "m") == if free > 9.0 then Some(b) else None
  {
    TwoNeed();
    var b := Backend("g", Some(free));
    assert [b][..0] == [];
    assert Potential([], TWO, "m", []) == [] && BestGpu([]) == None;
    assert Potential([], TWO, "m", [b]) == if free > 9.0 then [b] else [];
  }

  /** For 50 frames a second the model needs five backends, as many as its slower component does. */
  lemma TwoNeedFive()
    ensures var p := Pipeline("p", [TWO["m"]]);
            Target(TWO, [Request(p, "p_a", 20.0), Request(p, "p_b", 30.0)], "m") == 5
  {
    var p := Pipeline("p", [TWO["m"]]);
    var a, b := Request(p, "p_a", 20.0), Request(p, "p_b", 30.0);
    assert p.models[0].uuid == "m";
    DemandAdds([a], [b], "m");
    assert [a] + [b] == [a, b];
    TwoRate();
  }
}
