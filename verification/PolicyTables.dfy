/** The shape every table of plans keeps, and what removing and adding placements does to it. */
module PolicyTables {
  import opened Options
  import opened PolicyModel

  // ---- The shape of a table -----------------------------------------------------------

  predicate DistinctNames(plans: seq<BackendPlan>) {
    forall k, l :: 0 <= k < l < |plans| ==> plans[k].backend != plans[l].backend
  }

  /** A session's plans: at least one, one per model, each with a backend, each carrying the
    * session it is stored under. */
  predicate EntryShape(e: SessionPlans) {
    && e.models != []
    && DistinctModels(e.models)
    && (forall j :: 0 <= j < |e.models| ==>
          && e.models[j].session == e.session
          && e.models[j].backends != []
          && DistinctNames(e.models[j].backends))
  }

  predicate DistinctSessions(t: Table) {
    forall i, j :: 0 <= i < j < |t| ==> t[i].session != t[j].session
  }

  predicate Shape(t: Table) {
    && DistinctSessions(t)
    && forall i :: 0 <= i < |t| ==> EntryShape(t[i])
  }

  /** Every session that uses a model uses it on all of the model's backends. */
  predicate SameHosts(t: Table) {
    forall i, k :: 0 <= i < |t| && 0 <= k < |t[i].models| ==>
      Names(t[i].models[k].backends) == Hosts(t, t[i].models[k].model)
  }

  /** It is enough that the backends of a plan depend on the model alone. */
  lemma SameHostsFrom(t: Table, f: string -> set<string>)
    requires forall i, k :: 0 <= i < |t| && 0 <= k < |t[i].models| ==> Names(t[i].models[k].backends) == f(t[i].models[k].model)
    ensures SameHosts(t)
  {
    forall i, k | 0 <= i < |t| && 0 <= k < |t[i].models|
      ensures Names(t[i].models[k].backends) == Hosts(t, t[i].models[k].model)
    {
      var m := t[i].models[k].model;
      forall b ensures b in Hosts(t, m) <==> b in f(m) {
        if b in f(m) {
          assert EntryRuns(t[i], m, b);
        }
      }
    }
  }

  lemma OnlyPlan(e: SessionPlans, j: nat)
    requires EntryShape(e) && j < |e.models|
    ensures FirstPlan(e.models, e.models[j].model) == j
  {
  }

  /** In a well-shaped table a removal meets the backend exactly when the model runs there. */
  lemma FoundIsRuns(t: Table, m: string, b: string)
    requires Shape(t)
    ensures Found(t, m, b) <==> Runs(t, m, b)
  {
    forall i | 0 <= i < |t|
      ensures FoundIn(t[i], m, b) <==> EntryRuns(t[i], m, b)
    {
      if EntryRuns(t[i], m, b) {
        var j :| 0 <= j < |t[i].models| && t[i].models[j].model == m && b in Names(t[i].models[j].backends);
        OnlyPlan(t[i], j);
      }
    }
  }

  // ---- Stripping backends ---------------------------------------------------------------

  lemma {:induction false} StripNames(plans: seq<BackendPlan>, gone: set<string>)
    ensures Names(Strip(plans, gone)) == Names(plans) - gone
    ensures |Strip(plans, gone)| <= |plans|
  {
    if plans != [] {
      var init, p := plans[..|plans| - 1], plans[|plans| - 1];
      StripNames(init, gone);
      assert plans == init + [p];
      NamesSnoc(init, p);
      NamesSnoc(Strip(init, gone), p);
    }
  }

  lemma StripEmpty(plans: seq<BackendPlan>, gone: set<string>)
    ensures Strip(plans, gone) == [] <==> Names(plans) <= gone
  {
    StripNames(plans, gone);
    NamesNonEmpty(Strip(plans, gone));
  }

  lemma {:induction false} StripDistinct(plans: seq<BackendPlan>, gone: set<string>)
    requires DistinctNames(plans)
    ensures DistinctNames(Strip(plans, gone))
  {
    if plans != [] {
      var init, p := plans[..|plans| - 1], plans[|plans| - 1];
      StripDistinct(init, gone);
      StripNames(init, gone);
      var r := Strip(init, gone);
      forall k | 0 <= k < |r| ensures r[k].backend != p.backend {
        assert r[k].backend in Names(r);
      }
    }
  }

  lemma {:induction false} StripNone(plans: seq<BackendPlan>, gone: set<string>)
    requires Names(plans) !! gone
    ensures Strip(plans, gone) == plans
  {
    if plans != [] {
      var init, p := plans[..|plans| - 1], plans[|plans| - 1];
      assert plans == init + [p];
      NamesSnoc(init, p);
      StripNone(init, gone);
    }
  }

  lemma NamesSnoc(plans: seq<BackendPlan>, p: BackendPlan)
    ensures Names(plans + [p]) == Names(plans) + {p.backend}
  {
    var all := plans + [p];
    forall b ensures b in Names(all) <==> b in Names(plans) + {p.backend} {
      if b in Names(plans) {
        var k :| 0 <= k < |plans| && plans[k].backend == b;
        assert all[k].backend == b;
      }
      if b == p.backend {
        assert all[|plans|].backend == b;
      }
    }
  }

  lemma NamesNonEmpty(plans: seq<BackendPlan>)
    ensures Names(plans) == {} <==> plans == []
  {
    if plans != [] {
      assert plans[0].backend in Names(plans);
    }
  }

  // ---- Expiry ------------------------------------------------------------------------------

  /** Entry `e'` is entry `e` with the backends in `gone` removed everywhere. */
  predicate StrippedEntry(e': SessionPlans, e: SessionPlans, gone: set<string>) {
    && e'.session == e.session
    && forall j :: 0 <= j < |e'.models| ==> StrippedFrom(e'.models[j], e.models, gone)
  }

  predicate StrippedOf(e: SessionPlans, t: Table, gone: set<string>) {
    exists k :: 0 <= k < |t| && StrippedEntry(e, t[k], gone)
  }

  predicate StrippedFrom(p: CModelPlan, plans: seq<CModelPlan>, gone: set<string>) {
    exists k :: 0 <= k < |plans| && p == Cut(plans[k], gone)
  }

  predicate DistinctModels(plans: seq<CModelPlan>) {
    forall j, k :: 0 <= j < k < |plans| ==> plans[j].model != plans[k].model
  }

  lemma {:induction false} ExpirePlansShape(plans: seq<CModelPlan>, gone: set<string>)
    ensures forall p :: p in ExpirePlans(plans, gone) ==> p.backends != [] && StrippedFrom(p, plans, gone)
    ensures forall k :: 0 <= k < |plans| && Cut(plans[k], gone).backends != [] ==> Cut(plans[k], gone) in ExpirePlans(plans, gone)
  {
    if plans != [] {
      var init := plans[..|plans| - 1];
      ExpirePlansShape(init, gone);
      forall p | p in ExpirePlans(plans, gone) ensures StrippedFrom(p, plans, gone) {
        if p in ExpirePlans(init, gone) {
          assert StrippedFrom(p, init, gone);
          var k :| 0 <= k < |init| && p == Cut(init[k], gone);
          assert plans[k] == init[k];
        } else {
          assert p == Cut(plans[|plans| - 1], gone);
        }
      }
      forall k | 0 <= k < |plans| && Cut(plans[k], gone).backends != []
        ensures Cut(plans[k], gone) in ExpirePlans(plans, gone)
      {
        if k < |init| {
          assert init[k] == plans[k];
        }
      }
    }
  }

  lemma {:induction false} ExpirePlansDistinct(plans: seq<CModelPlan>, gone: set<string>)
    requires DistinctModels(plans)
    ensures DistinctModels(ExpirePlans(plans, gone))
  {
    if plans != [] {
      var init, p := plans[..|plans| - 1], plans[|plans| - 1];
      ExpirePlansDistinct(init, gone);
      ExpirePlansShape(init, gone);
      var r := ExpirePlans(init, gone);
      forall j | 0 <= j < |r| ensures r[j].model != p.model {
        assert StrippedFrom(r[j], init, gone);
        var k :| 0 <= k < |init| && r[j] == Cut(init[k], gone);
        assert init[k] == plans[k];
      }
    }
  }

  lemma EntryExpireShape(e: SessionPlans, gone: set<string>)
    requires EntryShape(e)
    ensures var e' := e.(models := ExpirePlans(e.models, gone));
            StrippedEntry(e', e, gone) && (e'.models != [] ==> EntryShape(e'))
  {
    var e' := e.(models := ExpirePlans(e.models, gone));
    ExpirePlansShape(e.models, gone);
    ExpirePlansDistinct(e.models, gone);
    forall j | 0 <= j < |e'.models|
      ensures e'.models[j].session == e'.session && DistinctNames(e'.models[j].backends)
    {
      assert StrippedFrom(e'.models[j], e.models, gone);
      var k :| 0 <= k < |e.models| && e'.models[j] == Cut(e.models[k], gone);
      StripDistinct(e.models[k].backends, gone);
    }
  }

  /** Expiry: a well-shaped table stays so, and exactly the placements on departed backends go. */
  lemma {:induction false} ExpireShape(t: Table, gone: set<string>)
    requires Shape(t)
    ensures Shape(Expire(t, gone))
    ensures forall i :: 0 <= i < |Expire(t, gone)| ==> StrippedOf(Expire(t, gone)[i], t, gone)
    ensures forall m, b :: Runs(Expire(t, gone), m, b) <==> Runs(t, m, b) && b !in gone
  {
    if t != [] {
      var init, e := t[..|t| - 1], t[|t| - 1];
      assert t == init + [e];
      assert Shape(init);
      ExpireShape(init, gone);
      var r0, r := Expire(init, gone), Expire(t, gone);
      var e' := e.(models := ExpirePlans(e.models, gone));
      EntryExpireShape(e, gone);
      forall i | 0 <= i < |r|
        ensures StrippedOf(r[i], t, gone)
        ensures i < |r0| ==> r[i].session != e.session
      {
        if i < |r0| {
          assert StrippedOf(r0[i], init, gone);
          var k :| 0 <= k < |init| && StrippedEntry(r0[i], init[k], gone);
          assert t[k] == init[k];
        } else {
          assert StrippedEntry(r[i], t[|t| - 1], gone);
        }
      }
      forall m, b ensures Runs(r, m, b) <==> Runs(t, m, b) && b !in gone {
        RunsSnoc(init, e, m, b);
        EntryExpireRuns(e, gone, m, b);
        if e'.models != [] {
          RunsSnoc(r0, e', m, b);
        } else {
          assert !EntryRuns(e', m, b);
        }
      }
    }
  }

  lemma EntryExpireRuns(e: SessionPlans, gone: set<string>, m: string, b: string)
    requires EntryShape(e)
    ensures EntryRuns(e.(models := ExpirePlans(e.models, gone)), m, b) <==> EntryRuns(e, m, b) && b !in gone
  {
    ExpirePlansShape(e.models, gone);
    var r := ExpirePlans(e.models, gone);
    if EntryRuns(e, m, b) && b !in gone {
      var k :| 0 <= k < |e.models| && e.models[k].model == m && b in Names(e.models[k].backends);
      StripNames(e.models[k].backends, gone);
      assert b in Names(Cut(e.models[k], gone).backends);
      NamesNonEmpty(Cut(e.models[k], gone).backends);
      assert Cut(e.models[k], gone) in r;
    }
    if j :| 0 <= j < |r| && r[j].model == m && b in Names(r[j].backends) {
      assert StrippedFrom(r[j], e.models, gone);
      var k :| 0 <= k < |e.models| && r[j] == Cut(e.models[k], gone);
      StripNames(e.models[k].backends, gone);
    }
  }

  lemma RunsSnoc(t: Table, e: SessionPlans, m: string, b: string)
    ensures Runs(t + [e], m, b) <==> Runs(t, m, b) || EntryRuns(e, m, b)
  {
    var all := t + [e];
    if i :| 0 <= i < |t| && EntryRuns(t[i], m, b) {
      assert all[i] == t[i];
    }
    if EntryRuns(e, m, b) {
      assert all[|t|] == e;
    }
  }

  lemma ExpireSameHosts(t: Table, gone: set<string>)
    requires Shape(t) && SameHosts(t)
    ensures SameHosts(Expire(t, gone))
  {
    ExpireShape(t, gone);
    var r := Expire(t, gone);
    forall i, k | 0 <= i < |r| && 0 <= k < |r[i].models|
      ensures Names(r[i].models[k].backends) == Hosts(t, r[i].models[k].model) - gone
    {
      assert StrippedOf(r[i], t, gone);
      var i' :| 0 <= i' < |t| && StrippedEntry(r[i], t[i'], gone);
      assert StrippedFrom(r[i].models[k], t[i'].models, gone);
      var k' :| 0 <= k' < |t[i'].models| && r[i].models[k] == Cut(t[i'].models[k'], gone);
      StripNames(t[i'].models[k'].backends, gone);
      assert Names(t[i'].models[k'].backends) == Hosts(t, t[i'].models[k'].model);
    }
    SameHostsFrom(r, m => Hosts(t, m) - gone);
  }

  // ---- Removing one placement -----------------------------------------------------------

  /** An entry that survives a removal is the old one, with the backend gone from the model's plan. */
  lemma EntryWithoutShape(e: SessionPlans, m: string, b: string)
    requires EntryShape(e)
    ensures var r := EntryWithout(e, m, b); r.Some? ==> EntryShape(r.value) && Trimmed(r.value, e, m, b)
    ensures EntryWithout(e, m, b).None? <==>
              exists j :: 0 <= j < |e.models| && e.models[j].model == m && Names(e.models[j].backends) == {b}
    ensures !EntryRuns(e, m, b) ==> EntryWithout(e, m, b) == Some(e)
  {
    var j := FirstPlan(e.models, m);
    if j < |e.models| {
      StripNames(e.models[j].backends, {b});
      StripEmpty(e.models[j].backends, {b});
      StripDistinct(e.models[j].backends, {b});
      NamesNonEmpty(e.models[j].backends);
      forall k | 0 <= k < |e.models| && e.models[k].model == m ensures k == j {
        OnlyPlan(e, k);
      }
      if !EntryRuns(e, m, b) {
        StripNone(e.models[j].backends, {b});
        assert e.models[j := Cut(e.models[j], {b})] == e.models;
      }
    }
  }

  /** `r` is `e` with backend `b` gone from the plan of model `m` and nothing else changed. */
  predicate Trimmed(r: SessionPlans, e: SessionPlans, m: string, b: string) {
    && r.session == e.session
    && |r.models| == |e.models|
    && forall j :: 0 <= j < |e.models| ==>
         && r.models[j].model == e.models[j].model
         && Names(r.models[j].backends) == Names(e.models[j].backends) - (if e.models[j].model == m then {b} else {})
  }

  lemma TrimmedRuns(r: SessionPlans, e: SessionPlans, m: string, b: string, x: string, y: string)
    requires Trimmed(r, e, m, b)
    ensures EntryRuns(r, x, y) <==> EntryRuns(e, x, y) && !(x == m && y == b)
  {
    if EntryRuns(e, x, y) && !(x == m && y == b) {
      var j :| 0 <= j < |e.models| && e.models[j].model == x && y in Names(e.models[j].backends);
      assert y in Names(r.models[j].backends);
    }
    if j :| 0 <= j < |r.models| && r.models[j].model == x && y in Names(r.models[j].backends) {
      assert y in Names(e.models[j].backends);
    }
  }

  /** Entry `i` of the table after a removal, as the entry it came from. */
  predicate Survivor(e': SessionPlans, t: Table, m: string, b: string) {
    exists k :: 0 <= k < |t| && EntryWithout(t[k], m, b) == Some(e')
  }

  lemma {:induction false} RemoveSurvivors(t: Table, m: string, b: string)
    ensures forall i :: 0 <= i < |Remove(t, m, b)| ==> Survivor(Remove(t, m, b)[i], t, m, b)
  {
    if t != [] {
      var init := t[..|t| - 1];
      RemoveSurvivors(init, m, b);
      var r0, r := Remove(init, m, b), Remove(t, m, b);
      forall i | 0 <= i < |r| ensures Survivor(r[i], t, m, b) {
        if i < |r0| {
          assert Survivor(r0[i], init, m, b);
          var k :| 0 <= k < |init| && EntryWithout(init[k], m, b) == Some(r0[i]);
          assert t[k] == init[k];
        } else {
          assert EntryWithout(t[|t| - 1], m, b) == Some(r[i]);
        }
      }
    }
  }

  lemma {:induction false} RemoveDistinct(t: Table, m: string, b: string)
    requires DistinctSessions(t)
    ensures DistinctSessions(Remove(t, m, b))
  {
    if t != [] {
      var init, e := t[..|t| - 1], t[|t| - 1];
      RemoveDistinct(init, m, b);
      RemoveSurvivors(init, m, b);
      var r0 := Remove(init, m, b);
      forall i | 0 <= i < |r0| ensures r0[i].session != e.session {
        assert Survivor(r0[i], init, m, b);
        var k :| 0 <= k < |init| && EntryWithout(init[k], m, b) == Some(r0[i]);
        assert t[k] == init[k];
      }
    }
  }

  /** What is left after a removal is well shaped, and runs less. */
  lemma RemoveShape(t: Table, m: string, b: string)
    requires Shape(t)
    ensures Shape(Remove(t, m, b))
    ensures forall i :: 0 <= i < |Remove(t, m, b)| ==> Survivor(Remove(t, m, b)[i], t, m, b)
    ensures forall x, y :: Runs(Remove(t, m, b), x, y) ==> Runs(t, x, y) && !(x == m && y == b)
  {
    hide EntryWithout, EntryShape, EntryRuns;
    RemoveSurvivors(t, m, b);
    RemoveDistinct(t, m, b);
    var r := Remove(t, m, b);
    forall i | 0 <= i < |r|
      ensures EntryShape(r[i])
      ensures forall x, y :: EntryRuns(r[i], x, y) ==> Runs(t, x, y) && !(x == m && y == b)
    {
      assert Survivor(r[i], t, m, b);
      var k :| 0 <= k < |t| && EntryWithout(t[k], m, b) == Some(r[i]);
      EntryWithoutShape(t[k], m, b);
      forall x, y | EntryRuns(r[i], x, y) ensures EntryRuns(t[k], x, y) && !(x == m && y == b) {
        TrimmedRuns(r[i], t[k], m, b, x, y);
      }
    }
  }

  lemma RemoveSameHosts(t: Table, m: string, b: string)
    requires Shape(t) && SameHosts(t)
    ensures SameHosts(Remove(t, m, b))
  {
    RemoveShape(t, m, b);
    var r := Remove(t, m, b);
    forall i, k | 0 <= i < |r| && 0 <= k < |r[i].models|
      ensures Names(r[i].models[k].backends) ==
              Hosts(t, r[i].models[k].model) - (if r[i].models[k].model == m then {b} else {})
    {
      assert Survivor(r[i], t, m, b);
      var i' :| 0 <= i' < |t| && EntryWithout(t[i'], m, b) == Some(r[i]);
      EntryWithoutShape(t[i'], m, b);
      assert Names(t[i'].models[k].backends) == Hosts(t, t[i'].models[k].model);
    }
    SameHostsFrom(r, x => Hosts(t, x) - (if x == m then {b} else {}));
  }

  /** No session would lose its last backend for the model. */
  predicate Spare(t: Table, m: string, b: string) {
    forall i :: 0 <= i < |t| ==> EntryWithout(t[i], m, b).Some?
  }

  /** Where every user of the model also has it elsewhere, exactly one placement goes and no
    * entry is lost. */
  lemma {:induction false} RemoveSpare(t: Table, m: string, b: string)
    requires Shape(t) && Spare(t, m, b)
    ensures |Remove(t, m, b)| == |t|
    ensures forall i :: 0 <= i < |t| ==> EntryWithout(t[i], m, b) == Some(Remove(t, m, b)[i])
  {
    if t != [] {
      var init := t[..|t| - 1];
      RemoveSpare(init, m, b);
      forall i | 0 <= i < |t| ensures EntryWithout(t[i], m, b) == Some(Remove(t, m, b)[i]) {
        if i < |init| {
          assert init[i] == t[i];
        }
      }
    }
  }

  lemma RemoveSpareRuns(t: Table, m: string, b: string, x: string, y: string)
    requires Shape(t) && Spare(t, m, b)
    ensures Runs(Remove(t, m, b), x, y) <==> Runs(t, x, y) && !(x == m && y == b)
  {
    RemoveSpare(t, m, b);
    var r := Remove(t, m, b);
    forall i | 0 <= i < |t| ensures EntryRuns(r[i], x, y) <==> EntryRuns(t[i], x, y) && !(x == m && y == b) {
      assert EntryWithout(t[i], m, b) == Some(r[i]);
      EntryWithoutShape(t[i], m, b);
      TrimmedRuns(r[i], t[i], m, b, x, y);
    }
  }

  // ---- Dropping sessions ---------------------------------------------------------------

  lemma {:induction false} DropSessionEntries(t: Table, s: string)
    ensures forall e :: e in DropSession(t, s) <==> e in t && e.session != s
    ensures |DropSession(t, s)| <= |t|
    ensures !HasSession(t, s) ==> DropSession(t, s) == t
  {
    if t != [] {
      var init, e := t[..|t| - 1], t[|t| - 1];
      assert t == init + [e];
      DropSessionEntries(init, s);
      assert forall i :: 0 <= i < |init| ==> init[i] == t[i];
    }
  }

  lemma {:induction false} DropSessionDistinct(t: Table, s: string)
    requires DistinctSessions(t)
    ensures DistinctSessions(DropSession(t, s))
  {
    if t != [] {
      var init, e := t[..|t| - 1], t[|t| - 1];
      DropSessionDistinct(init, s);
      DropSessionEntries(init, s);
      var r0 := DropSession(init, s);
      forall i | 0 <= i < |r0| ensures r0[i].session != e.session {
        assert r0[i] in init;
      }
    }
  }

  lemma DropSessionShape(t: Table, s: string)
    ensures Shape(t) ==> Shape(DropSession(t, s))
    ensures SameHosts(t) ==> SameHosts(DropSession(t, s))
    ensures forall m, b :: Runs(DropSession(t, s), m, b) ==> Runs(t, m, b)
  {
    DropSessionEntries(t, s);
    if DistinctSessions(t) {
      DropSessionDistinct(t, s);
    }
    var r := DropSession(t, s);
    forall i | 0 <= i < |r| ensures r[i] in t {
      assert r[i] in r;
    }
    SubTableSameHosts(r, t);
  }

  lemma SubTableSameHosts(r: Table, t: Table)
    requires forall i :: 0 <= i < |r| ==> r[i] in t
    ensures SameHosts(t) ==> SameHosts(r)
    ensures forall m, b :: Runs(r, m, b) ==> Runs(t, m, b)
  {
    if SameHosts(t) {
      forall i, k | 0 <= i < |r| && 0 <= k < |r[i].models|
        ensures Names(r[i].models[k].backends) == Hosts(t, r[i].models[k].model)
      {
        var i' :| 0 <= i' < |t| && t[i'] == r[i];
        assert Names(t[i'].models[k].backends) == Hosts(t, t[i'].models[k].model);
      }
      SameHostsFrom(r, m => Hosts(t, m));
    }
    forall m, b | Runs(r, m, b) ensures Runs(t, m, b) {
      var i :| 0 <= i < |r| && EntryRuns(r[i], m, b);
      var i' :| 0 <= i' < |t| && t[i'] == r[i];
    }
  }

  /** Where no other session uses the backend, a removal touches that one session only. */
  lemma {:induction false} RemoveLone(t: Table, s: string, m: string, b: string)
    requires Shape(t) && !OthersOn(t, s, b)
    ensures DropSession(Remove(t, m, b), s) == DropSession(t, s)
    ensures forall i :: 0 <= i < |Remove(t, m, b)| && Remove(t, m, b)[i].session != s ==> Remove(t, m, b)[i] in t
  {
    if t != [] {
      var init, e := t[..|t| - 1], t[|t| - 1];
      assert t == init + [e];
      OthersOnSnoc(init, e, s, b);
      RemoveLone(init, s, m, b);
      EntryWithoutShape(e, m, b);
    }
  }

  lemma OthersOnSnoc(t: Table, e: SessionPlans, s: string, b: string)
    ensures OthersOn(t, s, b) ==> OthersOn(t + [e], s, b)
    ensures e.session != s && !OthersOn(t + [e], s, b) ==> forall m :: !EntryRuns(e, m, b)
  {
    var all := t + [e];
    if i, j :| 0 <= i < |t| && t[i].session != s && 0 <= j < |t[i].models| && b in Names(t[i].models[j].backends) {
      assert all[i] == t[i];
    }
    assert all[|t|] == e;
  }
}
