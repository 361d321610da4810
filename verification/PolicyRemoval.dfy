/** What removing a session does to it and to the memory of the backends, pair by pair. */
module PolicyRemoval {
  import opened Options
  import opened PolicyModel
  import opened PolicyTables
  import opened PolicyInvariants
  import opened PolicyBudget
  import opened PolicyPruning
  import opened PolicyDeployment

  // ---- Placements of one session -------------------------------------------------------------------------

  predicate SessionRuns(t: Table, s: string, m: string, b: string) {
    exists i :: 0 <= i < |t| && t[i].session == s && EntryRuns(t[i], m, b)
  }

  lemma SessionRunsSnoc(t: Table, e: SessionPlans, s: string, m: string, b: string)
    ensures SessionRuns(t + [e], s, m, b) <==> SessionRuns(t, s, m, b) || (e.session == s && EntryRuns(e, m, b))
  {
    hide EntryRuns;
    var all := t + [e];
    if i :| 0 <= i < |t| && t[i].session == s && EntryRuns(t[i], m, b) {
      assert all[i] == t[i];
    }
    assert all[|t|] == e;
  }

  lemma ExpiredRuns(plans: seq<CModelPlan>, gone: set<string>, j: nat, b: string)
    requires j < |ExpirePlans(plans, gone)| && b in Names(ExpirePlans(plans, gone)[j].backends)
    ensures b !in gone
    ensures exists k :: 0 <= k < |plans| && plans[k].model == ExpirePlans(plans, gone)[j].model && b in Names(plans[k].backends)
  {
    var p := ExpirePlans(plans, gone)[j];
    ExpirePlansShape(plans, gone);
    assert StrippedFrom(p, plans, gone);
    hide ExpirePlans, Strip;
    var k :| 0 <= k < |plans| && p == Cut(plans[k], gone);
    StripNames(plans[k].backends, gone);
  }

  lemma StillRuns(plans: seq<CModelPlan>, gone: set<string>, k: nat, b: string)
    requires k < |plans| && b in Names(plans[k].backends) && b !in gone
    ensures exists j :: 0 <= j < |ExpirePlans(plans, gone)| && ExpirePlans(plans, gone)[j].model == plans[k].model
                        && b in Names(ExpirePlans(plans, gone)[j].backends)
  {
    ExpirePlansShape(plans, gone);
    StripNames(plans[k].backends, gone);
    hide ExpirePlans, Strip;
    var r, p := ExpirePlans(plans, gone), Cut(plans[k], gone);
    assert p.backends == Strip(plans[k].backends, gone) && b in Names(p.backends);
    assert p.backends != [] && p in r;
    var j :| 0 <= j < |r| && r[j] == p;
  }

  lemma EntryExpires(e: SessionPlans, gone: set<string>, m: string, b: string)
    ensures EntryRuns(e.(models := ExpirePlans(e.models, gone)), m, b) <==> EntryRuns(e, m, b) && b !in gone
  {
    hide ExpirePlans, Names;
    var r := ExpirePlans(e.models, gone);
    if j :| 0 <= j < |r| && r[j].model == m && b in Names(r[j].backends) {
      ExpiredRuns(e.models, gone, j, b);
    }
    if k :| 0 <= k < |e.models| && e.models[k].model == m && b in Names(e.models[k].backends) && b !in gone {
      StillRuns(e.models, gone, k, b);
    }
  }

  /** Expiry takes from each session exactly its placements on departed backends. */
  lemma {:induction false} ExpireSession(t: Table, gone: set<string>, s: string, m: string, b: string)
    ensures SessionRuns(Expire(t, gone), s, m, b) <==> SessionRuns(t, s, m, b) && b !in gone
  {
    if t != [] {
      var init, e := t[..|t| - 1], t[|t| - 1];
      ExpireSession(init, gone, s, m, b);
      assert t == init + [e];
      SessionRunsSnoc(init, e, s, m, b);
      var e' := e.(models := ExpirePlans(e.models, gone));
      EntryExpires(e, gone, m, b);
      SessionRunsSnoc(Expire(init, gone), e', s, m, b);
    }
  }

  // ---- A session's entry under removals --------------------------------------------------------------------

  function EntryAt(t: Table, s: string): Option<SessionPlans> {
    var i := IndexOf(t, s);
    if i < |t| then Some(t[i]) else None
  }

  lemma {:induction false} RemoveEntryAt(t: Table, s: string, m: string, b: string)
    requires DistinctSessions(t)
    ensures EntryAt(Remove(t, m, b), s) ==
            match EntryAt(t, s) { case None => None case Some(e) => EntryWithout(e, m, b) }
  {
    if t != [] {
      var init, e := t[..|t| - 1], t[|t| - 1];
      assert t == init + [e];
      RemoveEntryAt(init, s, m, b);
      EntryAtSnoc(init, e, s);
      var e' := EntryWithout(e, m, b);
      if e'.Some? {
        RemoveDistinct(t, m, b);
        EntryAtSnoc(Remove(init, m, b), e'.value, s);
      }
    }
  }

  lemma EntryAtSnoc(t: Table, e: SessionPlans, s: string)
    ensures EntryAt(t + [e], s) == if EntryAt(t, s).Some? then EntryAt(t, s) else if e.session == s then Some(e) else None
  {
    assert (t + [e])[..|t|] == t;
  }

  /** All backends of one of the session's models are among the pairs. */
  predicate UsedUp(e: SessionPlans, j: nat, pairs: seq<(string, string)>)
    requires j < |e.models|
  {
    forall b :: b in Names(e.models[j].backends) ==> (e.models[j].model, b) in pairs
  }

  predicate Exhausted(e: SessionPlans, pairs: seq<(string, string)>) {
    exists j :: 0 <= j < |e.models| && UsedUp(e, j, pairs)
  }

  /** `r` is `e` with exactly the pairs gone. */
  predicate TrimmedBy(r: SessionPlans, e: SessionPlans, pairs: seq<(string, string)>) {
    && r.session == e.session && |r.models| == |e.models|
    && forall j :: 0 <= j < |e.models| ==>
         && r.models[j].model == e.models[j].model
         && Names(r.models[j].backends) == set b | b in Names(e.models[j].backends) && (e.models[j].model, b) !in pairs
  }

  /** What is left of an entry: nothing if one of its models has lost all of its backends, and otherwise all but
    * the pairs. */
  predicate LeftOver(r: Option<SessionPlans>, e: SessionPlans, pairs: seq<(string, string)>) {
    if Exhausted(e, pairs) then r.None? else r.Some? && EntryShape(r.value) && TrimmedBy(r.value, e, pairs)
  }

  lemma ExhaustedStays(e: SessionPlans, init: seq<(string, string)>, pair: (string, string))
    requires Exhausted(e, init)
    ensures Exhausted(e, init + [pair])
  {
    var j :| 0 <= j < |e.models| && UsedUp(e, j, init);
    assert UsedUp(e, j, init + [pair]);
  }

  lemma LeftOverStep(r: SessionPlans, e: SessionPlans, init: seq<(string, string)>, m: string, b: string)
    requires EntryShape(e) && EntryShape(r) && TrimmedBy(r, e, init) && !Exhausted(e, init)
    ensures LeftOver(EntryWithout(r, m, b), e, init + [(m, b)])
  {
    var pairs, q := init + [(m, b)], EntryWithout(r, m, b);
    EntryWithoutShape(r, m, b);
    hide EntryWithout, EntryShape;
    if q.None? {
      var j :| 0 <= j < |r.models| && r.models[j].model == m && Names(r.models[j].backends) == {b};
      assert UsedUp(e, j, pairs) by {
        forall x | x in Names(e.models[j].backends) ensures (e.models[j].model, x) in pairs {
          assert x != b ==> x !in Names(r.models[j].backends);
        }
      }
    } else {
      StillTrimmed(q.value, r, e, init, m, b);
      forall j | 0 <= j < |e.models| ensures !UsedUp(e, j, pairs) {
        NotUsedUp(q.value, e, pairs, j);
      }
    }
  }

  lemma StillTrimmed(q: SessionPlans, r: SessionPlans, e: SessionPlans, init: seq<(string, string)>, m: string, b: string)
    requires TrimmedBy(r, e, init) && Trimmed(q, r, m, b)
    ensures TrimmedBy(q, e, init + [(m, b)])
  {
    forall j | 0 <= j < |e.models|
      ensures Names(q.models[j].backends) == set x | x in Names(e.models[j].backends) && (e.models[j].model, x) !in init + [(m, b)]
    {
      assert Names(q.models[j].backends) == Names(r.models[j].backends) - (if r.models[j].model == m then {b} else {});
    }
  }

  lemma NotUsedUp(q: SessionPlans, e: SessionPlans, pairs: seq<(string, string)>, j: nat)
    requires TrimmedBy(q, e, pairs) && EntryShape(q) && j < |e.models|
    ensures !UsedUp(e, j, pairs)
  {
    NamesNonEmpty(q.models[j].backends);
    var x :| x in Names(q.models[j].backends);
    assert x in Names(e.models[j].backends) && (e.models[j].model, x) !in pairs;
  }

  /** The entry after removing some pairs. */
  lemma {:induction false} EntryAfter(p: Pool, cat: Catalog, s: string, e: SessionPlans, pairs: seq<(string, string)>)
    requires Shape(p.table) && EntryAt(p.table, s) == Some(e) && EntryShape(e)
    ensures var q := UndeployAll(p, cat, pairs); Shape(q.table) && LeftOver(EntryAt(q.table, s), e, pairs)
  {
    if pairs == [] {
      NothingTrimmed(e);
    } else {
      var init, last := pairs[..|pairs| - 1], pairs[|pairs| - 1];
      assert pairs == init + [last];
      EntryAfter(p, cat, s, e, init);
      hide Shape, EntryShape, Exhausted, TrimmedBy, EntryAt, EntryWithout;
      var q := UndeployAll(p, cat, init);
      RemoveShape(q.table, last.0, last.1);
      ShapeIsDistinct(q.table);
      RemoveEntryAt(q.table, s, last.0, last.1);
      if Exhausted(e, init) {
        ExhaustedStays(e, init, last);
      } else {
        LeftOverStep(EntryAt(q.table, s).value, e, init, last.0, last.1);
      }
    }
  }

  lemma NothingTrimmed(e: SessionPlans)
    requires EntryShape(e)
    ensures LeftOver(Some(e), e, [])
  {
    assert TrimmedBy(e, e, []);
    forall j | 0 <= j < |e.models| ensures !UsedUp(e, j, []) {
      NotUsedUp(e, e, [], j);
    }
  }

  lemma ShapeIsDistinct(t: Table)
    requires Shape(t)
    ensures DistinctSessions(t)
  {
  }

  // ---- The memory that comes back ---------------------------------------------------------------------------

  /** The pairs that are still there when their turn comes. */
  function Freed(e: SessionPlans, pairs: seq<(string, string)>): seq<(string, string)> {
    if pairs == [] then []
    else
      var init := pairs[..|pairs| - 1];
      Freed(e, init) + if Exhausted(e, init) then [] else [pairs[|pairs| - 1]]
  }

  /** They are the first ones, up to the one that takes a model its last backend. */
  lemma {:induction false} FreedIsPrefix(e: SessionPlans, pairs: seq<(string, string)>)
    ensures var n := |Freed(e, pairs)|;
            && n <= |pairs| && Freed(e, pairs) == pairs[..n]
            && (n < |pairs| ==> Exhausted(e, pairs[..n]))
            && forall k :: 0 <= k < n ==> !Exhausted(e, pairs[..k])
  {
    if pairs != [] {
      hide Exhausted;
      var init, last := pairs[..|pairs| - 1], pairs[|pairs| - 1];
      FreedIsPrefix(e, init);
      var n := |Freed(e, init)|;
      assert forall k :: 0 <= k <= |init| ==> init[..k] == pairs[..k];
      assert init[..|init|] == init && pairs[..|pairs|] == pairs && init + [last] == pairs;
      if n < |init| {
        ExhaustedFrom(e, init, n);
      }
    }
  }

  lemma ExhaustedFrom(e: SessionPlans, pairs: seq<(string, string)>, n: nat)
    requires n <= |pairs| && Exhausted(e, pairs[..n])
    ensures Exhausted(e, pairs)
  {
    var j :| 0 <= j < |e.models| && UsedUp(e, j, pairs[..n]);
    assert UsedUp(e, j, pairs);
  }

  /** The pairs run, are alone on their backends and differ. */
  predicate Lone(t: Table, e: SessionPlans, pairs: seq<(string, string)>) {
    && (forall k :: 0 <= k < |pairs| ==> LonePair(t, e.session, pairs[k]) && EntryRuns(e, pairs[k].0, pairs[k].1))
    && forall j, k :: 0 <= j < k < |pairs| ==> pairs[j] != pairs[k]
  }

  /** On a backend that no other session uses, a model runs exactly if the session runs it there. */
  lemma RunsAlone(t: Table, s: string, m: string, b: string)
    requires DistinctSessions(t) && !OthersOn(t, s, b)
    ensures Runs(t, m, b) <==> EntryAt(t, s).Some? && EntryRuns(EntryAt(t, s).value, m, b)
  {
    if i :| 0 <= i < |t| && EntryRuns(t[i], m, b) {
      var j :| 0 <= j < |t[i].models| && t[i].models[j].model == m && b in Names(t[i].models[j].backends);
      assert t[i].session == s;
      assert IndexOf(t, s) == i;
    }
  }

  lemma FreedRuns(r: Option<SessionPlans>, e: SessionPlans, init: seq<(string, string)>, pair: (string, string))
    requires LeftOver(r, e, init) && pair !in init && EntryRuns(e, pair.0, pair.1)
    ensures (r.Some? && EntryRuns(r.value, pair.0, pair.1)) <==> !Exhausted(e, init)
  {
    if !Exhausted(e, init) {
      var j :| 0 <= j < |e.models| && e.models[j].model == pair.0 && pair.1 in Names(e.models[j].backends);
      assert pair.1 in Names(r.value.models[j].backends);
    }
  }

  /** The session's entry, and pairs of it to be removed. */
  predicate Removable(p: Pool, s: string, e: SessionPlans, pairs: seq<(string, string)>) {
    EntryAt(p.table, s) == Some(e) && EntryShape(e) && e.session == s && Lone(p.table, e, pairs)
  }

  lemma RemovableSnoc(p: Pool, s: string, e: SessionPlans, init: seq<(string, string)>, last: (string, string))
    requires Removable(p, s, e, init + [last])
    ensures Removable(p, s, e, init) && LonePair(p.table, s, last) && EntryRuns(e, last.0, last.1) && last !in init
    ensures forall k :: 0 <= k < |init| ==> LonePair(p.table, s, init[k])
  {
    hide EntryAt, EntryShape, LonePair, EntryRuns;
    var pairs := init + [last];
    assert pairs[|init|] == last && forall k :: 0 <= k < |init| ==> pairs[k] == init[k];
  }

  /** When its turn comes, a pair still runs exactly if no model of the session has lost its last backend. */
  lemma TurnRuns(w: World, p: Pool, s: string, e: SessionPlans, init: seq<(string, string)>, last: (string, string))
    requires Good(w, p) && Removable(p, s, e, init + [last])
    ensures var q := UndeployAll(p, w.cat, init);
            Good(w, q) && (Runs(q.table, last.0, last.1) <==> !Exhausted(e, init))
  {
    RemovableSnoc(p, s, e, init, last);
    var q := UndeployAll(p, w.cat, init);
    UndeployLone(w, p, s, init);
    hide Exhausted, LeftOver, EntryAt, EntryShape, UndeployAll, OthersOn, Lone, SameHosts, Fits, CpuCap, BackendsOk, NoDebt;
    EntryAfter(p, w.cat, s, e, init);
    FewerOthers(q.table, p.table, s, last.1);
    ShapeIsDistinct(q.table);
    RunsAlone(q.table, s, last.0, last.1);
    FreedRuns(EntryAt(q.table, s), e, init, last);
  }

  /** What removing pairs gives back to a backend: what those that are still there take. */
  lemma {:induction false} MemoryFreed(w: World, p: Pool, s: string, e: SessionPlans, pairs: seq<(string, string)>, i: nat)
    requires Good(w, p) && Removable(p, s, e, pairs)
    requires i < |p.backends| && p.backends[i].gpu.Some?
    ensures var q := UndeployAll(p, w.cat, pairs);
            && SameBackends(q.backends, p.backends)
            && FreeMem(q.backends[i]) == FreeMem(p.backends[i]) + Taken(w.cat, Freed(e, pairs), p.backends[i].name)
  {
    if pairs != [] {
      var init, last := pairs[..|pairs| - 1], pairs[|pairs| - 1];
      assert init + [last] == pairs;
      RemovableSnoc(p, s, e, init, last);
      hide Good, Removable, Exhausted, Undeploy, UndeployAll, Taken, Runs, Freed;
      MemoryFreed(w, p, s, e, init, i);
      TurnRuns(w, p, s, e, init, last);
      OneFreed(w, p, UndeployAll(p, w.cat, init), e, init, last, i);
      UndeployAllSnoc(p, w.cat, init, last);
    }
  }

  lemma UndeployAllSnoc(p: Pool, cat: Catalog, init: seq<(string, string)>, last: (string, string))
    ensures UndeployAll(p, cat, init + [last]) == Undeploy(UndeployAll(p, cat, init), cat, last.0, last.1)
  {
    assert (init + [last])[..|init|] == init;
  }

  lemma OneFreed(w: World, p: Pool, q: Pool, e: SessionPlans, init: seq<(string, string)>, last: (string, string), i: nat)
    requires Good(w, q) && (Runs(q.table, last.0, last.1) <==> !Exhausted(e, init))
    requires i < |p.backends| && p.backends[i].gpu.Some? && SameBackends(q.backends, p.backends)
    requires FreeMem(q.backends[i]) == FreeMem(p.backends[i]) + Taken(w.cat, Freed(e, init), p.backends[i].name)
    ensures var r := Undeploy(q, w.cat, last.0, last.1);
            && SameBackends(r.backends, p.backends)
            && FreeMem(r.backends[i]) == FreeMem(p.backends[i]) + Taken(w.cat, Freed(e, init + [last]), p.backends[i].name)
  {
    GoodForUndeploy(w, q);
    UndeployBudget(q, w.cat, last.0, last.1);
    hide Good, Exhausted, Taken, Runs, Shape, Undeploy, Charge;
    TakenSnoc(w.cat, Freed(e, init), last, p.backends[i].name);
    assert (init + [last])[..|init|] == init;
    assert Freed(e, init) + [] == Freed(e, init);
  }

  lemma GoodForUndeploy(w: World, p: Pool)
    requires Good(w, p)
    ensures Shape(p.table) && DistinctBackends(p.backends)
  {
  }

  lemma TakenSnoc(cat: Catalog, pairs: seq<(string, string)>, pair: (string, string), name: string)
    ensures Taken(cat, pairs + [pair], name) == Taken(cat, pairs, name) + if pair.1 == name then Charge(cat, pair.0) else 0.0
  {
    assert (pairs + [pair])[..|pairs|] == pairs;
  }

  // ---- Removing a session -------------------------------------------------------------------------------------

  lemma {:induction false} LonePairsExact(t: Table, s: string, m: string, plans: seq<BackendPlan>)
    requires DistinctNames(plans)
    ensures forall x :: x in LonePairs(t, s, m, plans) <==> x.0 == m && x.1 in Names(plans) && !OthersOn(t, s, x.1)
    ensures Different(LonePairs(t, s, m, plans))
  {
    if plans != [] {
      hide OthersOn;
      var init, last := plans[..|plans| - 1], plans[|plans| - 1];
      LonePairsExact(t, s, m, init);
      assert plans == init + [last];
      NamesSnoc(init, last);
      NewName(init, last);
    }
  }

  lemma NewName(init: seq<BackendPlan>, p: BackendPlan)
    requires DistinctNames(init + [p])
    ensures p.backend !in Names(init)
  {
    var all := init + [p];
    forall k | 0 <= k < |init| ensures init[k].backend != p.backend {
      assert all[k] == init[k] && all[|init|] == p;
    }
  }

  predicate Different(pairs: seq<(string, string)>) {
    forall j, k :: 0 <= j < k < |pairs| ==> pairs[j] != pairs[k]
  }

  lemma DifferentConcat(a: seq<(string, string)>, b: seq<(string, string)>)
    requires Different(a) && Different(b) && forall x :: x in a ==> x !in b
    ensures Different(a + b)
  {
    var all := a + b;
    forall j, k | 0 <= j < k < |all| ensures all[j] != all[k] {
      assert j < |a| <= k ==> all[j] in a && all[k] in b;
    }
  }

  predicate PlansRun(plans: seq<CModelPlan>, m: string, b: string) {
    exists j :: 0 <= j < |plans| && plans[j].model == m && b in Names(plans[j].backends)
  }

  /** The pairs that are to be removed: all that the session runs on a backend that no other session uses. */
  lemma {:induction false} SessionLonePairsExact(t: Table, s: string, plans: seq<CModelPlan>)
    requires DistinctModels(plans) && forall j :: 0 <= j < |plans| ==> DistinctNames(plans[j].backends)
    ensures forall x :: x in SessionLonePairs(t, s, plans) <==> PlansRun(plans, x.0, x.1) && !OthersOn(t, s, x.1)
    ensures Different(SessionLonePairs(t, s, plans))
  {
    if plans != [] {
      hide OthersOn, Names, LonePairs, DistinctNames;
      var init, p := plans[..|plans| - 1], plans[|plans| - 1];
      SessionLonePairsExact(t, s, init);
      LonePairsExact(t, s, p.model, p.backends);
      forall x: (string, string)
        ensures PlansRun(plans, x.0, x.1) <==> PlansRun(init, x.0, x.1) || (x.0 == p.model && x.1 in Names(p.backends))
        ensures x.0 == p.model ==> !PlansRun(init, x.0, x.1)
      {
        PlansRunSnoc(plans, x.0, x.1);
      }
      DifferentConcat(SessionLonePairs(t, s, init), LonePairs(t, s, p.model, p.backends));
    }
  }

  lemma PlansRunSnoc(plans: seq<CModelPlan>, m: string, b: string)
    requires plans != [] && DistinctModels(plans)
    ensures var init, p := plans[..|plans| - 1], plans[|plans| - 1];
            && (PlansRun(plans, m, b) <==> PlansRun(init, m, b) || (m == p.model && b in Names(p.backends)))
            && (m == p.model ==> !PlansRun(init, m, b))
  {
    var init, p := plans[..|plans| - 1], plans[|plans| - 1];
    if j :| 0 <= j < |init| && init[j].model == m && b in Names(init[j].backends) {
      assert plans[j] == init[j];
    }
    assert plans[|plans| - 1] == p;
  }

  /** The lone pairs of a session are removable. */
  lemma LoneAreRemovable(w: World, p: Pool, s: string, e: SessionPlans)
    requires Good(w, p) && EntryAt(p.table, s) == Some(e)
    ensures e.session == s && EntryShape(e) && Removable(p, s, e, SessionLonePairs(p.table, s, e.models))
    ensures forall x :: x in SessionLonePairs(p.table, s, e.models) <==> EntryRuns(e, x.0, x.1) && !OthersOn(p.table, s, x.1)
  {
    var i := IndexOf(p.table, s);
    assert p.table[i] == e;
    hide SameHosts, Fits, CpuCap, BackendsOk, NoDebt, OthersOn, DistinctNames, Names;
    SessionLonePairsExact(p.table, s, e.models);
    var pairs := SessionLonePairs(p.table, s, e.models);
    forall k | 0 <= k < |pairs| ensures LonePair(p.table, s, pairs[k]) && EntryRuns(e, pairs[k].0, pairs[k].1) {
      assert pairs[k] in pairs;
    }
  }

  /** What removing a session gives back: of the models that it alone has on a backend where no other session
    * runs anything, the memory of the first ones, up to the one that has lost its last backend by then. */
  lemma RemoveSessionReturns(w: World, p: Pool, s: string, e: SessionPlans)
    requires Good(w, p) && EntryAt(p.table, s) == Some(e)
    ensures var r, pairs := RemoveSession(p, w.cat, s), SessionLonePairs(p.table, s, e.models);
            var n := |Freed(e, pairs)|;
            && (forall x :: x in pairs <==> EntryRuns(e, x.0, x.1) && !OthersOn(p.table, s, x.1))
            && n <= |pairs| && (n < |pairs| ==> Exhausted(e, pairs[..n])) && (forall k :: 0 <= k < n ==> !Exhausted(e, pairs[..k]))
            && SameBackends(r.backends, p.backends)
            && forall i :: 0 <= i < |p.backends| && p.backends[i].gpu.Some? ==>
                 FreeMem(r.backends[i]) == FreeMem(p.backends[i]) + Taken(w.cat, pairs[..n], p.backends[i].name)
  {
    var r, pairs := RemoveSession(p, w.cat, s), SessionLonePairs(p.table, s, e.models);
    LoneAreRemovable(w, p, s, e);
    FreedIsPrefix(e, pairs);
    assert r.backends == UndeployAll(p, w.cat, pairs).backends;
    hide Good, Removable, Exhausted, Freed, SessionLonePairs, UndeployAll, RemoveSession, EntryRuns, OthersOn, EntryAt, EntryShape;
    UndeployKeepsBackends(w, p, s, e, pairs);
    forall i | 0 <= i < |p.backends| && p.backends[i].gpu.Some?
      ensures FreeMem(r.backends[i]) == FreeMem(p.backends[i]) + Taken(w.cat, pairs[..|Freed(e, pairs)|], p.backends[i].name)
    {
      MemoryFreed(w, p, s, e, pairs, i);
    }
  }

  lemma UndeployKeepsBackends(w: World, p: Pool, s: string, e: SessionPlans, pairs: seq<(string, string)>)
    requires Good(w, p) && Removable(p, s, e, pairs)
    ensures SameBackends(UndeployAll(p, w.cat, pairs).backends, p.backends)
  {
    hide *;
    UndeployAllGood(w, p, pairs);
    WithinIsSame(w.cat, UndeployAll(p, w.cat, pairs), p);
  }

  lemma WithinIsSame(cat: Catalog, q: Pool, p: Pool)
    requires WithinBudget(cat, q, p)
    ensures SameBackends(q.backends, p.backends)
  {
  }

  lemma {:induction false} TakenSplit(cat: Catalog, a: seq<(string, string)>, b: seq<(string, string)>, name: string)
    ensures Taken(cat, a + b, name) == Taken(cat, a, name) + Taken(cat, b, name)
  {
    if b == [] {
      assert a + b == a;
    } else {
      var init, last := b[..|b| - 1], b[|b| - 1];
      TakenSplit(cat, a, init, name);
      TakenSnoc(cat, a + init, last, name);
      TakenSnoc(cat, init, last, name);
      assert a + b == a + init + [last] && b == init + [last];
    }
  }

  /** A model that needs memory and that a session runs is on a backend with a GPU. */
  lemma CostlyRunsOnGpu(w: World, p: Pool, e: SessionPlans, m: string, b: string)
    requires Good(w, p) && e in p.table && EntryRuns(e, m, b) && Charge(w.cat, m) != 0.0
    ensures exists i :: 0 <= i < |p.backends| && p.backends[i].name == b && p.backends[i].gpu.Some?
  {
    hide SameHosts, CpuCap, NoDebt, Shape;
    var live := BackendNames(p.backends);
    var i :| 0 <= i < |p.table| && p.table[i] == e;
    var j :| 0 <= j < |e.models| && e.models[j].model == m && b in Names(e.models[j].backends);
    assert PlanFits(w, live, p.table[i].models[j]) && RightKind(w, m, b);
    var n :| 0 <= n < |p.backends| && p.backends[n].name == b;
  }

  /** All the memory of the models that only this session has on its backends comes back if and only if those
    * that come after the one that loses its last backend first need none. */
  lemma AllReturnedIff(w: World, p: Pool, s: string, e: SessionPlans)
    requires Good(w, p) && EntryAt(p.table, s) == Some(e)
    ensures var r, pairs := RemoveSession(p, w.cat, s), SessionLonePairs(p.table, s, e.models);
            var n := |Freed(e, pairs)|;
            && n <= |pairs| && SameBackends(r.backends, p.backends)
            && ((forall i :: 0 <= i < |p.backends| && p.backends[i].gpu.Some? ==>
                   FreeMem(r.backends[i]) == FreeMem(p.backends[i]) + Taken(w.cat, pairs, p.backends[i].name))
                <==> forall k :: n <= k < |pairs| ==> Charge(w.cat, pairs[k].0) == 0.0)
  {
    hide *;
    var r, pairs := RemoveSession(p, w.cat, s), SessionLonePairs(p.table, s, e.models);
    RemoveSessionReturns(w, p, s, e);
    CostlyPairsOnGpu(w, p, s, e);
    GivenBackIff(w.cat, r.backends, p.backends, pairs, |Freed(e, pairs)|);
  }

  /** A costly model's backend has a GPU. */
  predicate OnGpu(cat: Catalog, bs: seq<Backend>, pair: (string, string)) {
    Charge(cat, pair.0) != 0.0 ==> exists i :: 0 <= i < |bs| && bs[i].name == pair.1 && bs[i].gpu.Some?
  }

  lemma CostlyPairsOnGpu(w: World, p: Pool, s: string, e: SessionPlans)
    requires Good(w, p) && EntryAt(p.table, s) == Some(e)
    ensures var pairs := SessionLonePairs(p.table, s, e.models);
            forall k :: 0 <= k < |pairs| ==> OnGpu(w.cat, p.backends, pairs[k])
  {
    assert e in p.table;
    LoneAreRemovable(w, p, s, e);
    hide Good, EntryAt, Removable, SessionLonePairs, EntryRuns, OthersOn, Charge, EntryShape;
    var pairs := SessionLonePairs(p.table, s, e.models);
    forall k | 0 <= k < |pairs| ensures OnGpu(w.cat, p.backends, pairs[k]) {
      assert pairs[k] in pairs;
      if Charge(w.cat, pairs[k].0) != 0.0 {
        CostlyRunsOnGpu(w, p, e, pairs[k].0, pairs[k].1);
      }
    }
  }

  lemma GivenBackIff(cat: Catalog, q: seq<Backend>, p: seq<Backend>, pairs: seq<(string, string)>, n: nat)
    requires n <= |pairs| && SameBackends(q, p)
    requires forall i :: 0 <= i < |p| && p[i].gpu.Some? ==> FreeMem(q[i]) == FreeMem(p[i]) + Taken(cat, pairs[..n], p[i].name)
    requires forall k :: 0 <= k < |pairs| ==> OnGpu(cat, p, pairs[k])
    ensures (forall i :: 0 <= i < |p| && p[i].gpu.Some? ==> FreeMem(q[i]) == FreeMem(p[i]) + Taken(cat, pairs, p[i].name))
            <==> forall k :: n <= k < |pairs| ==> Charge(cat, pairs[k].0) == 0.0
  {
    RestIsFree(cat, p, pairs, n);
    hide Taken, Charge, OnGpu, FreeMem;
    assert pairs == pairs[..n] + pairs[n..];
    forall i | 0 <= i < |p|
      ensures Taken(cat, pairs, p[i].name) == Taken(cat, pairs[..n], p[i].name) + Taken(cat, pairs[n..], p[i].name)
    {
      TakenSplit(cat, pairs[..n], pairs[n..], p[i].name);
    }
  }

  lemma RestIsFree(cat: Catalog, bs: seq<Backend>, pairs: seq<(string, string)>, n: nat)
    requires n <= |pairs|
    requires forall k :: 0 <= k < |pairs| ==> OnGpu(cat, bs, pairs[k])
    ensures (forall i :: 0 <= i < |bs| && bs[i].gpu.Some? ==> Taken(cat, pairs[n..], bs[i].name) == 0.0)
            <==> forall k :: n <= k < |pairs| ==> Charge(cat, pairs[k].0) == 0.0
  {
    hide Charge, Taken;
    var rest := pairs[n..];
    forall i | 0 <= i < |bs|
      ensures Taken(cat, rest, bs[i].name) == 0.0 <==> forall k :: 0 <= k < |rest| && rest[k].1 == bs[i].name ==> Charge(cat, rest[k].0) == 0.0
    {
      TakenNothingIff(cat, rest, bs[i].name);
    }
    if k :| n <= k < |pairs| && Charge(cat, pairs[k].0) != 0.0 {
      assert OnGpu(cat, bs, pairs[k]);
      var i :| 0 <= i < |bs| && bs[i].name == pairs[k].1 && bs[i].gpu.Some?;
      assert rest[k - n] == pairs[k];
    } else {
      assert forall k :: 0 <= k < |rest| ==> rest[k] == pairs[n + k];
    }
  }

  // ---- A session that leaves memory behind --------------------------------------------------------------------

  const A_NEEDS_4 := CModel("a", [Component("a", [ProfileUnit(1, 1.0, 4.0)])])
  const B_NEEDS_4 := CModel("b", [Component("b", [ProfileUnit(1, 1.0, 4.0)])])
  const TWO_MODELS := map["a" := A_NEEDS_4, "b" := B_NEEDS_4]

  function OnG(m: string, s: string): CModelPlan {
    CModelPlan(m, s, [BackendPlan("g", [ComponentPlan(m, 1)])])
  }

  lemma FourEach()
    ensures Charge(TWO_MODELS, "a") == 4.0 && Charge(TWO_MODELS, "b") == 4.0
  {
    var u := [ProfileUnit(1, 1.0, 4.0)];
    assert u[..0] == [] && BestProfile(u) == Some(u[0]);
    assert A_NEEDS_4.components[..0] == [] && B_NEEDS_4.components[..0] == [];
    assert NeedOf([]) == 0.0;
  }

  /** Nobody else is there. */
  lemma PairsOfTwo(s: string)
    ensures SessionLonePairs([SessionPlans(s, [OnG("a", s), OnG("b", s)])], s, [OnG("a", s), OnG("b", s)]) == [("a", "g"), ("b", "g")]
  {
    var t, plans := [SessionPlans(s, [OnG("a", s), OnG("b", s)])], [OnG("a", s), OnG("b", s)];
    assert !OthersOn(t, s, "g");
    assert plans[..1] == [OnG("a", s)] && plans[..1][..0] == [];
    assert forall m :: OnG(m, s).backends[..0] == [];
    assert LonePairs(t, s, "a", OnG("a", s).backends) == [("a", "g")];
    assert LonePairs(t, s, "b", OnG("b", s).backends) == [("b", "g")];
    assert SessionLonePairs(t, s, plans[..1]) == [("a", "g")];
  }

  /** The first model's plan is left empty, and the whole session goes. */
  lemma FirstGoes(s: string)
    ensures var t := [SessionPlans(s, [OnG("a", s), OnG("b", s)])];
            Remove(t, "a", "g") == [] && Found(t, "a", "g") && !Found([], "b", "g")
  {
    var e := SessionPlans(s, [OnG("a", s), OnG("b", s)]);
    assert e.models[..1] == [OnG("a", s)] && e.models[..1][..0] == [];
    assert FirstPlan(e.models, "a") == 0;
    var plans := OnG("a", s).backends;
    assert plans[..0] == [] && plans[0].backend == "g";
    assert Strip(plans, {"g"}) == [];
    assert EntryWithout(e, "a", "g") == None;
    assert [e][..0] == [] && FoundIn([e][0], "a", "g");
  }

  /** A session that has two models on one backend, alone, and is removed: the memory of the second stays taken. */
  lemma SecondModelKeepsMemory(s: string)
    ensures RemoveSession(Pool([SessionPlans(s, [OnG("a", s), OnG("b", s)])], [Backend("g", Some(2.0))]), TWO_MODELS, s) ==
            Pool([], [Backend("g", Some(6.0))])
  {
    var t, bs := [SessionPlans(s, [OnG("a", s), OnG("b", s)])], [Backend("g", Some(2.0))];
    var p, q, pairs := Pool(t, bs), Pool([], [Backend("g", Some(6.0))]), [("a", "g"), ("b", "g")];
    FourEach();
    PairsOfTwo(s);
    FirstGoes(s);
    assert pairs[..1] == [("a", "g")] && pairs[..1][..0] == [];
    assert bs[..0] == [] && BackendIndex(bs, "g") == 0;
    hide SessionLonePairs, Charge, Remove, Found;
    assert UndeployAll(p, TWO_MODELS, pairs[..1]) == q;
    assert Remove([], "b", "g") == [] by { EmptyStays("b", "g"); }
    assert UndeployAll(p, TWO_MODELS, pairs) == q;
    assert t[..0] == [] && IndexOf(t, s) == 0;
  }

  lemma EmptyStays(m: string, b: string)
    ensures Remove([], m, b) == []
  {
  }
}
