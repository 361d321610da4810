/** Expiry of backends and removal of sessions nobody requests any more. */
module PolicyPruning {
  import opened PolicyModel
  import opened PolicyTables
  import opened PolicyInvariants
  import opened PolicyBudget

  /** A pool whose plans obey the invariant over its own backends, none of them in debt. */
  ghost predicate Good(w: World, p: Pool) {
    && Inv(w, BackendNames(p.backends), p.table)
    && BackendsOk(w, p.backends)
    && NoDebt(p.backends)
  }

  lemma SameBackendsOk(w: World, q: seq<Backend>, p: seq<Backend>)
    requires SameBackends(q, p)
    ensures BackendNames(q) == BackendNames(p)
    ensures BackendsOk(w, p) ==> BackendsOk(w, q)
  {
    forall n ensures n in BackendNames(q) <==> n in BackendNames(p) {
      if i :| 0 <= i < |p| && p[i].name == n {
        assert q[i].name == n;
      }
      if i :| 0 <= i < |q| && q[i].name == n {
        assert p[i].name == n;
      }
    }
  }

  lemma UndeployGood(w: World, p: Pool, m: string, b: string)
    requires Good(w, p)
    ensures Good(w, Undeploy(p, w.cat, m, b))
    ensures WithinBudget(w.cat, Undeploy(p, w.cat, m, b), p)
  {
    UndeployBudget(p, w.cat, m, b);
    SameBackendsOk(w, Undeploy(p, w.cat, m, b).backends, p.backends);
    RemoveInv(w, BackendNames(p.backends), p.table, m, b);
  }

  lemma {:induction false} UndeployAllGood(w: World, p: Pool, pairs: seq<(string, string)>)
    requires Good(w, p)
    ensures Good(w, UndeployAll(p, w.cat, pairs))
    ensures WithinBudget(w.cat, UndeployAll(p, w.cat, pairs), p)
  {
    if pairs == [] {
    } else {
      var init := pairs[..|pairs| - 1];
      UndeployAllGood(w, p, init);
      var q := UndeployAll(p, w.cat, init);
      UndeployGood(w, q, pairs[|pairs| - 1].0, pairs[|pairs| - 1].1);
      WithinTransitive(w.cat, UndeployAll(p, w.cat, pairs), q, p);
    }
  }

  // ---- Filtering sessions ---------------------------------------------------------------

  /** The table without the listed sessions. */
  function DropAll(t: Table, ss: seq<string>): Table {
    if t == [] then []
    else
      var r := DropAll(t[..|t| - 1], ss);
      if t[|t| - 1].session in ss then r else r + [t[|t| - 1]]
  }

  lemma {:induction false} DropAllEntries(t: Table, ss: seq<string>)
    ensures forall e :: e in DropAll(t, ss) <==> e in t && e.session !in ss
    ensures (forall i :: 0 <= i < |t| ==> t[i].session !in ss) ==> DropAll(t, ss) == t
  {
    if t != [] {
      assert t == t[..|t| - 1] + [t[|t| - 1]];
      DropAllEntries(t[..|t| - 1], ss);
    }
  }

  lemma {:induction false} DropAllSnoc(t: Table, ss: seq<string>, s: string)
    ensures DropSession(DropAll(t, ss), s) == DropAll(t, ss + [s])
  {
    if t != [] {
      DropAllSnoc(t[..|t| - 1], ss, s);
      var r := DropAll(t[..|t| - 1], ss);
      assert (r + [t[|t| - 1]])[..|r|] == r;
    }
  }

  lemma {:induction false} DropAllNone(t: Table)
    ensures DropAll(t, []) == t
  {
    if t != [] {
      DropAllNone(t[..|t| - 1]);
    }
  }

  // ---- Removing a session ---------------------------------------------------------------

  predicate LonePair(t: Table, s: string, pair: (string, string)) {
    !OthersOn(t, s, pair.1)
  }

  lemma FewerOthers(r: Table, t: Table, s: string, b: string)
    requires forall i :: 0 <= i < |r| && r[i].session != s ==> r[i] in t
    ensures OthersOn(r, s, b) ==> OthersOn(t, s, b)
  {
    if i, j :| 0 <= i < |r| && r[i].session != s && 0 <= j < |r[i].models| && b in Names(r[i].models[j].backends) {
      var k :| 0 <= k < |t| && t[k] == r[i];
      assert b in Names(t[k].models[j].backends);
    }
  }

  lemma {:induction false} UndeployLone(w: World, p: Pool, s: string, pairs: seq<(string, string)>)
    requires Good(w, p)
    requires forall i :: 0 <= i < |pairs| ==> LonePair(p.table, s, pairs[i])
    ensures Good(w, UndeployAll(p, w.cat, pairs))
    ensures var q := UndeployAll(p, w.cat, pairs);
            && DropSession(q.table, s) == DropSession(p.table, s)
            && forall i :: 0 <= i < |q.table| && q.table[i].session != s ==> q.table[i] in p.table
  {
    UndeployAllGood(w, p, pairs);
    if pairs != [] {
      var init, last := pairs[..|pairs| - 1], pairs[|pairs| - 1];
      UndeployLone(w, p, s, init);
      var q := UndeployAll(p, w.cat, init);
      FewerOthers(q.table, p.table, s, last.1);
      assert LonePair(p.table, s, last);
      RemoveLone(q.table, s, last.0, last.1);
      var r := UndeployAll(p, w.cat, pairs);
      forall i | 0 <= i < |r.table| && r.table[i].session != s ensures r.table[i] in p.table {
        var k :| 0 <= k < |q.table| && q.table[k] == r.table[i];
      }
    }
  }

  lemma {:induction false} LonePairsAreLone(t: Table, s: string, m: string, plans: seq<BackendPlan>)
    ensures forall i :: 0 <= i < |LonePairs(t, s, m, plans)| ==> LonePair(t, s, LonePairs(t, s, m, plans)[i])
  {
    if plans != [] {
      LonePairsAreLone(t, s, m, plans[..|plans| - 1]);
    }
  }

  lemma {:induction false} SessionLonePairsAreLone(t: Table, s: string, plans: seq<CModelPlan>)
    ensures forall i :: 0 <= i < |SessionLonePairs(t, s, plans)| ==> LonePair(t, s, SessionLonePairs(t, s, plans)[i])
  {
    if plans != [] {
      SessionLonePairsAreLone(t, s, plans[..|plans| - 1]);
      LonePairsAreLone(t, s, plans[|plans| - 1].model, plans[|plans| - 1].backends);
    }
  }

  /** Removing a session removes its entry and no other, and never costs memory. */
  lemma RemoveSessionExact(w: World, p: Pool, s: string)
    requires Good(w, p)
    ensures Good(w, RemoveSession(p, w.cat, s))
    ensures RemoveSession(p, w.cat, s).table == DropSession(p.table, s)
    ensures WithinBudget(w.cat, RemoveSession(p, w.cat, s), p)
  {
    var i := IndexOf(p.table, s);
    var pairs := if i < |p.table| then SessionLonePairs(p.table, s, p.table[i].models) else [];
    if i < |p.table| {
      SessionLonePairsAreLone(p.table, s, p.table[i].models);
    }
    UndeployLone(w, p, s, pairs);
    UndeployAllGood(w, p, pairs);
    var q := UndeployAll(p, w.cat, pairs);
    var r := RemoveSession(p, w.cat, s);
    DropSessionShape(q.table, s);
    DropSessionInv(w, BackendNames(q.backends), q.table, s);
    FewerRunsWithin(w.cat, r, q);
    WithinTransitive(w.cat, r, q, p);
  }

  lemma {:induction false} RemoveSessionsExact(w: World, p: Pool, ss: seq<string>)
    requires Good(w, p)
    ensures Good(w, RemoveSessions(p, w.cat, ss))
    ensures RemoveSessions(p, w.cat, ss).table == DropAll(p.table, ss)
    ensures WithinBudget(w.cat, RemoveSessions(p, w.cat, ss), p)
  {
    hide Good, WithinBudget, RemoveSession;
    if ss == [] {
      DropAllNone(p.table);
      FewerRunsWithin(w.cat, p, p);
    } else {
      var init, s := ss[..|ss| - 1], ss[|ss| - 1];
      RemoveSessionsExact(w, p, init);
      var q := RemoveSessions(p, w.cat, init);
      RemoveSessionExact(w, q, s);
      DropAllSnoc(p.table, init, s);
      assert init + [s] == ss;
      WithinTransitive(w.cat, RemoveSessions(p, w.cat, ss), q, p);
    }
  }

  lemma {:induction false} UnusedExact(t: Table, reqs: seq<Request>)
    ensures forall s :: s in Unused(t, reqs) <==> HasSession(t, s) && !Requested(reqs, s)
  {
    if t != [] {
      var init, e := t[..|t| - 1], t[|t| - 1];
      UnusedExact(init, reqs);
      forall s ensures HasSession(t, s) <==> HasSession(init, s) || e.session == s {
        if i :| 0 <= i < |init| && init[i].session == s {
          assert t[i].session == s;
        }
        assert t[|t| - 1] == e;
      }
    }
  }

  lemma ExpireGood(w: World, p: Pool, live: set<string>, gone: set<string>)
    requires Inv(w, live, p.table) && live - gone <= BackendNames(p.backends)
    requires BackendsOk(w, p.backends) && NoDebt(p.backends)
    ensures Good(w, p.(table := Expire(p.table, gone)))
    ensures WithinBudget(w.cat, p.(table := Expire(p.table, gone)), p)
  {
    ExpireInv(w, live, gone, p.table);
    WiderFits(w, live - gone, BackendNames(p.backends), Expire(p.table, gone));
    ExpireShape(p.table, gone);
    FewerRunsWithin(w.cat, p.(table := Expire(p.table, gone)), p);
  }

  lemma DropUnused(t: Table, reqs: seq<Request>)
    ensures var q := DropAll(t, Unused(t, reqs));
            && AllRequested(q, reqs)
            && forall e :: e in q <==> e in t && Requested(reqs, e.session)
  {
    hide Requested;
    UnusedExact(t, reqs);
    DropAllEntries(t, Unused(t, reqs));
    var q := DropAll(t, Unused(t, reqs));
    forall e ensures e in q <==> e in t && Requested(reqs, e.session) {
      if e in t {
        var i :| 0 <= i < |t| && t[i] == e;
        assert HasSession(t, e.session);
      }
    }
    forall i | 0 <= i < |q| ensures Requested(reqs, q[i].session) {
      assert q[i] in q;
    }
  }

  /** Pruning leaves exactly the requested sessions, on exactly the backends that are still there. */
  lemma PruneExact(w: World, p: Pool, live: set<string>, gone: set<string>, reqs: seq<Request>)
    requires Inv(w, live, p.table) && live - gone <= BackendNames(p.backends)
    requires BackendsOk(w, p.backends) && NoDebt(p.backends)
    ensures var q := Prune(p, w.cat, gone, reqs);
            && Good(w, q)
            && AllRequested(q.table, reqs)
            && (forall e :: e in q.table <==> e in Expire(p.table, gone) && Requested(reqs, e.session))
            && WithinBudget(w.cat, q, p)
  {
    hide Good, Inv, WithinBudget, Requested, AllRequested, Expire, Unused, RemoveSessions;
    var p', q := p.(table := Expire(p.table, gone)), Prune(p, w.cat, gone, reqs);
    ExpireGood(w, p, live, gone);
    RemoveSessionsExact(w, p', Unused(p'.table, reqs));
    DropUnused(p'.table, reqs);
    WithinTransitive(w.cat, q, p', p);
  }

  lemma WiderFits(w: World, live: set<string>, wider: set<string>, t: Table)
    requires Fits(w, live, t) && live <= wider
    ensures Fits(w, wider, t)
  {
    forall i, j | 0 <= i < |t| && 0 <= j < |t[i].models| ensures PlanFits(w, wider, t[i].models[j]) {
      assert PlanFits(w, live, t[i].models[j]);
    }
  }
}
