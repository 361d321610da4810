/** What adding a placement does to a table of plans. */
module PolicyGrowth {
  import opened PolicyModel
  import opened PolicyTables

  predicate DistinctStrings(ss: seq<string>) {
    forall i, j :: 0 <= i < j < |ss| ==> ss[i] != ss[j]
  }

  predicate Plans(e: SessionPlans, m: string) {
    exists j :: 0 <= j < |e.models| && e.models[j].model == m
  }

  lemma PlansIsFirst(e: SessionPlans, m: string)
    ensures Plans(e, m) <==> FirstPlan(e.models, m) < |e.models|
  {
  }

  predicate Unplanned(t: Table, m: string) {
    forall i :: 0 <= i < |t| ==> !Plans(t[i], m)
  }

  lemma UnplannedHosts(t: Table, m: string)
    requires Unplanned(t, m)
    ensures Hosts(t, m) == {}
  {
    forall b ensures !Runs(t, m, b) {
      if i :| 0 <= i < |t| && EntryRuns(t[i], m, b) {
        assert Plans(t[i], m);
      }
    }
  }

  // ---- One entry ------------------------------------------------------------------------

  /** `r` is `e` with backend `b` added for model `m` and nothing else changed. */
  predicate Grown(r: SessionPlans, e: SessionPlans, m: string, b: string) {
    && r.session == e.session
    && |r.models| == |e.models| + (if Plans(e, m) then 0 else 1)
    && (!Plans(e, m) ==> r.models[|e.models|].model == m && Names(r.models[|e.models|].backends) == {b})
    && forall j :: 0 <= j < |e.models| ==>
         && r.models[j].model == e.models[j].model
         && Names(r.models[j].backends) == Names(e.models[j].backends) + (if e.models[j].model == m then {b} else {})
  }

  lemma AddToEntryShape(e: SessionPlans, m: string, bp: BackendPlan)
    requires EntryShape(e) && !EntryRuns(e, m, bp.backend)
    ensures var r := AddToEntry(e, e.session, m, bp); EntryShape(r) && Grown(r, e, m, bp.backend)
  {
    var j := FirstPlan(e.models, m);
    PlansIsFirst(e, m);
    if j < |e.models| {
      var before := e.models[j].backends;
      NamesSnoc(before, bp);
      forall k | 0 <= k < |before| ensures before[k].backend != bp.backend {
        assert before[k].backend in Names(before);
      }
      assert DistinctNames(before + [bp]);
    } else {
      NamesSnoc([], bp);
      assert [bp] == [] + [bp];
    }
  }

  lemma GrownRuns(r: SessionPlans, e: SessionPlans, m: string, b: string, x: string, y: string)
    requires Grown(r, e, m, b)
    ensures EntryRuns(r, x, y) <==> EntryRuns(e, x, y) || (x == m && y == b)
  {
    if EntryRuns(e, x, y) {
      var j :| 0 <= j < |e.models| && e.models[j].model == x && y in Names(e.models[j].backends);
      assert y in Names(r.models[j].backends);
    }
    if Plans(e, m) {
      var j :| 0 <= j < |e.models| && e.models[j].model == m;
      assert b in Names(r.models[j].backends);
    } else {
      assert b in Names(r.models[|e.models|].backends);
    }
  }

  // ---- All sessions of a model --------------------------------------------------------------

  function NewEntry(s: string, m: string, bp: BackendPlan): SessionPlans {
    SessionPlans(s, [CModelPlan(m, s, [bp])])
  }

  /** The table after adding a placement: the listed sessions grow, the others stay, and the
    * listed sessions that had no entry get one. */
  predicate GrownTable(r: Table, t: Table, ss: seq<string>, m: string, bp: BackendPlan) {
    && |t| <= |r|
    && (forall i :: 0 <= i < |t| ==>
          r[i] == if t[i].session in ss then AddToEntry(t[i], t[i].session, m, bp) else t[i])
    && (forall i :: |t| <= i < |r| ==> r[i].session in ss && !HasSession(t, r[i].session) && r[i] == NewEntry(r[i].session, m, bp))
    && (forall s :: s in ss ==> HasSession(r, s))
    && DistinctSessions(r)
  }

  lemma AddToEntrySession(e: SessionPlans, m: string, bp: BackendPlan)
    ensures AddToEntry(e, e.session, m, bp).session == e.session
  {
  }

  lemma {:induction false} AddPlansTable(t: Table, ss: seq<string>, m: string, bp: BackendPlan)
    requires DistinctSessions(t) && DistinctStrings(ss)
    ensures GrownTable(AddPlans(t, ss, m, bp), t, ss, m, bp)
  {
    if ss != [] {
      var init, s := ss[..|ss| - 1], ss[|ss| - 1];
      assert ss == init + [s];
      AddPlansTable(t, init, m, bp);
      AddPlanStep(AddPlans(t, init, m, bp), t, init, s, m, bp);
    }
  }

  lemma AddPlanStep(r: Table, t: Table, init: seq<string>, s: string, m: string, bp: BackendPlan)
    requires DistinctSessions(t) && s !in init
    requires GrownTable(r, t, init, m, bp)
    ensures GrownTable(AddPlan(r, s, m, bp), t, init + [s], m, bp)
  {
    var r', i, ss := AddPlan(r, s, m, bp), IndexOf(r, s), init + [s];
    forall k | 0 <= k < |t| ensures r[k].session == t[k].session {
      AddToEntrySession(t[k], m, bp);
    }
    assert i < |r| ==> i < |t| && t[i].session == s;
    if i < |r| {
      AddToEntrySession(t[i], m, bp);
    }
    assert forall k :: 0 <= k < |r| ==> r'[k].session == r[k].session;
    if i == |r| {
      forall k | 0 <= k < |t| ensures t[k].session != s {
        assert r[k].session == t[k].session;
      }
    }
    forall x | x in ss ensures HasSession(r', x) {
      if x == s {
        assert r'[i].session == s;
      } else {
        var k :| 0 <= k < |r| && r[k].session == x;
        assert r'[k].session == x;
      }
    }
  }

  /** The sessions that gain the placement are all those with the model, or the model is new. */
  predicate ServesAll(t: Table, ss: seq<string>, m: string) {
    || Unplanned(t, m)
    || ((forall i :: 0 <= i < |t| ==> (t[i].session in ss <==> Plans(t[i], m)))
        && forall s :: s in ss ==> HasSession(t, s))
  }

  lemma AddPlansShape(t: Table, ss: seq<string>, m: string, bp: BackendPlan)
    requires Shape(t) && DistinctStrings(ss) && !Runs(t, m, bp.backend)
    ensures Shape(AddPlans(t, ss, m, bp))
    ensures forall x, y :: Runs(AddPlans(t, ss, m, bp), x, y) <==>
              Runs(t, x, y) || (ss != [] && x == m && y == bp.backend)
  {
    AddPlansTable(t, ss, m, bp);
    var r := AddPlans(t, ss, m, bp);
    forall i | 0 <= i < |r| ensures EntryShape(r[i]) {
      if i < |t| {
        assert !EntryRuns(t[i], m, bp.backend);
        AddToEntryShape(t[i], m, bp);
      }
    }
    forall x, y ensures Runs(r, x, y) <==> Runs(t, x, y) || (ss != [] && x == m && y == bp.backend) {
      GrownTableRuns(r, t, ss, m, bp, x, y);
    }
  }

  lemma NewEntryRuns(s: string, m: string, bp: BackendPlan, x: string, y: string)
    ensures EntryRuns(NewEntry(s, m, bp), x, y) <==> x == m && y == bp.backend
  {
    var e := NewEntry(s, m, bp);
    NamesSnoc([], bp);
    assert [bp] == [] + [bp];
    assert e.models[0].model == m && Names(e.models[0].backends) == {bp.backend};
  }

  lemma GrownTableRuns(r: Table, t: Table, ss: seq<string>, m: string, bp: BackendPlan, x: string, y: string)
    requires Shape(t) && !Runs(t, m, bp.backend)
    requires GrownTable(r, t, ss, m, bp)
    ensures Runs(r, x, y) <==> Runs(t, x, y) || (ss != [] && x == m && y == bp.backend)
  {
    forall i | 0 <= i < |t|
      ensures EntryRuns(r[i], x, y) <==> EntryRuns(t[i], x, y) || (t[i].session in ss && x == m && y == bp.backend)
    {
      assert !EntryRuns(t[i], m, bp.backend);
      if t[i].session in ss {
        AddToEntryShape(t[i], m, bp);
        GrownRuns(r[i], t[i], m, bp.backend, x, y);
      }
    }
    forall i | |t| <= i < |r| ensures EntryRuns(r[i], x, y) <==> x == m && y == bp.backend {
      NewEntryRuns(r[i].session, m, bp, x, y);
    }
    if ss != [] && x == m && y == bp.backend {
      assert ss[0] in ss;
      var i :| 0 <= i < |r| && r[i].session == ss[0];
      if i < |t| {
        AddToEntrySession(t[i], m, bp);
      }
    }
  }

  lemma AddPlansHosts(t: Table, ss: seq<string>, m: string, bp: BackendPlan, i: nat, j: nat)
    requires Shape(t) && SameHosts(t) && DistinctStrings(ss) && !Runs(t, m, bp.backend) && ServesAll(t, ss, m)
    requires i < |AddPlans(t, ss, m, bp)| && j < |AddPlans(t, ss, m, bp)[i].models|
    ensures var p := AddPlans(t, ss, m, bp)[i].models[j];
            Names(p.backends) == Hosts(t, p.model) + (if p.model == m then {bp.backend} else {})
  {
    AddPlansTable(t, ss, m, bp);
    var r := AddPlans(t, ss, m, bp);
    if Unplanned(t, m) {
      UnplannedHosts(t, m);
    }
    if i >= |t| {
      NewEntryRuns(r[i].session, m, bp, m, bp.backend);
      NamesSnoc([], bp);
      assert [bp] == [] + [bp];
    } else if t[i].session in ss {
      assert !EntryRuns(t[i], m, bp.backend);
      AddToEntryShape(t[i], m, bp);
      if j < |t[i].models| {
        assert Names(t[i].models[j].backends) == Hosts(t, t[i].models[j].model);
      }
    } else {
      assert Names(t[i].models[j].backends) == Hosts(t, t[i].models[j].model);
      NotServed(t, ss, m, i, j);
    }
  }

  lemma NotServed(t: Table, ss: seq<string>, m: string, i: nat, j: nat)
    requires ServesAll(t, ss, m) && i < |t| && j < |t[i].models| && t[i].session !in ss
    ensures t[i].models[j].model != m
  {
    assert Plans(t[i], t[i].models[j].model);
  }

  lemma AddPlansSameHosts(t: Table, ss: seq<string>, m: string, bp: BackendPlan)
    requires Shape(t) && SameHosts(t) && DistinctStrings(ss) && !Runs(t, m, bp.backend) && ServesAll(t, ss, m)
    ensures SameHosts(AddPlans(t, ss, m, bp))
  {
    var r := AddPlans(t, ss, m, bp);
    forall i, k | 0 <= i < |r| && 0 <= k < |r[i].models|
      ensures Names(r[i].models[k].backends) ==
              Hosts(t, r[i].models[k].model) + (if r[i].models[k].model == m then {bp.backend} else {})
    {
      AddPlansHosts(t, ss, m, bp, i, k);
    }
    SameHostsFrom(r, x => Hosts(t, x) + (if x == m then {bp.backend} else {}));
  }
}
