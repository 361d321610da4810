/** From the scheduler's table to the backends: what the messages of a plan make the backends serve. */
module Delivery {
  import opened Ids
  import opened PolicyModel
  import opened Regrouping
  import opened Pairs
  import BackendSessions

  /** A message as a backend goes through it: models paired with duty cycles, as far as both reach. */
  function Entries(g: BackendGroup): BackendSessions.Plan {
    var pairs := Zip(g.models, g.dutyCycles);
    seq(|pairs|, k requires 0 <= k < |pairs| => (pairs[k].0.model, pairs[k].0.sessions))
  }

  predicate ListedIn(g: BackendGroup, m: string, s: string) {
    exists j :: 0 <= j < |g.models| && g.models[j].model == m && s in g.models[j].sessions
  }

  predicate ListedAt(groups: seq<BackendGroup>, x: Placement) {
    exists i :: 0 <= i < |groups| && groups[i].backend == x.0 && ListedIn(groups[i], x.1, x.2)
  }

  lemma {:induction false} SessionsListedExact(b: string, m: string, sessions: seq<string>, x: Placement)
    ensures x in SessionsListed(b, m, sessions) <==> x.0 == b && x.1 == m && x.2 in sessions
  {
    if sessions != [] {
      assert sessions == sessions[..|sessions| - 1] + [sessions[|sessions| - 1]];
      SessionsListedExact(b, m, sessions[..|sessions| - 1], x);
    }
  }

  lemma {:induction false} ModelsListedExact(b: string, models: seq<ModelGroup>, x: Placement)
    ensures x in ModelsListed(b, models) <==> x.0 == b && exists j :: 0 <= j < |models| && models[j].model == x.1 && x.2 in models[j].sessions
  {
    if models != [] {
      var init, g := models[..|models| - 1], models[|models| - 1];
      ModelsListedExact(b, init, x);
      SessionsListedExact(b, g.model, g.sessions, x);
      assert forall j :: 0 <= j < |init| ==> models[j] == init[j];
      if j :| 0 <= j < |models| && models[j].model == x.1 && x.2 in models[j].sessions {
        assert j < |init| ==> init[j].model == x.1;
      }
    }
  }

  lemma ListedAtSnoc(init: seq<BackendGroup>, g: BackendGroup, x: Placement)
    ensures ListedAt(init + [g], x) <==> ListedAt(init, x) || (g.backend == x.0 && ListedIn(g, x.1, x.2))
  {
    hide ListedIn;
    var all := init + [g];
    assert all[|init|] == g;
    if i :| 0 <= i < |init| && init[i].backend == x.0 && ListedIn(init[i], x.1, x.2) {
      assert all[i] == init[i];
    }
  }

  lemma {:induction false} ListedExact(groups: seq<BackendGroup>, x: Placement)
    ensures x in Listed(groups) <==> ListedAt(groups, x)
  {
    if groups != [] {
      var init, g := groups[..|groups| - 1], groups[|groups| - 1];
      assert groups == init + [g];
      ListedAtSnoc(init, g, x);
      ListedExact(init, x);
      ListedInExact(g, x);
      hide ListedIn, ListedAt, ModelsListed;
    }
  }

  lemma ListedInExact(g: BackendGroup, x: Placement)
    ensures x in ModelsListed(g.backend, g.models) <==> x.0 == g.backend && ListedIn(g, x.1, x.2)
  {
    ModelsListedExact(g.backend, g.models, x);
  }

  /** Pairing with duty cycles leaves nothing out. */
  lemma EntriesExact(g: BackendGroup, m: string, s: string)
    requires GroupOk(g)
    ensures BackendSessions.Names(Entries(g), m, s) <==> ListedIn(g, m, s)
    ensures forall k :: 0 <= k < |Entries(g)| ==> Entries(g)[k].1 != []
  {
    NothingDropped(g);
    assert |Entries(g)| == |g.models|;
    assert forall k :: 0 <= k < |g.models| ==> Entries(g)[k] == (g.models[k].model, g.models[k].sessions);
    if ListedIn(g, m, s) {
      var j :| 0 <= j < |g.models| && g.models[j].model == m && s in g.models[j].sessions;
      assert Entries(g)[j].0 == m && s in Entries(g)[j].1;
    }
  }

  /** The backend of group `i` is asked to serve exactly what the table places on it. */
  lemma MessageIsExact(t: Table, groups: seq<BackendGroup>, i: nat, m: string, s: string)
    requires Grouped(groups) && Listed(groups) == Placements(AllPlans(t)) && i < |groups|
    ensures BackendSessions.Names(Entries(groups[i]), m, s) <==> (groups[i].backend, m, s) in Placements(AllPlans(t))
  {
    hide ListedIn, Listed, Placements, AllPlans, GroupOk;
    ListedExact(groups, (groups[i].backend, m, s));
    EntriesExact(groups[i], m, s);
  }

  /** End to end: whatever a backend served before, once it has handled its message it serves every
    * session that the scheduler's table places on it, and nothing that is new to it and not placed
    * there; and every backend that something is placed on has a message. Models in `broken` cannot
    * be unpacked there. */
  lemma TableIsServed(t: Table, groups: seq<BackendGroup>, b: string, m: string, s: string,
                      view: map<string, set<string>>, broken: set<string>)
    requires Grouped(groups) && Listed(groups) == Placements(AllPlans(t))
    ensures (b, m, s) in Placements(AllPlans(t)) ==> exists i :: 0 <= i < |groups| && groups[i].backend == b
    ensures forall i :: 0 <= i < |groups| && groups[i].backend == b ==>
              (BackendSessions.Serves(BackendSessions.Scheduled(view, Entries(groups[i]), broken), m, s) <==>
               BackendSessions.Serves(view, m, s) || ((b, m, s) in Placements(AllPlans(t)) && (m in view || m !in broken)))
  {
    hide ListedIn, Listed, Placements, AllPlans, Grouped, Entries, BackendSessions.Scheduled;
    ListedExact(groups, (b, m, s));
    forall i | 0 <= i < |groups| && groups[i].backend == b
      ensures BackendSessions.Serves(BackendSessions.Scheduled(view, Entries(groups[i]), broken), m, s) <==>
              BackendSessions.Serves(view, m, s) || ((b, m, s) in Placements(AllPlans(t)) && (m in view || m !in broken))
    {
      MessageIsExact(t, groups, i, m, s);
      BackendSessions.ScheduledExact(view, Entries(groups[i]), broken, m, s);
    }
  }

  /** In terms of the table itself: a session with a model on a backend is served there, under the id
    * it was registered with. */
  lemma SessionIsServed(t: Table, groups: seq<BackendGroup>, i: nat, j: nat, b: string, view: map<string, set<string>>)
    requires Grouped(groups) && Listed(groups) == Placements(AllPlans(t))
    requires i < |t| && j < |t[i].models| && b in Names(t[i].models[j].backends)
    ensures exists g :: g in groups && g.backend == b
    ensures forall g :: g in groups && g.backend == b ==>
              BackendSessions.Serves(BackendSessions.Scheduled(view, Entries(g), {}), t[i].models[j].model, LastSegment(t[i].models[j].session))
  {
    hide Listed, Grouped, Entries, Placements, AllPlans, BackendSessions.Scheduled;
    var p := t[i].models[j];
    var x := (b, p.model, LastSegment(p.session));
    AllPlansExact(t);
    assert p in AllPlans(t) && Places(p, x);
    PlacementsExact(AllPlans(t), x);
    TableIsServed(t, groups, b, x.1, x.2, view, {});
  }
}
