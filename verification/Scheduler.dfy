/** The scheduler process around the policy: it knows which backends are alive and keeps its own
  * copy of the last requests. */
module Scheduler {
  import opened PolicyModel
  import opened PolicyBudget
  import opened PolicyInvariants
  import opened PolicyRuns
  import opened PolicyComponents
  import opened SchedulingCall
  import opened SchedulingPolicy
  import opened Regrouping

  /** A registered backend and when it was last heard of. */
  datatype Runtime = Runtime(backend: Backend, lastAlive: real)

  function Reported(rs: seq<Runtime>): (bs: seq<Backend>)
    ensures |bs| == |rs|
  {
    seq(|rs|, k requires 0 <= k < |rs| => rs[k].backend)
  }

  predicate Known(rs: seq<Runtime>, name: string) {
    exists k :: 0 <= k < |rs| && rs[k].backend.name == name
  }

  function Alive(rs: seq<Runtime>, now: real, timeout: real): seq<Runtime> {
    if rs == [] then []
    else
      var rest, r := Alive(rs[..|rs| - 1], now, timeout), rs[|rs| - 1];
      if now - r.lastAlive > timeout then rest else rest + [r]
  }

  /** Exactly the backends heard of recently are left; nothing is left out exactly if all were. */
  lemma {:induction false} AliveExact(rs: seq<Runtime>, now: real, timeout: real)
    ensures forall r :: r in Alive(rs, now, timeout) <==> r in rs && now - r.lastAlive <= timeout
    ensures |Alive(rs, now, timeout)| <= |rs|
    ensures |Alive(rs, now, timeout)| == |rs| <==> forall k :: 0 <= k < |rs| ==> now - rs[k].lastAlive <= timeout
  {
    if rs != [] {
      AliveExact(rs[..|rs| - 1], now, timeout);
      assert rs == rs[..|rs| - 1] + [rs[|rs| - 1]];
    }
  }

  class NxsSchedulerProcess {
    const policy: SimpleSchedulingPolicy
    const timeout: real
    var lastRequests: array<Request>
    var runtimes: seq<Runtime>

    /** The stored requests are as they were registered; the policy has the same ones with the
      * pipeline put in front of each session once. */
    ghost predicate Valid(w: World)
      reads this, policy, lastRequests
    {
      && policy.Valid(w)
      && policy.lastRequests == Stored(Keyed(lastRequests[..]))
      && forall i :: 0 <= i < lastRequests.Length ==> Offered(w, lastRequests[i])
    }

    constructor (ghost w: World, timeout: real)
      requires WorldOk(w)
      ensures Valid(w) && fresh(policy) && fresh(lastRequests) && lastRequests.Length == 0
      ensures runtimes == [] && this.timeout == timeout
    {
      policy := new SimpleSchedulingPolicy();
      this.timeout := timeout;
      lastRequests := new Request[0] [];
      runtimes := [];
      new;
      NoPlansInv(w);
      NoNames();
    }

    lemma NoNames()
      ensures BackendNames([]) == {}
    {
    }

    // ---- Which backends there are -----------------------------------------------------------------------

    method FindRuntime(name: string) returns (k: nat)
      ensures k <= |runtimes| && (k < |runtimes| ==> runtimes[k].backend.name == name)
      ensures forall i :: 0 <= i < k ==> runtimes[i].backend.name != name
    {
      k := 0;
      while k < |runtimes| && runtimes[k].backend.name != name
        invariant k <= |runtimes|
        invariant forall i :: 0 <= i < k ==> runtimes[i].backend.name != name
      {
        k := k + 1;
      }
    }

    /** A backend that is known already is not added again. */
    method RegisterBackend(b: Backend, now: real) returns (added: bool)
      modifies this`runtimes
      ensures added <==> !Known(old(runtimes), b.name)
      ensures runtimes == if added then old(runtimes) + [Runtime(b, now)] else old(runtimes)
    {
      var k := FindRuntime(b.name);
      added := k == |runtimes|;
      if added {
        runtimes := runtimes + [Runtime(b, now)];
      }
    }

    /** A heartbeat renews a known backend; an unknown one is asked to register. */
    method ProcessHeartbeat(b: Backend, now: real) returns (known: bool)
      modifies this`runtimes
      ensures known <==> Known(old(runtimes), b.name)
      ensures |runtimes| == |old(runtimes)|
      ensures !known ==> runtimes == old(runtimes)
      ensures known ==> exists k :: 0 <= k < |runtimes| && old(runtimes)[k].backend.name == b.name && runtimes == old(runtimes)[k := Runtime(b, now)]
    {
      var k := FindRuntime(b.name);
      known := k < |runtimes|;
      if known {
        runtimes := runtimes[k := Runtime(b, now)];
      }
    }

    /** Drops the backends not heard of for longer than the timeout, and says whether there were any. */
    method HasExpiredBackends(now: real) returns (expired: bool)
      modifies this`runtimes
      ensures runtimes == Alive(old(runtimes), now, timeout)
      ensures expired <==> exists k :: 0 <= k < |old(runtimes)| && now - old(runtimes)[k].lastAlive > timeout
    {
      AliveExact(runtimes, now, timeout);
      expired := false;
      var left: seq<Runtime> := [];
      for k := 0 to |runtimes|
        invariant left == Alive(runtimes[..k], now, timeout)
        invariant expired <==> exists i :: 0 <= i < k && now - runtimes[i].lastAlive > timeout
      {
        assert runtimes[..k + 1][..k] == runtimes[..k];
        if now - runtimes[k].lastAlive > timeout {
          expired := true;
        } else {
          left := left + [runtimes[k]];
        }
      }
      assert runtimes[..|runtimes|] == runtimes;
      runtimes := left;
    }

    // ---- Scheduling -------------------------------------------------------------------------------------

    /** Whether requests may be scheduled on the given backends without sharing plans of another
      * pipeline. */
    ghost predicate Schedulable(w: World, raw: seq<Request>, bs: seq<Backend>)
      reads policy
    {
      && BackendsOk(w, bs)
      && NoDebt(bs)
      && Unshared(CallWorld(w, policy.lastRequests, Keyed(raw)), Pool(policy.table, bs),
                  BackendNames(policy.lastBackends) - BackendNames(bs), Stored(Keyed(raw)))
    }

    method Clone(reqs: array<Request>) returns (copy: array<Request>)
      ensures fresh(copy) && copy[..] == reqs[..]
    {
      if reqs.Length == 0 {
        copy := new Request[0] [];
      } else {
        var first := reqs[0];
        copy := new Request[reqs.Length](_ => first);
      }
      for i := 0 to reqs.Length
        modifies copy
        invariant copy.Length == reqs.Length
        invariant copy[..i] == reqs[..i]
      {
        copy[i] := reqs[i];
        assert copy[..i + 1] == copy[..i] + [copy[i]];
      }
    }

    /** The backends as they are reported to the policy. */
    method Report() returns (bs: seq<Backend>)
      ensures bs == Reported(runtimes)
    {
      bs := [];
      for k := 0 to |runtimes|
        invariant |bs| == k && forall i :: 0 <= i < k ==> bs[i] == runtimes[i].backend
      {
        bs := bs + [runtimes[k].backend];
      }
    }

    /** The requests are copied before the policy puts the pipeline in front of their sessions, and it
      * is the copies that are kept. The messages to the backends list exactly the placements in the
      * table the policy has computed. */
    method ScheduleWorkloads(ghost w: World, reqs: array<Request>) returns (plan: seq<BackendGroup>)
      requires Valid(w) && Schedulable(w, reqs[..], Reported(runtimes))
      requires forall i :: 0 <= i < reqs.Length ==> Offered(w, reqs[i])
      modifies this`lastRequests, policy, reqs
      ensures Valid(w)
      ensures lastRequests[..] == old(reqs[..]) && fresh(lastRequests)
      ensures BackendNames(policy.lastBackends) == BackendNames(Reported(runtimes))
      ensures var bs := Reported(runtimes);
              var w1 := CallWorld(w, old(policy.lastRequests), Keyed(old(reqs[..])));
              var gone := old(BackendNames(policy.lastBackends)) - BackendNames(bs);
              Pool(policy.table, policy.lastBackends) ==
              PolicyModel.Schedule(Pool(old(policy.table), bs), w1.cat, w1.pipes, gone, policy.lastRequests)
      ensures Grouped(plan) && Listed(plan) == Placements(AllPlans(policy.table)) && AllFrom(plan, AllPlans(policy.table))
    {
      hide AllFrom, Configured, Unshared, Keyed, Stored, Grouped, Listed, Placements, AllPlans, BackendsOk, NoDebt, Offered, WorldOk, Inv,
        PolicyModel.Schedule, BackendNames, WithinBudget, Reported, PipesOf, CatOf;
      var copy := Clone(reqs);
      var bs := Report();
      plan := policy.Schedule(w, reqs, bs);
      lastRequests := copy;
    }

    method RescheduleWorkloads(ghost w: World) returns (plan: seq<BackendGroup>)
      requires Valid(w) && Schedulable(w, lastRequests[..], Reported(runtimes))
      modifies this`lastRequests, policy, lastRequests
      ensures Valid(w)
      ensures lastRequests[..] == old(lastRequests[..])
      ensures BackendNames(policy.lastBackends) == BackendNames(Reported(runtimes))
      ensures Grouped(plan) && Listed(plan) == Placements(AllPlans(policy.table)) && AllFrom(plan, AllPlans(policy.table))
    {
      plan := ScheduleWorkloads(w, lastRequests);
    }

    /** The check made from time to time: when backends have left, the last requests are scheduled
      * again, and no scheduling message of the new plan goes to a backend that has left. */
    method CheckExpired(ghost w: World, now: real) returns (plan: seq<BackendGroup>)
      requires Valid(w) && Schedulable(w, lastRequests[..], Reported(Alive(runtimes, now, timeout)))
      modifies this`lastRequests, this`runtimes, policy, lastRequests
      ensures Valid(w) && lastRequests[..] == old(lastRequests[..])
      ensures runtimes == Alive(old(runtimes), now, timeout)
      ensures runtimes == old(runtimes) ==> plan == [] && policy.table == old(policy.table)
      ensures runtimes != old(runtimes) ==> Grouped(plan) && Listed(plan) == Placements(AllPlans(policy.table)) && AllFrom(plan, AllPlans(policy.table))
      ensures forall i :: 0 <= i < |plan| ==> Known(runtimes, plan[i].backend)
    {
      hide AllFrom, Configured, Schedulable, Grouped, Listed, Placements, AllPlans, Inv, Keyed, Stored, Offered, BackendNames;
      AliveExact(runtimes, now, timeout);
      var expired := HasExpiredBackends(now);
      if expired {
        plan := RescheduleWorkloads(w);
        PlanIsForRegistered(w, runtimes, policy.table, plan);
      } else {
        AllAlive(old(runtimes), now, timeout);
        plan := [];
      }
    }
  }

  lemma {:induction false} AllAlive(rs: seq<Runtime>, now: real, timeout: real)
    requires forall k :: 0 <= k < |rs| ==> now - rs[k].lastAlive <= timeout
    ensures Alive(rs, now, timeout) == rs
  {
    if rs != [] {
      AllAlive(rs[..|rs| - 1], now, timeout);
    }
  }

  /** Every scheduling message goes to a backend the policy was told of. */
  lemma PlanIsForRegistered(w: World, rs: seq<Runtime>, t: Table, plan: seq<BackendGroup>)
    requires Inv(w, BackendNames(Reported(rs)), t) && Grouped(plan) && Listed(plan) == Placements(AllPlans(t))
    ensures forall i :: 0 <= i < |plan| ==> Known(rs, plan[i].backend)
  {
    hide Inv, Grouped, Listed, Placements, AllPlans, BackendNames, Reported;
    PlanNamesCurrent(w, BackendNames(Reported(rs)), t, plan);
    forall i | 0 <= i < |plan| ensures Known(rs, plan[i].backend) {
      ReportedIsKnown(rs, plan[i].backend);
    }
  }

  lemma ReportedIsKnown(rs: seq<Runtime>, b: string)
    requires b in BackendNames(Reported(rs))
    ensures Known(rs, b)
  {
    var k :| 0 <= k < |Reported(rs)| && Reported(rs)[k].name == b;
    assert rs[k].backend.name == b;
  }

  lemma PlanNamesCurrent(w: World, live: set<string>, t: Table, plan: seq<BackendGroup>)
    requires Inv(w, live, t) && Grouped(plan) && Listed(plan) == Placements(AllPlans(t))
    ensures forall i :: 0 <= i < |plan| ==> plan[i].backend in live
  {
    forall i | 0 <= i < |plan| ensures plan[i].backend in live {
      var m, s := SomethingListed(plan, i);
      ListedIsRuns(t, m, plan[i].backend);
      RunsOnLive(w, live, t, m, plan[i].backend);
    }
  }

  lemma RunsOnLive(w: World, live: set<string>, t: Table, m: string, b: string)
    requires Inv(w, live, t) && Runs(t, m, b)
    ensures b in live
  {
    var i :| 0 <= i < |t| && EntryRuns(t[i], m, b);
    var j :| 0 <= j < |t[i].models| && t[i].models[j].model == m && b in Names(t[i].models[j].backends);
    assert PlanFits(w, live, t[i].models[j]);
  }

  /** No scheduling message is empty. */
  lemma {:induction false} SomethingListed(groups: seq<BackendGroup>, i: nat) returns (m: string, s: string)
    requires Grouped(groups) && i < |groups|
    ensures (groups[i].backend, m, s) in Listed(groups)
  {
    var last := |groups| - 1;
    var init, g := groups[..last], groups[last];
    ListedSnoc(groups);
    hide *;
    if i < last {
      m, s := SomethingListed(init, i);
    } else {
      m, s := LastListed(g);
    }
  }

  lemma ListedSnoc(groups: seq<BackendGroup>)
    requires Grouped(groups) && groups != []
    ensures var init, g := groups[..|groups| - 1], groups[|groups| - 1];
            Grouped(init) && GroupOk(g) && Listed(groups) == Listed(init) + ModelsListed(g.backend, g.models)
  {
    hide ModelsListed, ModelsOk, SessionCount;
  }

  lemma LastListed(g: BackendGroup) returns (m: string, s: string)
    requires GroupOk(g)
    ensures (g.backend, m, s) in ModelsListed(g.backend, g.models)
  {
    var e := g.models[|g.models| - 1];
    m, s := e.model, e.sessions[|e.sessions| - 1];
    assert (g.backend, m, s) in SessionsListed(g.backend, m, e.sessions);
  }
}
