/** How a deployed model comes to an end: that it can, when it is safe, and when it delivers everything. */
module Shutdown {
  import opened Options
  import opened Network
  import opened NetworkProgress
  import opened Wiring
  import opened WiringSafety

  function Start(w: Chain): State {
    State(seq(w.queues, _ => []), seq(w.flags, _ => false), seq(|w.nodes|, _ => Idle), multiset{})
  }

  lemma Deployable(cs: seq<Component>)
    requires Proper(cs)
    ensures var w := Deployed(cs);
            && w.nodes != [] && Sized(w.nodes, Start(w)) && FreshStart(Start(w))
            && HasOutputs(w.nodes) && OrderedStops(w.nodes) && SourceReader(w.nodes) && AllRead(w.nodes, w.queues)
            && InRange(w.nodes, w.queues, w.flags) && w.nodes[0].input == SOURCE
  {
    WireSound(cs, |cs|);
    hide Wire;
    SoundIsDeployable(Deployed(cs));
  }

  lemma SoundIsDeployable(w: Chain)
    requires Sound(w, {}) && w.nodes != []
    ensures Sized(w.nodes, Start(w)) && FreshStart(Start(w)) && SourceReader(w.nodes) && AllRead(w.nodes, w.queues)
    ensures w.nodes[0].input == SOURCE
  {
    hide HasOutputs, OrderedStops;
    forall n | 0 <= n < |w.nodes| ensures NodeInRange(w.nodes[n], w.queues, w.flags) {
    }
  }

  /** From every state that a deployed model can get into, whatever its components, a run leads to the
    * exit of all its processes. */
  lemma DeployedCanEnd(cs: seq<Component>, before: seq<Step>, s: State) returns (steps: seq<Step>, r: State)
    requires Proper(cs)
    requires Sized(Deployed(cs).nodes, Start(Deployed(cs))) && Reaches(Deployed(cs).nodes, Start(Deployed(cs)), before, s)
    ensures Sized(Deployed(cs).nodes, s) && Reaches(Deployed(cs).nodes, s, steps, r) && AllExited(r) && r.admitted == s.admitted
  {
    Deployable(cs);
    hide Deployed;
    steps, r := CanEnd(Deployed(cs).nodes, Start(Deployed(cs)), before, s);
  }

  // ---- When it is safe -------------------------------------------------------------------------------------------

  /** Whoever is in its last round reads a queue whose writers have all exited. */
  predicate LastReadsSafe(nodes: seq<Node>, s: State)
    requires Sized(nodes, s)
  {
    forall n, w :: 0 <= n < |nodes| && 0 <= w < |nodes| && LastRound(s.phases[n]) && nodes[n].input in nodes[w].outputs ==>
      s.phases[w].Exited?
  }

  ghost predicate AlwaysSafe(w: Chain)
    requires Sized(w.nodes, Start(w))
  {
    forall steps: seq<Step>, r: State :: Reaches(w.nodes, Start(w), steps, r) ==> Sized(w.nodes, r) && LastReadsSafe(w.nodes, r)
  }

  lemma SingleIsSafe(cs: seq<Component>)
    requires Proper(cs) && SingleOutputs(cs)
    ensures Sized(Deployed(cs).nodes, Start(Deployed(cs))) && AlwaysSafe(Deployed(cs))
  {
    Deployable(cs);
    var ups := WireLinked(cs, |cs|);
    var w := Deployed(cs);
    hide Deployed, Wire, WellWired;
    FreshIsSafe(w.nodes, ups, Start(w));
    forall steps: seq<Step>, r: State | Reaches(w.nodes, Start(w), steps, r)
      ensures Sized(w.nodes, r) && LastReadsSafe(w.nodes, r)
    {
      EveryRunIsSafe(w.nodes, ups, Start(w), steps, r);
      forall n, u | 0 <= n < |w.nodes| && 0 <= u < |w.nodes| && LastRound(r.phases[n]) && w.nodes[n].input in w.nodes[u].outputs
        ensures r.phases[u].Exited?
      {
        WritersGone(w.nodes, ups, r, n, u);
      }
    }
  }

  /** Where a component that is not the last has several output processes: the first of them, the
    * second, and the input process of the next component. */
  lemma SharedFlag(cs: seq<Component>, i: nat) returns (u: nat, n: nat, f: nat)
    requires Proper(cs) && i < |cs| - 1 && cs[i].postprocessors != 1
    ensures var nodes := Deployed(cs).nodes;
            && u + 1 < n < |nodes| && nodes[u].next == Some(f) && nodes[n].stops == [f]
            && nodes[n].input in nodes[u + 1].outputs
            && n == |Wire(cs, i + 1).nodes| && nodes[n].input == Wire(cs, i + 1).source
  {
    hide *;
    u, f := FirstTwo(cs, i);
    n := |Wire(cs, i + 1).nodes|;
    NextInput(cs, i + 1);
    WireKeeps(cs, i + 1, u);
    WireKeeps(cs, i + 1, u + 1);
  }

  /** The first two output processes of the component. */
  lemma FirstTwo(cs: seq<Component>, i: nat) returns (u: nat, f: nat)
    requires Proper(cs) && i < |cs| - 1 && cs[i].postprocessors != 1
    ensures var o := Wire(cs, i + 1);
            u + 1 < |o.nodes| && o.nodes[u].next == Some(f) && o.nodes[u + 1].outputs == {o.source} && o.stop == f
  {
    assert cs[i].postprocessors > 1;
    WireEnds(cs, i);
    hide Proper, Wire, Work, InputStage;
    var v := Work(InputStage(Wire(cs, i)), cs[i], Wire(cs, i).queues);
    u, f := |v.nodes|, v.flags;
    FirstOutputs(v, cs[i].postprocessors);
  }

  lemma WireKeeps(cs: seq<Component>, m: nat, i: nat)
    requires m <= |cs| && i < |Wire(cs, m).nodes|
    ensures i < |Deployed(cs).nodes| && Deployed(cs).nodes[i] == Wire(cs, m).nodes[i]
  {
    hide Wire;
    WirePrefix(cs, m, |cs|);
    PrefixAt(Wire(cs, m).nodes, Wire(cs, |cs|).nodes, i);
  }

  lemma WireEnds(cs: seq<Component>, i: nat)
    requires i < |cs| - 1
    ensures var w := Wire(cs, i); Wire(cs, i + 1) == OutputStage(Work(InputStage(w), cs[i], w.queues), cs[i].postprocessors, false)
    ensures Deployed(cs) == Wire(cs, |cs|)
  {
    WireNext(cs, i);
    hide Wire, Work, InputStage, OutputStage;
  }

  lemma FirstOutputs(v: Chain, p: nat)
    requires p > 1
    ensures var o, u := OutputStage(v, p, false), |v.nodes|;
            u + 1 < |o.nodes| && o.nodes[u].next == Some(v.flags) && o.nodes[u + 1].outputs == {o.source} && o.stop == v.flags
  {
  }

  lemma PrefixAt<T>(a: seq<T>, b: seq<T>, i: nat)
    requires a <= b && i < |a|
    ensures i < |b| && a[i] == b[i]
  {
  }

  /** The next component begins with its input process. */
  lemma NextInput(cs: seq<Component>, i: nat)
    requires i < |cs|
    ensures var w, all := Wire(cs, i), Deployed(cs).nodes;
            |w.nodes| < |all| && all[|w.nodes|].input == w.source && all[|w.nodes|].stops == [w.stop]
  {
    hide *;
    var w, all, last := Wire(cs, i), Deployed(cs).nodes, i + 1 == |cs|;
    AttachedPrefix(cs, i);
    InputFirst(w, cs[i], last);
    PrefixAt(Attach(w, cs[i], last).nodes, all, |w.nodes|);
  }

  lemma AttachedPrefix(cs: seq<Component>, i: nat)
    requires i < |cs|
    ensures Attach(Wire(cs, i), cs[i], i + 1 == |cs|).nodes <= Deployed(cs).nodes
  {
    hide Wire, Attach;
    WireNext(cs, i);
    WirePrefix(cs, i + 1, |cs|);
  }

  lemma InputFirst(w: Chain, c: Component, last: bool)
    ensures var all := Attach(w, c, last).nodes;
            |w.nodes| < |all| && all[|w.nodes|].input == w.source && all[|w.nodes|].stops == [w.stop]
  {
    hide PipelinedStage, CustomStage, Outputs;
    WorkShape(InputStage(w), c, w.queues);
    var v := Work(InputStage(w), c, w.queues);
    assert InputStage(w).nodes <= v.nodes <= Attach(w, c, last).nodes;
  }

  /** With several output processes the next stage can enter its last round as soon as the first of
    * them has exited. */
  lemma SeveralAreUnsafe(cs: seq<Component>, i: nat) returns (steps: seq<Step>, r: State)
    requires Proper(cs) && i < |cs| - 1 && cs[i].postprocessors != 1
    ensures var w := Deployed(cs);
            Sized(w.nodes, Start(w)) && Reaches(w.nodes, Start(w), steps, r) && Sized(w.nodes, r) && !LastReadsSafe(w.nodes, r)
  {
    Deployable(cs);
    var u, n, f := SharedFlag(cs, i);
    hide *;
    steps, r := UnsafeRun(Deployed(cs), u, n, f);
  }

  lemma UnsafeRun(w: Chain, u: nat, n: nat, f: nat) returns (steps: seq<Step>, r: State)
    requires w.nodes != [] && Sized(w.nodes, Start(w)) && HasOutputs(w.nodes) && OrderedStops(w.nodes)
    requires u + 1 < n < |w.nodes| && w.nodes[u].next == Some(f) && w.nodes[n].stops == [f]
    requires w.nodes[n].input in w.nodes[u + 1].outputs
    ensures Reaches(w.nodes, Start(w), steps, r) && Sized(w.nodes, r) && !LastReadsSafe(w.nodes, r)
  {
    hide Reaches, LastReadsSafe, HasOutputs, OrderedStops;
    var start := Start(w);
    var stopped := Do(w.nodes, start, RequestStop);
    OneStep(w.nodes, start, RequestStop);
    var before, m := ExitFirst(w.nodes, stopped, u + 1);
    RunOn(w.nodes, start, [RequestStop], stopped, before, m);
    assert m.phases[u].Exited? && m.flags[f];
    assert m.phases[n].Idle? && m.phases[u + 1].Idle?;
    LastRoundTooSoon(w.nodes, m, u + 1, n, f);
    Then(w.nodes, start, [RequestStop] + before, m, Check(n));
    steps, r := [RequestStop] + before + [Check(n)], Do(w.nodes, m, Check(n));
  }

  lemma LastRoundTooSoon(nodes: seq<Node>, s: State, u: nat, n: nat, f: nat)
    requires Sized(nodes, s) && u < n < |nodes| && nodes[n].stops == [f] && nodes[n].input in nodes[u].outputs
    requires f < |s.flags| && s.flags[f] && s.phases[n].Idle? && s.phases[u].Idle?
    ensures Enabled(nodes, s, Check(n)) && !LastReadsSafe(nodes, Do(nodes, s, Check(n)))
  {
    var r := Do(nodes, s, Check(n));
    assert StopSeen(nodes, s, n);
    assert LastRound(r.phases[n]) && !r.phases[u].Exited?;
  }

  /** In every interleaving whoever is in its last round reads a queue whose writers have all exited, if
    * and only if every component but the last has exactly one output process. */
  lemma SafeIffSingleOutputs(cs: seq<Component>)
    requires Proper(cs)
    ensures Sized(Deployed(cs).nodes, Start(Deployed(cs)))
    ensures AlwaysSafe(Deployed(cs)) <==> SingleOutputs(cs)
  {
    Deployable(cs);
    if SingleOutputs(cs) {
      SingleIsSafe(cs);
    } else {
      var i :| 0 <= i < |cs| - 1 && cs[i].postprocessors != 1;
      var steps, r := SeveralAreUnsafe(cs, i);
      hide Deployed, LastReadsSafe;
      assert Reaches(Deployed(cs).nodes, Start(Deployed(cs)), steps, r);
    }
  }

  // ---- When it delivers everything -----------------------------------------------------------------------------------

  /** Once all processes have exited, every admitted request has come out, as often as it was admitted,
    * if and only if the final read of every queue found no more than its reader may take. */
  lemma DeployedDeliversIff(cs: seq<Component>, steps: seq<Step>, r: State)
    requires Proper(cs) && SingleOutputs(cs)
    requires var w := Deployed(cs); Sized(w.nodes, Start(w)) && Reaches(w.nodes, Start(w), steps, r) && AllExited(r)
    ensures var w := Deployed(cs);
            SINK < |r.queues| && (SumGroups(r.queues[SINK]) == r.admitted <==> AllFinalReadsFit(w.nodes, Start(w), steps))
  {
    Deployable(cs);
    var ups := WireLinked(cs, |cs|);
    var w := Deployed(cs);
    hide Deployed, Wire, WellWired, Reaches, AllFinalReadsFit;
    DeliversIff(w.nodes, ups, Start(w), steps, r);
  }

  /** No limited last read, final or not, finds more than DRAIN_LIMIT groups. */
  ghost predicate RunWithinLimit(nodes: seq<Node>, s: State, steps: seq<Step>)
    requires Sized(nodes, s)
    decreases |steps|
  {
    steps != [] && Enabled(nodes, s, steps[0]) ==>
      && (steps[0].Take? && s.phases[steps[0].n].last ==> Fits(nodes, s, steps[0]))
      && RunWithinLimit(nodes, Do(nodes, s, steps[0]), steps[1..])
  }

  lemma {:induction false} WithinLimitFits(nodes: seq<Node>, s: State, steps: seq<Step>, q: nat)
    requires Sized(nodes, s) && RunWithinLimit(nodes, s, steps)
    ensures FinalReadFits(nodes, s, steps, q)
    decreases |steps|
  {
    if steps != [] && Enabled(nodes, s, steps[0]) {
      WithinLimitFits(nodes, Do(nodes, s, steps[0]), steps[1..], q);
    }
  }

  /** In particular a shutdown within the limit delivers everything. */
  lemma DeployedModelDelivers(cs: seq<Component>, steps: seq<Step>, r: State)
    requires Proper(cs) && SingleOutputs(cs)
    requires var w := Deployed(cs); Sized(w.nodes, Start(w)) && Reaches(w.nodes, Start(w), steps, r) && AllExited(r)
    requires RunWithinLimit(Deployed(cs).nodes, Start(Deployed(cs)), steps)
    ensures SINK < |r.queues| && SumGroups(r.queues[SINK]) == r.admitted
  {
    hide Deployed, Reaches, RunWithinLimit;
    var w := Deployed(cs);
    DeployedDeliversIff(cs, steps, r);
    forall q | 0 <= q < |Start(w).queues| && q != SINK ensures FinalReadFits(w.nodes, Start(w), steps, q) {
      WithinLimitFits(w.nodes, Start(w), steps, q);
    }
  }

  // ---- A condition on what is admitted ------------------------------------------------------------------------------

  lemma SubsetSize(a: Group, b: Group)
    requires a <= b
    ensures |a| <= |b|
  {
    assert b == a + (b - a);
  }

  /** A queue without empty messages holds no more messages than requests. */
  lemma {:induction false} MessagesAreRequests(q: seq<Group>)
    requires forall i :: 0 <= i < |q| ==> q[i] != multiset{}
    ensures |q| <= |SumGroups(q)|
  {
    if q != [] {
      MessagesAreRequests(q[..|q| - 1]);
      assert |q[|q| - 1]| > 0;
    }
  }

  /** And no queue holds more than was admitted. */
  lemma QueueWithinAdmitted(s: State, q: nat)
    requires Conserved(s) && NoEmptyGroup(s) && q < |s.queues|
    ensures |s.queues[q]| <= |s.admitted|
  {
    forall x: Req ensures SumGroups(s.queues[q])[x] <= s.admitted[x] {
      InQueueIsSum(s.queues[q], x);
      OtherQueues(s.queues, q, x);
    }
    MessagesAreRequests(s.queues[q]);
    SubsetSize(SumGroups(s.queues[q]), s.admitted);
  }

  lemma {:induction false} OnlyMoreAdmitted(nodes: seq<Node>, s: State, steps: seq<Step>, r: State)
    requires Sized(nodes, s) && Reaches(nodes, s, steps, r)
    ensures s.admitted <= r.admitted
    decreases |steps|
  {
    if steps != [] {
      OnlyMoreAdmitted(nodes, Do(nodes, s, steps[0]), steps[1..], r);
    }
  }

  /** A run that admits no more requests than the limit keeps within it. */
  lemma {:induction false} FewAdmittedFits(nodes: seq<Node>, s: State, steps: seq<Step>, r: State)
    requires Sized(nodes, s) && Conserved(s) && NoEmptyGroup(s) && Reaches(nodes, s, steps, r) && |r.admitted| <= DRAIN_LIMIT
    ensures RunWithinLimit(nodes, s, steps)
    decreases |steps|
  {
    if steps != [] {
      hide Conserved, NoEmptyGroup;
      var step := steps[0];
      if step.Take? && s.phases[step.n].last {
        QueueWithinAdmitted(s, nodes[step.n].input);
        OnlyMoreAdmitted(nodes, s, steps, r);
        SubsetSize(s.admitted, r.admitted);
      }
      StepConserves(nodes, s, step);
      StepKeepsGroups(nodes, s, step);
      FewAdmittedFits(nodes, Do(nodes, s, step), steps[1..], r);
    }
  }

  /** All requests of a run have come out. */
  predicate Delivered(r: State) {
    SINK < |r.queues| && SumGroups(r.queues[SINK]) == r.admitted
  }

  /** Whoever admits at most DRAIN_LIMIT requests to a model that ends each component but the last in one
    * output process gets them all, in every complete run. */
  lemma FewAreDelivered(cs: seq<Component>, steps: seq<Step>, r: State)
    requires Proper(cs) && SingleOutputs(cs)
    requires var w := Deployed(cs); Sized(w.nodes, Start(w)) && Reaches(w.nodes, Start(w), steps, r) && AllExited(r)
    requires |r.admitted| <= DRAIN_LIMIT
    ensures Delivered(r)
  {
    Deployable(cs);
    hide Deployed, Reaches, RunWithinLimit;
    var w := Deployed(cs);
    FreshIsConserved(Start(w));
    FewAdmittedFits(w.nodes, Start(w), steps, r);
    DeployedModelDelivers(cs, steps, r);
  }
}
