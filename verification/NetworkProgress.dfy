/** From every state a network can come to an end: once the outside stop flag is set, its processes
  * can exit one after the other. */
module NetworkProgress {
  import opened Options
  import opened Network

  // ---- Putting runs together ------------------------------------------------------------------------------

  lemma {:induction false} RunOn(nodes: seq<Node>, s: State, a: seq<Step>, m: State, b: seq<Step>, r: State)
    requires Sized(nodes, s) && Reaches(nodes, s, a, m)
    requires Sized(nodes, m) ==> Reaches(nodes, m, b, r)
    ensures Sized(nodes, m) && Reaches(nodes, s, a + b, r)
    decreases |a|
  {
    hide *;
    if a == [] {
      NoSteps(nodes, s, m);
      assert a + b == b;
    } else {
      FirstStep(nodes, s, a, m);
      RunOn(nodes, Do(nodes, s, a[0]), a[1..], m, b, r);
      First(nodes, s, a[0], a[1..] + b, r);
      assert [a[0]] + (a[1..] + b) == a + b;
    }
  }

  lemma NoSteps(nodes: seq<Node>, s: State, m: State)
    requires Sized(nodes, s) && Reaches(nodes, s, [], m)
    ensures m == s
  {
  }

  lemma FirstStep(nodes: seq<Node>, s: State, steps: seq<Step>, m: State)
    requires Sized(nodes, s) && Reaches(nodes, s, steps, m) && steps != []
    ensures Enabled(nodes, s, steps[0]) && Reaches(nodes, Do(nodes, s, steps[0]), steps[1..], m)
  {
  }

  /** One more step at the beginning of a run. */
  lemma First(nodes: seq<Node>, s: State, step: Step, steps: seq<Step>, r: State)
    requires Sized(nodes, s) && Enabled(nodes, s, step) && Reaches(nodes, Do(nodes, s, step), steps, r)
    ensures Reaches(nodes, s, [step] + steps, r)
  {
    hide Enabled, Do, Sized;
    assert ([step] + steps)[1..] == steps;
  }

  lemma OneStep(nodes: seq<Node>, s: State, step: Step)
    requires Sized(nodes, s) && Enabled(nodes, s, step)
    ensures Reaches(nodes, s, [step], Do(nodes, s, step))
  {
  }

  /** One more step at the end of a run. */
  lemma Then(nodes: seq<Node>, s: State, steps: seq<Step>, m: State, step: Step)
    requires Sized(nodes, s) && Reaches(nodes, s, steps, m)
    requires Sized(nodes, m) ==> Enabled(nodes, m, step)
    ensures Sized(nodes, m) && Reaches(nodes, s, steps + [step], Do(nodes, m, step))
  {
    if Sized(nodes, m) {
      OneStep(nodes, m, step);
      RunOn(nodes, s, steps, m, [step], Do(nodes, m, step));
    } else {
      RunOn(nodes, s, steps, m, [], m);
    }
  }

  // ---- What makes an end possible ---------------------------------------------------------------------------

  /** Every flag a node waits for is the outside one or is set by an earlier node. */
  predicate OrderedStops(nodes: seq<Node>) {
    forall n, f :: 0 <= n < |nodes| && f in nodes[n].stops ==> f == STOP || SetBefore(nodes, n, f)
  }

  predicate SetBefore(nodes: seq<Node>, n: nat, f: nat) {
    exists u :: 0 <= u < n && u < |nodes| && nodes[u].next == Some(f)
  }

  /** Every node can put out what it has in hand. */
  predicate HasOutputs(nodes: seq<Node>) {
    forall n :: 0 <= n < |nodes| ==> nodes[n].outputs != {}
  }

  /** Who has exited has set its flag. */
  predicate ExitsSignalled(nodes: seq<Node>, s: State)
    requires Sized(nodes, s)
  {
    forall n :: 0 <= n < |nodes| && s.phases[n].Exited? && nodes[n].next.Some? ==> s.flags[nodes[n].next.value]
  }

  lemma {:induction false} EveryRunSignals(nodes: seq<Node>, s: State, steps: seq<Step>, r: State)
    requires Sized(nodes, s) && ExitsSignalled(nodes, s) && Reaches(nodes, s, steps, r)
    ensures Sized(nodes, r) && ExitsSignalled(nodes, r)
    decreases |steps|
  {
    if steps != [] {
      EveryRunSignals(nodes, Do(nodes, s, steps[0]), steps[1..], r);
    }
  }

  /** `r` is `s` but for node `n`, the queues and more flags set. */
  predicate OnlyNode(r: State, s: State, n: nat) {
    && |r.phases| == |s.phases| && |r.flags| == |s.flags| && r.admitted == s.admitted
    && (forall m :: 0 <= m < |s.phases| && m != n ==> r.phases[m] == s.phases[m])
    && forall f :: 0 <= f < |s.flags| && s.flags[f] ==> r.flags[f]
  }

  /** A node with requests in hand can put them out and end its round. */
  lemma EndRound(nodes: seq<Node>, s: State, n: nat) returns (steps: seq<Step>, r: State)
    requires Sized(nodes, s) && HasOutputs(nodes) && n < |nodes| && s.phases[n].Busy?
    ensures Reaches(nodes, s, steps, r) && OnlyNode(r, s, n)
    ensures r.phases[n] == if s.phases[n].last then Exited else Idle
    ensures s.phases[n].last && nodes[n].next.Some? ==> nodes[n].next.value < |r.flags| && r.flags[nodes[n].next.value]
  {
    var m := s;
    steps := [];
    if s.phases[n].hand != multiset{} {
      var q :| q in nodes[n].outputs;
      var emit := Emit(n, q, s.phases[n].hand);
      OneStep(nodes, s, emit);
      steps, m := [emit], Do(nodes, s, emit);
      assert m.phases[n].hand == multiset{};
    }
    Then(nodes, s, steps, m, Finish(n));
    steps, r := steps + [Finish(n)], Do(nodes, m, Finish(n));
  }

  /** A node that has looked at its flags can read and end its round. */
  lemma ReadAndEnd(nodes: seq<Node>, s: State, n: nat) returns (steps: seq<Step>, r: State)
    requires Sized(nodes, s) && HasOutputs(nodes) && n < |nodes| && s.phases[n].Checked?
    ensures Reaches(nodes, s, steps, r) && OnlyNode(r, s, n)
    ensures r.phases[n] == if s.phases[n].last then Exited else Idle
    ensures s.phases[n].last && nodes[n].next.Some? ==> nodes[n].next.value < |r.flags| && r.flags[nodes[n].next.value]
  {
    var len := |s.queues[nodes[n].input]|;
    var take := Take(n, if nodes[n].bounded && len > DRAIN_LIMIT then DRAIN_LIMIT else len);
    var m := Do(nodes, s, take);
    OneStep(nodes, s, take);
    steps, r := EndRound(nodes, m, n);
    RunOn(nodes, s, [take], m, steps, r);
    steps := [take] + steps;
  }

  /** A node can come between two rounds, or it has exited. */
  lemma BetweenRounds(nodes: seq<Node>, s: State, n: nat) returns (steps: seq<Step>, r: State)
    requires Sized(nodes, s) && HasOutputs(nodes) && ExitsSignalled(nodes, s) && n < |nodes|
    ensures Reaches(nodes, s, steps, r) && Sized(nodes, r) && OnlyNode(r, s, n) && ExitsSignalled(nodes, r)
    ensures r.phases[n].Idle? || r.phases[n].Exited?
  {
    steps, r := [], s;
    if s.phases[n].Busy? {
      steps, r := EndRound(nodes, s, n);
    } else if s.phases[n].Checked? {
      steps, r := ReadAndEnd(nodes, s, n);
    }
    EveryRunSignals(nodes, s, steps, r);
  }

  /** A node whose flags are all set can exit, whatever it is doing. */
  lemma ExitOne(nodes: seq<Node>, s: State, n: nat) returns (steps: seq<Step>, r: State)
    requires Sized(nodes, s) && HasOutputs(nodes) && ExitsSignalled(nodes, s) && n < |nodes| && StopSeen(nodes, s, n)
    ensures Reaches(nodes, s, steps, r) && Sized(nodes, r) && OnlyNode(r, s, n) && ExitsSignalled(nodes, r)
    ensures r.phases[n].Exited?
  {
    steps, r := BetweenRounds(nodes, s, n);
    if r.phases[n].Idle? {
      var idle, before := r, steps;
      var m := Do(nodes, idle, Check(n));
      assert StopSeen(nodes, idle, n);
      Then(nodes, s, before, idle, Check(n));
      steps, r := ReadAndEnd(nodes, m, n);
      RunOn(nodes, s, before + [Check(n)], m, steps, r);
      steps := before + [Check(n)] + steps;
      EveryRunSignals(nodes, s, steps, r);
    }
  }

  /** The first `k` nodes have exited, the others are as they were. */
  predicate FirstExited(nodes: seq<Node>, r: State, s: State, k: nat) {
    && |r.phases| == |s.phases| == |nodes| && |r.flags| == |s.flags| && r.admitted == s.admitted && k <= |nodes|
    && (forall m :: 0 <= m < k ==> r.phases[m].Exited?)
    && (forall m :: k <= m < |nodes| ==> r.phases[m] == s.phases[m])
    && forall f :: 0 <= f < |s.flags| && s.flags[f] ==> r.flags[f]
  }

  /** Once the outside stop flag is set, the first nodes can exit one after the other. */
  lemma {:induction false} ExitFirst(nodes: seq<Node>, s: State, k: nat) returns (steps: seq<Step>, r: State)
    requires Sized(nodes, s) && HasOutputs(nodes) && OrderedStops(nodes) && ExitsSignalled(nodes, s)
    requires s.flags[STOP] && k <= |nodes|
    ensures Reaches(nodes, s, steps, r) && Sized(nodes, r) && ExitsSignalled(nodes, r) && FirstExited(nodes, r, s, k)
  {
    if k == 0 {
      steps, r := [], s;
    } else {
      var before, m := ExitFirst(nodes, s, k - 1);
      forall f | f in nodes[k - 1].stops ensures m.flags[f] {
        if f != STOP {
          assert SetBefore(nodes, k - 1, f);
          var u :| 0 <= u < k - 1 && nodes[u].next == Some(f);
          assert m.phases[u].Exited?;
        }
      }
      steps, r := ExitOne(nodes, m, k - 1);
      RunOn(nodes, s, before, m, steps, r);
      steps := before + steps;
    }
  }

  /** Progress: from every state reached from a fresh start a run leads to the end. The outside stop
    * flag can be set at any time, and then all nodes can exit. */
  lemma CanEnd(nodes: seq<Node>, start: State, before: seq<Step>, s: State) returns (steps: seq<Step>, r: State)
    requires Sized(nodes, start) && FreshStart(start) && HasOutputs(nodes) && OrderedStops(nodes)
    requires Reaches(nodes, start, before, s)
    ensures Sized(nodes, s) && Reaches(nodes, s, steps, r) && AllExited(r) && r.admitted == s.admitted
  {
    EveryRunSignals(nodes, start, before, s);
    if s.flags[STOP] {
      steps, r := ExitFirst(nodes, s, |nodes|);
    } else {
      var m := Do(nodes, s, RequestStop);
      OneStep(nodes, s, RequestStop);
      EveryRunSignals(nodes, s, [RequestStop], m);
      steps, r := ExitFirst(nodes, m, |nodes|);
      RunOn(nodes, s, [RequestStop], m, steps, r);
      steps := [RequestStop] + steps;
    }
  }

  // ---- Many messages ---------------------------------------------------------------------------------------------

  predicate AllNonEmpty(gs: seq<Group>) {
    forall i :: 0 <= i < |gs| ==> gs[i] != multiset{}
  }

  function Arrived(s: State, gs: seq<Group>): State
    requires SOURCE < |s.queues|
  {
    s.(queues := s.queues[SOURCE := s.queues[SOURCE] + gs], admitted := s.admitted + SumGroups(gs))
  }

  function Emitted(s: State, n: nat, q: nat, gs: seq<Group>): State
    requires q < |s.queues| && n < |s.phases| && s.phases[n].Busy?
  {
    s.(queues := s.queues[q := s.queues[q] + gs],
       phases := s.phases[n := Busy(s.phases[n].hand - SumGroups(gs), s.phases[n].last)])
  }

  lemma ArriveOne(nodes: seq<Node>, s: State, gs: seq<Group>)
    requires Sized(nodes, s) && !LastRound(s.phases[0]) && gs != [] && AllNonEmpty(gs)
    ensures var m := Arrived(s, gs[..|gs| - 1]);
            Sized(nodes, m) && Enabled(nodes, m, Arrive(gs[|gs| - 1])) && Do(nodes, m, Arrive(gs[|gs| - 1])) == Arrived(s, gs)
  {
    var init, g := gs[..|gs| - 1], gs[|gs| - 1];
    assert s.queues[SOURCE] + init + [g] == s.queues[SOURCE] + gs;
  }

  lemma EmitOne(nodes: seq<Node>, s: State, n: nat, q: nat, init: seq<Group>, g: Group, gs: seq<Group>)
    requires Sized(nodes, s) && n < |nodes| && q in nodes[n].outputs && g != multiset{}
    requires gs == init + [g] && SumGroups(gs) == SumGroups(init) + g
    requires s.phases[n].Busy? && SumGroups(gs) <= s.phases[n].hand
    ensures var m := Emitted(s, n, q, init);
            Sized(nodes, m) && Enabled(nodes, m, Emit(n, q, g)) && Do(nodes, m, Emit(n, q, g)) == Emitted(s, n, q, gs)
  {
    hide SumGroups;
    var hand, m := s.phases[n].hand, Emitted(s, n, q, init);
    assert Sized(nodes, m);
    assert s.queues[q] + init + [g] == s.queues[q] + gs;
    assert m.phases[n].hand - g == hand - SumGroups(gs);
    var r := Do(nodes, m, Emit(n, q, g));
    assert r.queues == Emitted(s, n, q, gs).queues;
    assert r.phases == Emitted(s, n, q, gs).phases;
  }

  /** Messages can arrive one after the other. */
  lemma {:induction false} ArriveAll(nodes: seq<Node>, s: State, gs: seq<Group>) returns (steps: seq<Step>)
    requires Sized(nodes, s) && !LastRound(s.phases[0]) && AllNonEmpty(gs)
    ensures Reaches(nodes, s, steps, Arrived(s, gs))
  {
    steps := [];
    if gs == [] {
      assert s.queues[SOURCE] + gs == s.queues[SOURCE];
    } else {
      hide Reaches, Do, Enabled, Arrived;
      var init, g := gs[..|gs| - 1], gs[|gs| - 1];
      var before := ArriveAll(nodes, s, init);
      ArriveOne(nodes, s, gs);
      Then(nodes, s, before, Arrived(s, init), Arrive(g));
      steps := before + [Arrive(g)];
    }
  }

  /** And be put out one after the other. */
  lemma {:induction false} EmitAll(nodes: seq<Node>, s: State, n: nat, q: nat, gs: seq<Group>) returns (steps: seq<Step>)
    requires Sized(nodes, s) && n < |nodes| && q in nodes[n].outputs && AllNonEmpty(gs)
    requires s.phases[n].Busy? && SumGroups(gs) <= s.phases[n].hand
    ensures Reaches(nodes, s, steps, Emitted(s, n, q, gs))
  {
    steps := [];
    if gs == [] {
      assert s.queues[q] + gs == s.queues[q];
      assert s.phases[n].hand - SumGroups(gs) == s.phases[n].hand;
    } else {
      hide Reaches, Do, Enabled, Emitted;
      var init, g := gs[..|gs| - 1], gs[|gs| - 1];
      var before := EmitAll(nodes, s, n, q, init);
      EmitOne(nodes, s, n, q, init, g, gs);
      Then(nodes, s, before, Emitted(s, n, q, init), Emit(n, q, g));
      steps := before + [Emit(n, q, g)];
    }
  }
}
