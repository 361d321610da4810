/** Runs from a fresh start to the end that lose a request, and when there are any. */
module ShutdownLosses {
  import opened Options
  import opened Network
  import opened NetworkProgress
  import opened Wiring
  import opened WiringRoutes
  import opened Shutdown

  /** What is left behind where nobody reads any more has not come out. */
  lemma LeftIsLost(cs: seq<Component>, before: seq<Step>, s: State, steps: seq<Step>, r: State, q: nat)
    requires Proper(cs) && Sized(Deployed(cs).nodes, Start(Deployed(cs)))
    requires Reaches(Deployed(cs).nodes, Start(Deployed(cs)), before, s) && Sized(Deployed(cs).nodes, s)
    requires Reaches(Deployed(cs).nodes, s, steps, r) && AllExited(r)
    requires SINK < q < |s.queues| && Done(Deployed(cs).nodes, s, q) && s.queues[q] != []
    ensures Reaches(Deployed(cs).nodes, Start(Deployed(cs)), before + steps, r)
    ensures !Delivered(r)
  {
    Deployable(cs);
    hide Deployed;
    var w := Deployed(cs);
    FreshIsConserved(Start(w));
    RunOn(w.nodes, Start(w), before, s, steps, r);
    EveryRunConserves(w.nodes, Start(w), before + steps, r);
    NothingTaken(w.nodes, s, steps, r, q);
    DeliveredIffNothingLeft(w.nodes, r);
  }

  // ---- A last read that is too short -----------------------------------------------------------------------------

  const ONE_CUSTOM := [Custom(1)]

  lemma OneCustom()
    ensures Proper(ONE_CUSTOM)
    ensures Deployed(ONE_CUSTOM) ==
            Chain([Node(SOURCE, {3}, [STOP], Some(1), false), Node(3, {2}, [1], Some(2), true), Node(2, {SINK}, [2], None, true)],
                  4, 3, 2, 2)
  {
    assert Wire(ONE_CUSTOM, 0) == OUTSIDE;
    assert InputStage(OUTSIDE) == Chain([Node(SOURCE, {3}, [STOP], Some(1), false)], 4, 2, 3, 1);
  }

  /** Everything that has arrived is in the queue behind the input process, which has ended. */
  function Passed(gs: seq<Group>): State {
    State([[], [], [], gs], [true, true, false], [Exited, Idle, Idle], SumGroups(gs))
  }

  lemma AllPassed(w: Chain, gs: seq<Group>) returns (steps: seq<Step>)
    requires AllNonEmpty(gs) && w == Deployed(ONE_CUSTOM) && Sized(w.nodes, Start(w))
    ensures Reaches(w.nodes, Start(w), steps, Passed(gs)) && Sized(w.nodes, Passed(gs))
  {
    OneCustom();
    hide Deployed, Reaches;
    var nodes, s0 := w.nodes, Start(w);
    var s1 := State([gs, [], [], []], [false, false, false], [Idle, Idle, Idle], SumGroups(gs));
    ArrivedIs(s0, gs);
    var a := ArriveAll(nodes, s0, gs);
    var b, s2 := InputTakes(nodes, s1, gs);
    RunOn(nodes, s0, a, s1, b, s2);
    var c, s3 := InputPuts(nodes, s2, gs);
    RunOn(nodes, s0, a + b, s2, c, s3);
    steps := a + b + c;
  }

  lemma ArrivedIs(s: State, gs: seq<Group>)
    requires s == State(seq(4, _ => []), seq(3, _ => false), seq(3, _ => Idle), multiset{})
    ensures Arrived(s, gs) == State([gs, [], [], []], [false, false, false], [Idle, Idle, Idle], SumGroups(gs))
  {
    hide SumGroups;
    assert s.queues == [[], [], [], []] && s.flags == [false, false, false] && s.phases == [Idle, Idle, Idle];
    assert [] + gs == gs && multiset{} + SumGroups(gs) == SumGroups(gs);
  }

  lemma InputPuts(nodes: seq<Node>, s: State, gs: seq<Group>) returns (steps: seq<Step>, r: State)
    requires |nodes| == 3 && Sized(nodes, s) && nodes[0] == Node(SOURCE, {3}, [STOP], Some(1), false) && AllNonEmpty(gs)
    requires s == State([[], [], [], []], [true, false, false], [Busy(SumGroups(gs), true), Idle, Idle], SumGroups(gs))
    ensures Reaches(nodes, s, steps, r) && Sized(nodes, r) && r == Passed(gs)
  {
    hide Reaches, SumGroups;
    var c := EmitAll(nodes, s, 0, 3, gs);
    var m := State([[], [], [], gs], [true, false, false], [Busy(multiset{}, true), Idle, Idle], SumGroups(gs));
    assert [] + gs == gs && s.queues[3 := gs] == m.queues && s.phases[0 := m.phases[0]] == m.phases;
    assert SumGroups(gs) - SumGroups(gs) == multiset{};
    assert Emitted(s, 0, 3, gs) == m;
    Then(nodes, s, c, m, Finish(0));
    steps, r := c + [Finish(0)], Do(nodes, m, Finish(0));
  }

  lemma InputTakes(nodes: seq<Node>, s: State, gs: seq<Group>) returns (steps: seq<Step>, r: State)
    requires |nodes| == 3 && Sized(nodes, s) && nodes[0] == Node(SOURCE, {3}, [STOP], Some(1), false)
    requires s == State([gs, [], [], []], [false, false, false], [Idle, Idle, Idle], SumGroups(gs))
    ensures Reaches(nodes, s, steps, r) && Sized(nodes, r)
    ensures r == State([[], [], [], []], [true, false, false], [Busy(SumGroups(gs), true), Idle, Idle], SumGroups(gs))
  {
    hide Reaches, SumGroups;
    var x := Do(nodes, s, RequestStop);
    var y := Do(nodes, x, Check(0));
    assert gs[..|gs|] == gs && gs[|gs|..] == [];
    OneStep(nodes, s, RequestStop);
    Then(nodes, s, [RequestStop], x, Check(0));
    Then(nodes, s, [RequestStop] + [Check(0)], y, Take(0, |gs|));
    steps, r := [RequestStop] + [Check(0)] + [Take(0, |gs|)], Do(nodes, y, Take(0, |gs|));
  }

  /** The process of the custom component, told to end, makes its last read. */
  lemma ShortLastRead(nodes: seq<Node>, gs: seq<Group>) returns (steps: seq<Step>, r: State)
    requires |gs| > DRAIN_LIMIT && |nodes| == 3 && Sized(nodes, Passed(gs)) && nodes[1] == Node(3, {2}, [1], Some(2), true)
    requires nodes[0].input != 3 && nodes[2].input != 3
    ensures Reaches(nodes, Passed(gs), steps, r) && Sized(nodes, r)
    ensures |r.queues| == 4 && r.queues[3] != [] && Done(nodes, r, 3) && r.admitted == SumGroups(gs)
  {
    hide Reaches, SumGroups;
    var s := Passed(gs);
    var x := Do(nodes, s, Check(1));
    OneStep(nodes, s, Check(1));
    Then(nodes, s, [Check(1)], x, Take(1, DRAIN_LIMIT));
    steps, r := [Check(1)] + [Take(1, DRAIN_LIMIT)], Do(nodes, x, Take(1, DRAIN_LIMIT));
  }

  /** The limit is sharp: whenever more than DRAIN_LIMIT messages arrive at a model of one custom
    * component, there is a run in which its last read finds them all and some of them never come out. */
  lemma OverflowLoses(gs: seq<Group>) returns (steps: seq<Step>, r: State)
    requires |gs| > DRAIN_LIMIT && AllNonEmpty(gs)
    ensures var w := Deployed(ONE_CUSTOM);
            && Sized(w.nodes, Start(w)) && Reaches(w.nodes, Start(w), steps, r) && AllExited(r)
            && r.admitted == SumGroups(gs) && !Delivered(r)
  {
    OneCustom();
    Deployable(ONE_CUSTOM);
    var w := Deployed(ONE_CUSTOM);
    hide Deployed, Reaches, SumGroups, Proper, HasOutputs, OrderedStops, SourceReader, AllRead, InRange, FreshStart, Done, AllNonEmpty, AllExited;
    var a := AllPassed(w, gs);
    var b, s := ShortLastRead(w.nodes, gs);
    RunOn(w.nodes, Start(w), a, Passed(gs), b, s);
    var c, end := DeployedCanEnd(ONE_CUSTOM, a + b, s);
    LeftIsLost(ONE_CUSTOM, a + b, s, c, end, 3);
    steps, r := a + b + c, end;
  }

  // ---- Output processes that share a flag ----------------------------------------------------------------------------

  /** One node has the message in hand, in a round that is not its last, and nothing else is going on. */
  function Holds(w: Chain, n: nat, g: Group): State
    requires n < |w.nodes|
  {
    var s := Start(w);
    s.(phases := s.phases[n := Busy(g, false)], admitted := g)
  }

  /** Between two nodes: the message is in the queue that the next one reads. */
  function Waits(w: Chain, q: nat, g: Group): State
    requires q < w.queues
  {
    var s := Start(w);
    s.(queues := s.queues[q := [g]], admitted := g)
  }

  lemma OneMessage(g: Group)
    ensures SumGroups([g]) == g && SumGroups([g][..1]) == g && [g][1..] == []
  {
    assert [g][..0] == [] && [g][..1] == [g];
    assert SumGroups([g]) == SumGroups([]) + g;
  }

  /** A node takes it. */
  lemma PickUp(w: Chain, n: nat, g: Group) returns (steps: seq<Step>)
    requires w.nodes != [] && Sized(w.nodes, Start(w)) && n < |w.nodes| && w.nodes[n].stops != []
    ensures Sized(w.nodes, Waits(w, w.nodes[n].input, g))
    ensures Reaches(w.nodes, Waits(w, w.nodes[n].input, g), steps, Holds(w, n, g))
  {
    OneMessage(g);
    hide Reaches, SumGroups;
    var q := w.nodes[n].input;
    var s := Waits(w, q, g);
    assert Sized(w.nodes, s);
    var x := Do(w.nodes, s, Check(n));
    assert x.phases[n] == Checked(false) by {
      assert w.nodes[n].stops[0] in w.nodes[n].stops;
    }
    var r := Do(w.nodes, x, Take(n, 1));
    OneStep(w.nodes, s, Check(n));
    Then(w.nodes, s, [Check(n)], x, Take(n, 1));
    steps := [Check(n)] + [Take(n, 1)];
    assert r.queues == Start(w).queues && r.phases == Holds(w, n, g).phases;
  }

  /** It puts it into a queue and ends its round. */
  lemma PutDown(w: Chain, n: nat, q: nat, g: Group) returns (steps: seq<Step>)
    requires w.nodes != [] && Sized(w.nodes, Start(w)) && n < |w.nodes| && q in w.nodes[n].outputs && g != multiset{}
    ensures Sized(w.nodes, Holds(w, n, g)) && q < w.queues
    ensures Reaches(w.nodes, Holds(w, n, g), steps, Waits(w, q, g))
  {
    hide Reaches, SumGroups;
    var s := Holds(w, n, g);
    assert Sized(w.nodes, s);
    var x := Do(w.nodes, s, Emit(n, q, g));
    assert g - g == multiset{} && x.phases[n] == Busy(multiset{}, false);
    var r := Do(w.nodes, x, Finish(n));
    OneStep(w.nodes, s, Emit(n, q, g));
    Then(w.nodes, s, [Emit(n, q, g)], x, Finish(n));
    steps := [Emit(n, q, g)] + [Finish(n)];
    assert [] + [g] == [g];
    assert r.queues == Waits(w, q, g).queues && r.phases == Start(w).phases;
  }

  lemma Arrival(w: Chain, g: Group)
    requires w.nodes != [] && Sized(w.nodes, Start(w)) && g != multiset{}
    ensures Reaches(w.nodes, Start(w), [Arrive(g)], Waits(w, SOURCE, g))
  {
    OneStep(w.nodes, Start(w), Arrive(g));
    assert [] + [g] == [g] && multiset{} + g == g;
  }

  /** A message can be brought to any process of a model before anything is told to stop. */
  lemma {:induction false} Carry(w: Chain, n: nat, g: Group) returns (steps: seq<Step>)
    requires w.nodes != [] && Sized(w.nodes, Start(w)) && Tended(w.nodes) && w.nodes[0].input == SOURCE
    requires n < |w.nodes| && g != multiset{}
    ensures Reaches(w.nodes, Start(w), steps, Holds(w, n, g))
    decreases n
  {
    assert SOURCE < |Start(w).queues| == w.queues;
    hide Reaches, Start, Holds, Waits, Sized;
    if n == 0 {
      Arrival(w, g);
      var b := PickUp(w, 0, g);
      RunOn(w.nodes, Start(w), [Arrive(g)], Waits(w, SOURCE, g), b, Holds(w, 0, g));
      steps := [Arrive(g)] + b;
    } else {
      var q := w.nodes[n].input;
      assert FedBefore(w.nodes, n, q);
      var u :| 0 <= u < n && q in w.nodes[u].outputs;
      var a := Carry(w, u, g);
      var b := PutDown(w, u, q, g);
      var c := PickUp(w, n, g);
      RunOn(w.nodes, Start(w), a, Holds(w, u, g), b, Waits(w, q, g));
      RunOn(w.nodes, Start(w), a + b, Waits(w, q, g), c, Holds(w, n, g));
      steps := a + b + c;
    }
  }

  lemma {:induction false} InHandsAtLeast(ps: seq<Phase>, n: nat, x: Req)
    requires n < |ps|
    ensures InHands(ps, x) >= InHand(ps[n], x)
  {
    if n < |ps| - 1 {
      InHandsAtLeast(ps[..|ps| - 1], n, x);
    }
  }

  /** Where one node has everything that was admitted in hand, all queues are empty. */
  lemma NothingElsewhere(s: State, n: nat, q: nat)
    requires Conserved(s) && NoEmptyGroup(s) && n < |s.phases| && s.phases[n].Busy? && s.phases[n].hand == s.admitted
    requires q < |s.queues|
    ensures s.queues[q] == []
  {
    forall x: Req ensures InQueue(s.queues[q], x) == 0 {
      InHandsAtLeast(s.phases, n, x);
      OtherQueues(s.queues, q, x);
    }
    NothingIn(s.queues[q]);
  }

  /** The beginning of the last round of a node that finds nothing. */
  lemma LastReadOfNothing(nodes: seq<Node>, s: State, n: nat) returns (steps: seq<Step>, r: State)
    requires Sized(nodes, s) && n < |nodes| && s.phases[n].Idle? && StopSeen(nodes, s, n) && s.queues[nodes[n].input] == []
    ensures Reaches(nodes, s, steps, r) && Sized(nodes, r) && r == s.(phases := s.phases[n := Busy(multiset{}, true)])
  {
    assert SumGroups([]) == multiset{};
    hide Reaches, SumGroups;
    var q := nodes[n].input;
    var a := Do(nodes, s, Check(n));
    assert s.queues[q][..0] == [] && s.queues[q][0..] == [] && s.queues[q := []] == s.queues;
    OneStep(nodes, s, Check(n));
    Then(nodes, s, [Check(n)], a, Take(n, 0));
    steps, r := [Check(n)] + [Take(n, 0)], Do(nodes, a, Take(n, 0));
    assert r.phases == s.phases[n := r.phases[n]];
  }

  /** A node with the message in hand puts it where its last reader has already been. */
  lemma TooLate(nodes: seq<Node>, s: State, u: nat, n: nat, q: nat, g: Group) returns (steps: seq<Step>, r: State)
    requires Sized(nodes, s) && u < |nodes| && n < |nodes| && u != n && s.phases[u] == Busy(g, false) && g != multiset{}
    requires q in nodes[u].outputs && nodes[n].input == q && OnlyReader(nodes, n, q)
    requires s.phases[n].Idle? && StopSeen(nodes, s, n) && s.queues[q] == []
    ensures Reaches(nodes, s, steps, r) && Sized(nodes, r) && r.admitted == s.admitted && |r.queues| == |s.queues|
    ensures r.queues[q] == [g] && Done(nodes, r, q)
  {
    hide Reaches, SumGroups, StopSeen;
    var a, x := LastReadOfNothing(nodes, s, n);
    OneStep(nodes, x, Emit(u, q, g));
    r := Do(nodes, x, Emit(u, q, g));
    RunOn(nodes, s, a, x, [Emit(u, q, g)], r);
    steps := a + [Emit(u, q, g)];
    assert [] + [g] == [g];
  }

  /** Told to stop while one node has a message in hand: the nodes before it can exit. */
  lemma OthersExit(w: Chain, n: nat, g: Group) returns (steps: seq<Step>, r: State)
    requires w.nodes != [] && Sized(w.nodes, Start(w)) && HasOutputs(w.nodes) && OrderedStops(w.nodes) && n < |w.nodes|
    ensures Sized(w.nodes, Holds(w, n, g)) && Reaches(w.nodes, Holds(w, n, g), steps, r) && Sized(w.nodes, r)
    ensures ExitsSignalled(w.nodes, r) && r.admitted == g
    ensures (forall m :: 0 <= m < n ==> r.phases[m].Exited?) && r.phases[n] == Busy(g, false)
    ensures forall m :: n < m < |w.nodes| ==> r.phases[m].Idle?
  {
    hide Reaches, HasOutputs, OrderedStops;
    var s := Holds(w, n, g);
    assert Sized(w.nodes, s);
    var x := Do(w.nodes, s, RequestStop);
    OneStep(w.nodes, s, RequestStop);
    var b;
    b, r := ExitFirst(w.nodes, x, n);
    RunOn(w.nodes, s, [RequestStop], x, b, r);
    steps := [RequestStop] + b;
  }

  /** Where component `i`, not the last, has several output processes: the first two of them, and the input
    * process of the next component with its queue, which nobody else reads. */
  lemma WhereShared(cs: seq<Component>, i: nat) returns (u: nat, n: nat, f: nat, q: nat)
    requires Proper(cs) && i < |cs| - 1 && cs[i].postprocessors != 1
    ensures var w := Deployed(cs);
            && u + 1 < n < |w.nodes| && w.nodes[u].next == Some(f) && w.nodes[n].stops == [f]
            && w.nodes[n].input == q && q in w.nodes[u + 1].outputs && SINK < q < w.queues
            && OnlyReader(w.nodes, n, q)
  {
    hide *;
    u, n, f := SharedFlag(cs, i);
    q := Wire(cs, i + 1).source;
    OneReader(cs, i, |cs|);
    WireEnds(cs, i);
  }

  /** The run up to the point where the message lies in a queue that nobody will read again. */
  lemma LeftTooLate(w: Chain, u: nat, n: nat, f: nat, q: nat, g: Group) returns (steps: seq<Step>, r: State)
    requires w.nodes != [] && Sized(w.nodes, Start(w)) && HasOutputs(w.nodes) && OrderedStops(w.nodes)
    requires Tended(w.nodes) && w.nodes[0].input == SOURCE && g != multiset{} && FreshStart(Start(w))
    requires u + 1 < n < |w.nodes| && w.nodes[u].next == Some(f) && w.nodes[n].stops == [f]
    requires w.nodes[n].input == q && q in w.nodes[u + 1].outputs && q < w.queues && OnlyReader(w.nodes, n, q)
    ensures Reaches(w.nodes, Start(w), steps, r) && Sized(w.nodes, r)
    ensures r.admitted == g && q < |r.queues| && r.queues[q] == [g] && Done(w.nodes, r, q)
  {
    hide Reaches, HasOutputs, OrderedStops, Tended, Sized, OnlyReader, Done, Holds, Conserved, NoEmptyGroup;
    var start := Start(w);
    var a := Carry(w, u + 1, g);
    var b, x := OthersExit(w, u + 1, g);
    RunOn(w.nodes, start, a, Holds(w, u + 1, g), b, x);
    FreshIsConserved(start);
    EveryRunConserves(w.nodes, start, a + b, x);
    NothingElsewhere(x, u + 1, q);
    FlagIsSet(w.nodes, x, u, n, f);
    var c;
    c, r := TooLate(w.nodes, x, u + 1, n, q, g);
    RunOn(w.nodes, start, a + b, x, c, r);
    steps := a + b + c;
  }

  lemma FlagIsSet(nodes: seq<Node>, s: State, u: nat, n: nat, f: nat)
    requires Sized(nodes, s) && ExitsSignalled(nodes, s) && u < |nodes| && n < |nodes|
    requires nodes[u].next == Some(f) && nodes[n].stops == [f] && s.phases[u].Exited?
    ensures StopSeen(nodes, s, n)
  {
  }

  /** Where a component that is not the last has several output processes, which share one flag, a request can
    * be lost: one message arrives, all processes run to their end, and it has not come out. */
  lemma SharedFlagLoses(cs: seq<Component>, i: nat, g: Group) returns (steps: seq<Step>, r: State)
    requires Proper(cs) && i < |cs| - 1 && cs[i].postprocessors != 1 && g != multiset{}
    ensures var w := Deployed(cs);
            && Sized(w.nodes, Start(w)) && Reaches(w.nodes, Start(w), steps, r) && AllExited(r)
            && r.admitted == g && !Delivered(r)
  {
    Deployable(cs);
    WireReady(cs, |cs|);
    var u, n, f, q := WhereShared(cs, i);
    var w := Deployed(cs);
    assert Tended(w.nodes);
    hide *;
    var a, s := LeftTooLate(w, u, n, f, q, g);
    var b;
    b, r := DeployedCanEnd(cs, a, s);
    assert [g] != [];
    LeftIsLost(cs, a, s, b, r, q);
    steps := a + b;
  }

  // ---- Exactly when none is lost ----------------------------------------------------------------------------------------

  /** In every complete run that admits at most DRAIN_LIMIT requests, all of them come out. */
  ghost predicate DeliversFew(w: Chain)
    requires Sized(w.nodes, Start(w))
  {
    forall steps: seq<Step>, r: State ::
      Reaches(w.nodes, Start(w), steps, r) && AllExited(r) && |r.admitted| <= DRAIN_LIMIT ==> Delivered(r)
  }

  /** That is so if and only if every component but the last has exactly one output process. Otherwise a single
    * request is enough for a loss. */
  lemma DeliversFewIff(cs: seq<Component>)
    requires Proper(cs)
    ensures Sized(Deployed(cs).nodes, Start(Deployed(cs)))
    ensures DeliversFew(Deployed(cs)) <==> SingleOutputs(cs)
  {
    Deployable(cs);
    var w := Deployed(cs);
    if SingleOutputs(cs) {
      hide Deployed, Delivered, Reaches;
      forall steps: seq<Step>, r: State | Reaches(w.nodes, Start(w), steps, r) && AllExited(r) && |r.admitted| <= DRAIN_LIMIT
        ensures Delivered(r)
      {
        FewAreDelivered(cs, steps, r);
      }
    } else {
      var i :| 0 <= i < |cs| - 1 && cs[i].postprocessors != 1;
      hide Deployed, Delivered, Reaches;
      var steps, r := SharedFlagLoses(cs, i, multiset{"request"});
      assert |r.admitted| == 1;
    }
  }
}
