/** The processes of one deployed model as an asynchronous network: queues between them, stop
  * flags handed from each to the next, and any interleaving of their steps. */
module Network {
  import opened Options

  /** A request, by its task id; what travels in a queue is a group of at least one. */
  type Req = string
  type Group = multiset<Req>

  /** A process (or reader thread): where it reads, where it may write, the flags that must all
    * be set before its last round, the flag it sets when it has exited, and whether its last
    * read is limited to DRAIN_LIMIT groups. */
  datatype Node = Node(input: nat, outputs: set<nat>, stops: seq<nat>, next: Option<nat>, bounded: bool)

  const DRAIN_LIMIT: nat := 32
  const SOURCE: nat := 0
  const SINK: nat := 1
  const STOP: nat := 0

  /** Between rounds, after looking at the flags, with requests in hand, and done. */
  datatype Phase = Idle | Checked(last: bool) | Busy(hand: Group, last: bool) | Exited

  datatype State = State(queues: seq<seq<Group>>, flags: seq<bool>, phases: seq<Phase>, admitted: Group)

  datatype Step =
    | Arrive(group: Group)
    | RequestStop
    | Check(n: nat)
    | Take(n: nat, count: nat)
    | Emit(n: nat, queue: nat, group: Group)
    | Finish(n: nat)

  /** Ids in range, one queue read per node, the source written by nobody and the sink read by
    * nobody. */
  predicate Sized(nodes: seq<Node>, s: State) {
    && |s.phases| == |nodes| > 0
    && SINK < |s.queues| && STOP < |s.flags|
    && forall n :: 0 <= n < |nodes| ==>
         && nodes[n].input < |s.queues| && nodes[n].input != SINK
         && (forall q :: q in nodes[n].outputs ==> q < |s.queues| && q != SOURCE)
         && (forall f :: f in nodes[n].stops ==> f < |s.flags|)
         && (nodes[n].next.Some? ==> STOP < nodes[n].next.value < |s.flags|)
  }

  predicate LastRound(p: Phase) {
    p.Exited? || ((p.Checked? || p.Busy?) && p.last)
  }

  predicate StopSeen(nodes: seq<Node>, s: State, n: nat)
    requires Sized(nodes, s) && n < |nodes|
  {
    forall f :: f in nodes[n].stops ==> s.flags[f]
  }

  predicate Enabled(nodes: seq<Node>, s: State, step: Step)
    requires Sized(nodes, s)
  {
    match step
    case Arrive(g) => !LastRound(s.phases[0]) && g != multiset{}
    case RequestStop => true
    case Check(n) => n < |nodes| && s.phases[n].Idle?
    case Take(n, k) =>
      && n < |nodes| && s.phases[n].Checked? && k <= |s.queues[nodes[n].input]|
      && (s.phases[n].last ==>
            k == if nodes[n].bounded && |s.queues[nodes[n].input]| > DRAIN_LIMIT then DRAIN_LIMIT
                 else |s.queues[nodes[n].input]|)
    case Emit(n, q, g) =>
      n < |nodes| && s.phases[n].Busy? && q in nodes[n].outputs && g <= s.phases[n].hand && g != multiset{}
    case Finish(n) => n < |nodes| && s.phases[n].Busy? && s.phases[n].hand == multiset{}
  }

  function SumGroups(q: seq<Group>): Group {
    if q == [] then multiset{} else SumGroups(q[..|q| - 1]) + q[|q| - 1]
  }

  function Do(nodes: seq<Node>, s: State, step: Step): (r: State)
    requires Sized(nodes, s) && Enabled(nodes, s, step)
    ensures Sized(nodes, r)
  {
    match step
    case Arrive(g) =>
      s.(queues := s.queues[SOURCE := s.queues[SOURCE] + [g]], admitted := s.admitted + g)
    case RequestStop => s.(flags := s.flags[STOP := true])
    case Check(n) => s.(phases := s.phases[n := Checked(StopSeen(nodes, s, n))])
    case Take(n, k) =>
      var q := nodes[n].input;
      s.(queues := s.queues[q := s.queues[q][k..]],
         phases := s.phases[n := Busy(SumGroups(s.queues[q][..k]), s.phases[n].last)])
    case Emit(n, q, g) =>
      s.(queues := s.queues[q := s.queues[q] + [g]],
         phases := s.phases[n := Busy(s.phases[n].hand - g, s.phases[n].last)])
    case Finish(n) =>
      if !s.phases[n].last then s.(phases := s.phases[n := Idle])
      else if nodes[n].next.None? then s.(phases := s.phases[n := Exited])
      else s.(phases := s.phases[n := Exited], flags := s.flags[nodes[n].next.value := true])
  }

  /** The state after a series of steps, as long as each is enabled in turn. */
  ghost predicate Reaches(nodes: seq<Node>, s: State, steps: seq<Step>, r: State)
    requires Sized(nodes, s)
    decreases |steps|
  {
    if steps == [] then r == s
    else Enabled(nodes, s, steps[0]) && Reaches(nodes, Do(nodes, s, steps[0]), steps[1..], r)
  }

  // ---- Nothing is lost or duplicated ------------------------------------------------------------

  /** How often a request occurs in a queue, in all queues, and in all hands. */
  function InQueue(q: seq<Group>, x: Req): nat {
    if q == [] then 0 else InQueue(q[..|q| - 1], x) + q[|q| - 1][x]
  }

  function InQueues(qs: seq<seq<Group>>, x: Req): nat {
    if qs == [] then 0 else InQueues(qs[..|qs| - 1], x) + InQueue(qs[|qs| - 1], x)
  }

  function InHand(p: Phase, x: Req): nat {
    if p.Busy? then p.hand[x] else 0
  }

  function InHands(ps: seq<Phase>, x: Req): nat {
    if ps == [] then 0 else InHands(ps[..|ps| - 1], x) + InHand(ps[|ps| - 1], x)
  }

  lemma {:induction false} InQueueConcat(a: seq<Group>, b: seq<Group>, x: Req)
    ensures InQueue(a + b, x) == InQueue(a, x) + InQueue(b, x)
  {
    if b == [] {
      assert a + b == a;
    } else {
      InQueueConcat(a, b[..|b| - 1], x);
      assert (a + b)[..|a + b| - 1] == a + b[..|b| - 1];
    }
  }

  lemma {:induction false} InQueueIsSum(q: seq<Group>, x: Req)
    ensures InQueue(q, x) == SumGroups(q)[x]
  {
    if q != [] {
      InQueueIsSum(q[..|q| - 1], x);
    }
  }

  lemma {:induction false} InQueuesUpdate(qs: seq<seq<Group>>, i: nat, q: seq<Group>, x: Req)
    requires i < |qs|
    ensures InQueues(qs[i := q], x) + InQueue(qs[i], x) == InQueues(qs, x) + InQueue(q, x)
  {
    var init, last := qs[..|qs| - 1], |qs| - 1;
    if i == last {
      assert qs[i := q][..last] == init;
    } else {
      InQueuesUpdate(init, i, q, x);
      assert qs[i := q][..last] == init[i := q];
    }
  }

  lemma {:induction false} InHandsUpdate(ps: seq<Phase>, i: nat, p: Phase, x: Req)
    requires i < |ps|
    ensures InHands(ps[i := p], x) + InHand(ps[i], x) == InHands(ps, x) + InHand(p, x)
  {
    var init, last := ps[..|ps| - 1], |ps| - 1;
    if i == last {
      assert ps[i := p][..last] == init;
    } else {
      InHandsUpdate(init, i, p, x);
      assert ps[i := p][..last] == init[i := p];
    }
  }

  /** Everything admitted is in a queue or in some process's hand, as often as it was admitted. */
  ghost predicate Conserved(s: State) {
    forall x: Req :: s.admitted[x] == InQueues(s.queues, x) + InHands(s.phases, x)
  }

  lemma AppendOne(qs: seq<seq<Group>>, i: nat, g: Group, x: Req)
    requires i < |qs|
    ensures InQueues(qs[i := qs[i] + [g]], x) == InQueues(qs, x) + g[x]
  {
    InQueuesUpdate(qs, i, qs[i] + [g], x);
    assert (qs[i] + [g])[..|qs[i]|] == qs[i];
  }

  lemma TakeSome(qs: seq<seq<Group>>, i: nat, k: nat, x: Req)
    requires i < |qs| && k <= |qs[i]|
    ensures InQueues(qs[i := qs[i][k..]], x) + SumGroups(qs[i][..k])[x] == InQueues(qs, x)
  {
    InQueuesUpdate(qs, i, qs[i][k..], x);
    assert qs[i] == qs[i][..k] + qs[i][k..];
    InQueueConcat(qs[i][..k], qs[i][k..], x);
    InQueueIsSum(qs[i][..k], x);
  }

  lemma StepConserves(nodes: seq<Node>, s: State, step: Step)
    requires Sized(nodes, s) && Enabled(nodes, s, step) && Conserved(s)
    ensures Conserved(Do(nodes, s, step))
  {
    var r := Do(nodes, s, step);
    forall x: Req ensures r.admitted[x] == InQueues(r.queues, x) + InHands(r.phases, x) {
      StepConservesOne(nodes, s, step, x);
    }
  }

  lemma StepConservesOne(nodes: seq<Node>, s: State, step: Step, x: Req)
    requires Sized(nodes, s) && Enabled(nodes, s, step)
    requires s.admitted[x] == InQueues(s.queues, x) + InHands(s.phases, x)
    ensures var r := Do(nodes, s, step); r.admitted[x] == InQueues(r.queues, x) + InHands(r.phases, x)
  {
    var r := Do(nodes, s, step);
    match step {
      case Arrive(g) =>
        AppendOne(s.queues, SOURCE, g, x);
      case RequestStop =>
      case Check(n) =>
        InHandsUpdate(s.phases, n, r.phases[n], x);
      case Take(n, k) =>
        TakeSome(s.queues, nodes[n].input, k, x);
        InHandsUpdate(s.phases, n, r.phases[n], x);
      case Emit(n, q, g) =>
        AppendOne(s.queues, q, g, x);
        InHandsUpdate(s.phases, n, r.phases[n], x);
      case Finish(n) =>
        InHandsUpdate(s.phases, n, r.phases[n], x);
    }
  }

  // ---- The chain of stop flags --------------------------------------------------------------------

  /** `u` sets one of the flags `n` waits for. */
  predicate Signals(nodes: seq<Node>, u: nat, n: nat)
    requires u < |nodes| && n < |nodes|
  {
    nodes[u].next.Some? && nodes[u].next.value in nodes[n].stops
  }

  /** `upstream[n]` holds the nodes that have exited once `n` may stop: whoever writes to the
    * queue `n` reads is among them, and each of them is, directly or through others, behind a
    * flag `n` waits for. */
  predicate WellWired(nodes: seq<Node>, upstream: seq<set<nat>>) {
    && |upstream| == |nodes|
    && (forall n, a :: 0 <= n < |nodes| && a in upstream[n] ==> a < |nodes|)
    && (forall n, w :: 0 <= n < |nodes| && 0 <= w < |nodes| && nodes[n].input in nodes[w].outputs ==> w in upstream[n])
    && (forall n, a :: 0 <= n < |nodes| && a in upstream[n] ==> Behind(nodes, upstream, n, a))
    && OneSetter(nodes)
  }

  predicate Behind(nodes: seq<Node>, upstream: seq<set<nat>>, n: nat, a: nat)
    requires |upstream| == |nodes| && n < |nodes|
  {
    exists u :: 0 <= u < |nodes| && Signals(nodes, u, n) && (a == u || a in upstream[u])
  }

  /** Each flag is set by at most one node, and the first one by none. */
  predicate OneSetter(nodes: seq<Node>) {
    && (forall u, v :: 0 <= u < v < |nodes| && nodes[u].next.Some? ==> nodes[u].next != nodes[v].next)
    && forall u :: 0 <= u < |nodes| ==> nodes[u].next != Some(STOP)
  }

  /** Flags only announce exits, and a node in its last round has nothing left upstream. */
  predicate FlagsTrue(nodes: seq<Node>, s: State)
    requires Sized(nodes, s)
  {
    forall u :: 0 <= u < |nodes| && nodes[u].next.Some? && s.flags[nodes[u].next.value] ==> s.phases[u].Exited?
  }

  predicate UpstreamGone(nodes: seq<Node>, upstream: seq<set<nat>>, s: State)
    requires Sized(nodes, s) && WellWired(nodes, upstream)
  {
    forall n, a :: 0 <= n < |nodes| && a in upstream[n] && LastRound(s.phases[n]) ==> s.phases[a].Exited?
  }

  lemma StepKeepsFlags(nodes: seq<Node>, s: State, step: Step)
    requires Sized(nodes, s) && Enabled(nodes, s, step) && OneSetter(nodes) && FlagsTrue(nodes, s)
    ensures FlagsTrue(nodes, Do(nodes, s, step))
  {
  }

  lemma StepKeepsUpstream(nodes: seq<Node>, upstream: seq<set<nat>>, s: State, step: Step)
    requires Sized(nodes, s) && Enabled(nodes, s, step) && WellWired(nodes, upstream)
    requires FlagsTrue(nodes, s) && UpstreamGone(nodes, upstream, s)
    ensures UpstreamGone(nodes, upstream, Do(nodes, s, step))
  {
    var r := Do(nodes, s, step);
    forall n, a | 0 <= n < |nodes| && a in upstream[n] && LastRound(r.phases[n]) ensures r.phases[a].Exited? {
      assert Behind(nodes, upstream, n, a);
      if !LastRound(s.phases[n]) {
        LastRoundBegins(nodes, s, step, n);
        assert step == Check(n);
        GoneBehind(nodes, upstream, s, n, a);
      }
      assert s.phases[a].Exited?;
    }
  }

  lemma LastRoundBegins(nodes: seq<Node>, s: State, step: Step, n: nat)
    requires Sized(nodes, s) && Enabled(nodes, s, step) && n < |nodes|
    requires LastRound(Do(nodes, s, step).phases[n]) && !LastRound(s.phases[n])
    ensures step == Check(n) && StopSeen(nodes, s, n)
  {
  }

  lemma GoneBehind(nodes: seq<Node>, upstream: seq<set<nat>>, s: State, n: nat, a: nat)
    requires Sized(nodes, s) && WellWired(nodes, upstream) && FlagsTrue(nodes, s) && UpstreamGone(nodes, upstream, s)
    requires n < |nodes| && a < |nodes| && StopSeen(nodes, s, n) && Behind(nodes, upstream, n, a)
    ensures s.phases[a].Exited?
  {
    var u :| 0 <= u < |nodes| && Signals(nodes, u, n) && (a == u || a in upstream[u]);
    assert s.phases[u].Exited?;
  }

  /** A node in its last round reads a queue nobody writes to any more. */
  lemma WritersGone(nodes: seq<Node>, upstream: seq<set<nat>>, s: State, n: nat, w: nat)
    requires Sized(nodes, s) && WellWired(nodes, upstream) && UpstreamGone(nodes, upstream, s)
    requires n < |nodes| && w < |nodes| && LastRound(s.phases[n]) && nodes[n].input in nodes[w].outputs
    ensures s.phases[w].Exited?
  {
    assert w in upstream[n];
  }

  // ---- Runs ---------------------------------------------------------------------------------------------

  /** All that holds in every state reached from a fresh start. */
  ghost predicate Safe(nodes: seq<Node>, upstream: seq<set<nat>>, s: State)
    requires Sized(nodes, s) && WellWired(nodes, upstream)
  {
    Conserved(s) && FlagsTrue(nodes, s) && UpstreamGone(nodes, upstream, s)
  }

  /** Every interleaving is safe: nothing is lost or duplicated, and whoever is in its last round
    * reads a queue whose writers have all exited. */
  lemma {:induction false} EveryRunIsSafe(nodes: seq<Node>, upstream: seq<set<nat>>, s: State, steps: seq<Step>, r: State)
    requires Sized(nodes, s) && WellWired(nodes, upstream) && Safe(nodes, upstream, s)
    requires Reaches(nodes, s, steps, r)
    ensures Sized(nodes, r) && Safe(nodes, upstream, r)
    decreases |steps|
  {
    if steps != [] {
      StepConserves(nodes, s, steps[0]);
      StepKeepsFlags(nodes, s, steps[0]);
      StepKeepsUpstream(nodes, upstream, s, steps[0]);
      EveryRunIsSafe(nodes, upstream, Do(nodes, s, steps[0]), steps[1..], r);
    }
  }

  /** Whatever the wiring, nothing is lost or duplicated on the way, and no message is empty. */
  lemma {:induction false} EveryRunConserves(nodes: seq<Node>, s: State, steps: seq<Step>, r: State)
    requires Sized(nodes, s) && Conserved(s) && NoEmptyGroup(s) && Reaches(nodes, s, steps, r)
    ensures Sized(nodes, r) && Conserved(r) && NoEmptyGroup(r)
    ensures |r.queues| == |s.queues|
    decreases |steps|
  {
    if steps != [] {
      StepConserves(nodes, s, steps[0]);
      StepKeepsGroups(nodes, s, steps[0]);
      EveryRunConserves(nodes, Do(nodes, s, steps[0]), steps[1..], r);
    }
  }

  predicate NoEmptyGroup(s: State) {
    forall q, i :: 0 <= q < |s.queues| && 0 <= i < |s.queues[q]| ==> s.queues[q][i] != multiset{}
  }

  lemma StepKeepsGroups(nodes: seq<Node>, s: State, step: Step)
    requires Sized(nodes, s) && Enabled(nodes, s, step) && NoEmptyGroup(s)
    ensures NoEmptyGroup(Do(nodes, s, step))
  {
  }

  // ---- The last read of a queue ---------------------------------------------------------------------------

  /** Only the first node reads the source. */
  predicate SourceReader(nodes: seq<Node>) {
    forall n :: 0 < n < |nodes| ==> nodes[n].input != SOURCE
  }

  predicate MadeLastRead(p: Phase) {
    p.Exited? || (p.Busy? && p.last)
  }

  /** All who read the queue have made their last read. */
  predicate Done(nodes: seq<Node>, s: State, q: nat)
    requires Sized(nodes, s)
  {
    forall n :: 0 <= n < |nodes| && nodes[n].input == q ==> MadeLastRead(s.phases[n])
  }

  /** The step is the last read of all that are made of queue `q`. */
  predicate FinalRead(nodes: seq<Node>, s: State, step: Step, q: nat)
    requires Sized(nodes, s) && Enabled(nodes, s, step)
  {
    && step.Take? && nodes[step.n].input == q && s.phases[step.n].last
    && forall m :: 0 <= m < |nodes| && m != step.n && nodes[m].input == q ==> MadeLastRead(s.phases[m])
  }

  /** It takes all there is: it is not limited, or finds no more than the limit. */
  predicate Fits(nodes: seq<Node>, s: State, step: Step)
    requires Sized(nodes, s) && Enabled(nodes, s, step) && step.Take?
  {
    nodes[step.n].bounded ==> |s.queues[nodes[step.n].input]| <= DRAIN_LIMIT
  }

  /** The final read of queue `q`, if it comes in the run, takes all there is. */
  ghost predicate FinalReadFits(nodes: seq<Node>, s: State, steps: seq<Step>, q: nat)
    requires Sized(nodes, s)
    decreases |steps|
  {
    steps != [] && Enabled(nodes, s, steps[0]) ==>
      && (FinalRead(nodes, s, steps[0], q) ==> Fits(nodes, s, steps[0]))
      && FinalReadFits(nodes, Do(nodes, s, steps[0]), steps[1..], q)
  }

  /** After the last read of a queue nothing is taken from it any more. */
  lemma {:induction false} NothingTaken(nodes: seq<Node>, s: State, steps: seq<Step>, r: State, q: nat)
    requires Sized(nodes, s) && q < |s.queues| && Done(nodes, s, q) && Reaches(nodes, s, steps, r)
    ensures Sized(nodes, r) && Done(nodes, r, q) && q < |r.queues| && s.queues[q] <= r.queues[q]
    decreases |steps|
  {
    if steps != [] {
      NothingTaken(nodes, Do(nodes, s, steps[0]), steps[1..], r, q);
    }
  }

  lemma NoMoreWrites(nodes: seq<Node>, upstream: seq<set<nat>>, s: State, step: Step, n: nat)
    requires Sized(nodes, s) && Enabled(nodes, s, step) && WellWired(nodes, upstream) && UpstreamGone(nodes, upstream, s)
    requires n < |nodes| && LastRound(s.phases[n])
    ensures step.Emit? ==> step.queue != nodes[n].input
  {
    if step.Emit? && nodes[n].input in nodes[step.n].outputs {
      WritersGone(nodes, upstream, s, n, step.n);
    }
  }

  lemma QueueUntouched(nodes: seq<Node>, s: State, step: Step, q: nat)
    requires Sized(nodes, s) && Enabled(nodes, s, step) && SourceReader(nodes)
    requires q < |s.queues| && Reads(nodes, q) && Done(nodes, s, q) && (step.Emit? ==> step.queue != q)
    ensures Do(nodes, s, step).queues[q] == s.queues[q] && Done(nodes, Do(nodes, s, step), q) && !FinalRead(nodes, s, step, q)
  {
  }

  /** And in a well-wired network nothing is added to it either. */
  lemma {:induction false} NothingAdded(nodes: seq<Node>, upstream: seq<set<nat>>, s: State, steps: seq<Step>, r: State, q: nat)
    requires Sized(nodes, s) && WellWired(nodes, upstream) && SourceReader(nodes) && Safe(nodes, upstream, s)
    requires q < |s.queues| && Reads(nodes, q) && Done(nodes, s, q) && Reaches(nodes, s, steps, r)
    ensures q < |r.queues| && r.queues[q] == s.queues[q] && FinalReadFits(nodes, s, steps, q)
    decreases |steps|
  {
    if steps != [] {
      hide WellWired, Conserved, UpstreamGone, FlagsTrue;
      var n :| 0 <= n < |nodes| && nodes[n].input == q;
      NoMoreWrites(nodes, upstream, s, steps[0], n);
      QueueUntouched(nodes, s, steps[0], q);
      EveryRunIsSafe(nodes, upstream, s, [steps[0]], Do(nodes, s, steps[0]));
      NothingAdded(nodes, upstream, Do(nodes, s, steps[0]), steps[1..], r, q);
    }
  }

  /** The step by which a queue becomes done is its final read. */
  lemma DoneByFinalRead(nodes: seq<Node>, s: State, step: Step, q: nat)
    requires Sized(nodes, s) && Enabled(nodes, s, step) && q < |s.queues| && !Done(nodes, s, q)
    ensures Done(nodes, Do(nodes, s, step), q) <==> FinalRead(nodes, s, step, q)
    ensures FinalRead(nodes, s, step, q) ==> (Do(nodes, s, step).queues[q] == [] <==> Fits(nodes, s, step))
  {
    var r := Do(nodes, s, step);
    var n :| 0 <= n < |nodes| && nodes[n].input == q && !MadeLastRead(s.phases[n]);
    if Done(nodes, r, q) {
      assert MadeLastRead(r.phases[n]);
      forall m | 0 <= m < |nodes| && m != n && nodes[m].input == q ensures MadeLastRead(s.phases[m]) {
        assert MadeLastRead(r.phases[m]);
      }
    }
  }

  /** Whatever the number of its readers, something is left behind in a queue if and only if its
    * final read is limited and finds more than DRAIN_LIMIT groups. */
  lemma {:induction false} LeftBehindIff(nodes: seq<Node>, upstream: seq<set<nat>>, s: State, steps: seq<Step>, r: State, q: nat)
    requires Sized(nodes, s) && WellWired(nodes, upstream) && SourceReader(nodes) && Safe(nodes, upstream, s)
    requires q < |s.queues| && Reads(nodes, q) && !Done(nodes, s, q) && Reaches(nodes, s, steps, r) && AllExited(r)
    ensures q < |r.queues| && (r.queues[q] == [] <==> FinalReadFits(nodes, s, steps, q))
    decreases |steps|
  {
    hide WellWired, Safe;
    if steps != [] {
      var next := Do(nodes, s, steps[0]);
      DoneByFinalRead(nodes, s, steps[0], q);
      EveryRunIsSafe(nodes, upstream, s, [steps[0]], next);
      if Done(nodes, next, q) {
        NothingAdded(nodes, upstream, next, steps[1..], r, q);
      } else {
        LeftBehindIff(nodes, upstream, next, steps[1..], r, q);
      }
    }
  }

  // ---- At the end -------------------------------------------------------------------------------------

  predicate Reads(nodes: seq<Node>, q: nat) {
    exists n :: 0 <= n < |nodes| && nodes[n].input == q
  }

  /** Every queue but the sink is read by some node. */
  predicate AllRead(nodes: seq<Node>, queues: nat) {
    forall q :: 0 <= q < queues && q != SINK ==> Reads(nodes, q)
  }

  predicate AllExited(s: State) {
    forall n :: 0 <= n < |s.phases| ==> s.phases[n].Exited?
  }

  lemma {:induction false} NoHands(ps: seq<Phase>, x: Req)
    requires forall n :: 0 <= n < |ps| ==> ps[n].Exited?
    ensures InHands(ps, x) == 0
  {
    if ps != [] {
      NoHands(ps[..|ps| - 1], x);
    }
  }

  /** What is in the other queues, all together. */
  lemma {:induction false} OtherQueues(qs: seq<seq<Group>>, i: nat, x: Req)
    requires i < |qs|
    ensures InQueues(qs, x) >= InQueue(qs[i], x)
    ensures InQueues(qs, x) == InQueue(qs[i], x) <==> forall q :: 0 <= q < |qs| && q != i ==> InQueue(qs[q], x) == 0
  {
    var init, last := qs[..|qs| - 1], |qs| - 1;
    assert forall q :: 0 <= q < last ==> init[q] == qs[q];
    if i == last {
      EmptyQueues(init, x);
    } else {
      OtherQueues(init, i, x);
    }
  }

  lemma {:induction false} EmptyQueues(qs: seq<seq<Group>>, x: Req)
    ensures InQueues(qs, x) == 0 <==> forall q :: 0 <= q < |qs| ==> InQueue(qs[q], x) == 0
  {
    if qs != [] {
      var init := qs[..|qs| - 1];
      assert forall q :: 0 <= q < |init| ==> init[q] == qs[q];
      EmptyQueues(init, x);
    }
  }

  /** When all processes have exited, a request has been delivered as often as it was admitted if
    * and only if it was left behind in no other queue. */
  lemma DeliveredIffNotLeft(nodes: seq<Node>, s: State, x: Req)
    requires Sized(nodes, s) && Conserved(s) && AllExited(s)
    ensures SumGroups(s.queues[SINK])[x] <= s.admitted[x]
    ensures SumGroups(s.queues[SINK])[x] == s.admitted[x] <==>
            forall q :: 0 <= q < |s.queues| && q != SINK ==> InQueue(s.queues[q], x) == 0
  {
    NoHands(s.phases, x);
    OtherQueues(s.queues, SINK, x);
    InQueueIsSum(s.queues[SINK], x);
  }

  lemma {:induction false} NothingIn(q: seq<Group>)
    requires forall i :: 0 <= i < |q| ==> q[i] != multiset{}
    ensures q == [] <==> forall x: Req :: InQueue(q, x) == 0
  {
    if q != [] {
      var x :| x in q[|q| - 1];
      assert InQueue(q, x) > 0;
    }
  }

  /** The final read of every queue took all there was. */
  ghost predicate AllFinalReadsFit(nodes: seq<Node>, s: State, steps: seq<Step>)
    requires Sized(nodes, s)
  {
    forall q :: 0 <= q < |s.queues| && q != SINK ==> FinalReadFits(nodes, s, steps, q)
  }

  predicate NothingLeft(s: State) {
    forall q :: 0 <= q < |s.queues| && q != SINK ==> s.queues[q] == []
  }

  lemma DeliveredIffNothingLeft(nodes: seq<Node>, s: State)
    requires Sized(nodes, s) && Conserved(s) && NoEmptyGroup(s) && AllExited(s)
    ensures SumGroups(s.queues[SINK]) == s.admitted <==> NothingLeft(s)
  {
    hide Conserved, SumGroups, AllExited, InQueue;
    if NothingLeft(s) {
      forall x: Req ensures SumGroups(s.queues[SINK])[x] == s.admitted[x] {
        DeliveredIffNotLeft(nodes, s, x);
        forall q | 0 <= q < |s.queues| && q != SINK ensures InQueue(s.queues[q], x) == 0 {
          NothingIn(s.queues[q]);
        }
      }
    }
    if SumGroups(s.queues[SINK]) == s.admitted {
      forall q | 0 <= q < |s.queues| && q != SINK ensures s.queues[q] == [] {
        forall x: Req ensures InQueue(s.queues[q], x) == 0 {
          DeliveredIffNotLeft(nodes, s, x);
        }
        NothingIn(s.queues[q]);
      }
    }
  }

  /** After a shutdown every request has come out as often as it was admitted if and only if the
    * final read of every queue took all there was. */
  lemma DeliversIff(nodes: seq<Node>, upstream: seq<set<nat>>, s: State, steps: seq<Step>, r: State)
    requires Sized(nodes, s) && WellWired(nodes, upstream) && SourceReader(nodes) && AllRead(nodes, |s.queues|)
    requires FreshStart(s) && Reaches(nodes, s, steps, r) && AllExited(r)
    ensures SINK < |r.queues| && (SumGroups(r.queues[SINK]) == r.admitted <==> AllFinalReadsFit(nodes, s, steps))
  {
    hide WellWired, Reaches, UpstreamGone, FlagsTrue, FreshStart, Conserved, SumGroups;
    FreshIsSafe(nodes, upstream, s);
    EveryRunConserves(nodes, s, steps, r);
    DeliveredIffNothingLeft(nodes, r);
    forall q | 0 <= q < |s.queues| && q != SINK ensures r.queues[q] == [] <==> FinalReadFits(nodes, s, steps, q) {
      FreshIsNotDone(nodes, s, q);
      LeftBehindIff(nodes, upstream, s, steps, r, q);
    }
  }

  // ---- Fresh starts ------------------------------------------------------------------------------------

  predicate FreshStart(s: State) {
    && s.admitted == multiset{}
    && (forall q :: 0 <= q < |s.queues| ==> s.queues[q] == [])
    && (forall f :: 0 <= f < |s.flags| ==> !s.flags[f])
    && forall n :: 0 <= n < |s.phases| ==> s.phases[n].Idle?
  }

  lemma {:induction false} NoHandsYet(ps: seq<Phase>, x: Req)
    requires forall n :: 0 <= n < |ps| ==> ps[n].Idle?
    ensures InHands(ps, x) == 0
  {
    if ps != [] {
      NoHandsYet(ps[..|ps| - 1], x);
    }
  }

  lemma FreshIsSafe(nodes: seq<Node>, upstream: seq<set<nat>>, s: State)
    requires Sized(nodes, s) && WellWired(nodes, upstream) && FreshStart(s)
    ensures Safe(nodes, upstream, s) && NoEmptyGroup(s)
  {
    FreshIsConserved(s);
  }

  lemma FreshIsConserved(s: State)
    requires FreshStart(s)
    ensures Conserved(s) && NoEmptyGroup(s)
  {
    forall x: Req ensures s.admitted[x] == InQueues(s.queues, x) + InHands(s.phases, x) {
      EmptyQueues(s.queues, x);
      NoHandsYet(s.phases, x);
    }
  }

  lemma FreshIsNotDone(nodes: seq<Node>, s: State, q: nat)
    requires Sized(nodes, s) && FreshStart(s) && q < |s.queues| && q != SINK && AllRead(nodes, |s.queues|)
    ensures Reads(nodes, q) && !Done(nodes, s, q)
  {
    assert Reads(nodes, q);
    var n :| 0 <= n < |nodes| && nodes[n].input == q;
    assert s.phases[n].Idle?;
  }
}
