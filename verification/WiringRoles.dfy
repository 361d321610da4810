/** Who is connected with whom in a deployed model, process by process and without numbers of queues or flags. */
module WiringRoles {
  import opened Options
  import opened Network
  import opened Wiring

  /** `x` waits for nothing but the flag of `y`. */
  predicate After(x: Node, y: Node) {
    |x.stops| == 1 && y.next == Some(x.stops[0])
  }

  /** `x` waits for the flags of all the given processes, in their order, and for no other. */
  predicate AfterAll(x: Node, ys: seq<Node>) {
    |x.stops| == |ys| && forall i :: 0 <= i < |ys| ==> ys[i].next == Some(x.stops[i])
  }

  /** All processes of a component, by what they are for. */
  datatype Crew = Crew(input: Node, preprocessors: seq<Node>, readers: seq<Node>, main: Node, outputs: seq<Node>)

  function All(c: Crew): seq<Node> {
    [c.input] + c.preprocessors + c.readers + [c.main] + c.outputs
  }

  /** The input process and the output processes. Only the first input process may read without limit. The output
    * processes of the last component write to the outside and set no flag; those of another do all alike. */
  predicate EndsOk(input: Node, main: Node, outputs: seq<Node>, w: Chain, v: Chain, last: bool) {
    && input.input == w.source && input.stops == [w.stop] && (input.bounded <==> w.source != SOURCE)
    && forall o :: o in outputs ==>
         && main.outputs == {o.input} && After(o, main) && o.bounded
         && if last then o.outputs == {SINK} && o.next.None? else o.outputs == {v.source} && o.next == Some(v.stop)
  }

  /** All preprocessors read from the input process; each feeds a reader thread of its own and gives what fails to the
    * output processes. */
  predicate PreprocessorsOk(c: Crew) {
    && |c.preprocessors| == |c.readers|
    && forall i :: 0 <= i < |c.preprocessors| ==>
         && c.input.outputs == {c.preprocessors[i].input} && After(c.preprocessors[i], c.input) && c.preprocessors[i].bounded
         && c.preprocessors[i].outputs == {c.readers[i].input} + c.main.outputs
  }

  /** The reader threads feed the main loop and wait for the preprocessors up to their own; the main loop waits for all
    * of them. Both read to the end, whatever there is. */
  predicate ComputeOk(c: Crew) {
    && |c.preprocessors| == |c.readers|
    && (forall i :: 0 <= i < |c.readers| ==>
          c.readers[i].outputs == {c.main.input} && AfterAll(c.readers[i], c.preprocessors[..i + 1]) && !c.readers[i].bounded)
    && AfterAll(c.main, c.readers) && !c.main.bounded
  }

  /** The processes of a pipelined component, as many of each kind as it says. */
  predicate CrewOk(c: Crew, k: nat, p: nat, w: Chain, v: Chain, last: bool) {
    && |c.preprocessors| == k > 0 && |c.outputs| == p > 0
    && EndsOk(c.input, c.main, c.outputs, w, v, last)
    && PreprocessorsOk(c)
    && ComputeOk(c)
    && Apart([c.input, c.preprocessors[0]] + c.readers + [c.main, c.outputs[0]])
    && SetApart([c.input] + c.preprocessors + c.readers + [c.main])
  }

  /** They read different queues. */
  predicate Apart(nodes: seq<Node>) {
    forall i, j :: 0 <= i < j < |nodes| ==> nodes[i].input != nodes[j].input
  }

  /** They set different flags. */
  predicate SetApart(nodes: seq<Node>) {
    forall i, j :: 0 <= i < j < |nodes| ==> nodes[i].next.Some? && nodes[j].next.Some? && nodes[i].next != nodes[j].next
  }

  /** The processes of a pipelined component. */
  function CrewOf(w: Chain, k: nat, p: nat, last: bool): Crew {
    var i := InputStage(w);
    var v := PipelinedStage(i, k, w.queues);
    Crew(i.nodes[|w.nodes|], Preprocessors(i, k, w.queues), Readers(i, k), MainLoop(i, k, w.queues), Outputs(v, p, last))
  }

  lemma {:induction false} RowExact(first: nat, n: nat)
    ensures forall i :: 0 <= i < n ==> Row(first, n)[i] == first + i
  {
    if n > 0 {
      RowExact(first, n - 1);
    }
  }

  lemma PreprocessorsRoles(w: Chain, k: nat, p: nat, last: bool)
    ensures PreprocessorsOk(CrewOf(w, k, p, last))
  {
  }

  lemma ReaderWaits(w: Chain, k: nat, outQ: nat, j: nat)
    requires j < k
    ensures AfterAll(Readers(w, k)[j], Preprocessors(w, k, outQ)[..j + 1])
  {
    var x, ys := Readers(w, k)[j], Preprocessors(w, k, outQ)[..j + 1];
    RowExact(w.flags, j + 1);
    assert x.stops == Row(w.flags, j + 1);
    forall l | 0 <= l < |ys| ensures ys[l].next == Some(x.stops[l]) {
      assert ys[l] == Preprocessors(w, k, outQ)[l];
    }
  }

  lemma MainWaits(w: Chain, k: nat, outQ: nat)
    ensures AfterAll(MainLoop(w, k, outQ), Readers(w, k))
  {
    RowExact(w.flags + k, k);
  }

  lemma ComputeRoles(w: Chain, k: nat, p: nat, last: bool)
    ensures ComputeOk(CrewOf(w, k, p, last))
  {
    hide AfterAll;
    var i, c := InputStage(w), CrewOf(w, k, p, last);
    forall j | 0 <= j < k ensures AfterAll(c.readers[j], c.preprocessors[..j + 1]) {
      ReaderWaits(i, k, w.queues, j);
    }
    MainWaits(i, k, w.queues);
  }

  lemma EndsRoles(w: Chain, k: nat, p: nat, last: bool)
    ensures var c := CrewOf(w, k, p, last); EndsOk(c.input, c.main, c.outputs, w, Attach(w, Pipelined(k, p), last), last)
  {
    var v := PipelinedStage(InputStage(w), k, w.queues);
    assert forall o :: o in Outputs(v, p, last) ==> o == Outputs(v, 1, last)[0];
  }

  lemma CrewApart(w: Chain, k: nat, p: nat, last: bool)
    requires k > 0 && p > 0 && w.source < w.queues
    ensures var c := CrewOf(w, k, p, last); Apart([c.input, c.preprocessors[0]] + c.readers + [c.main, c.outputs[0]])
  {
  }

  lemma CrewSetsApart(w: Chain, k: nat, p: nat, last: bool)
    ensures var c := CrewOf(w, k, p, last); SetApart([c.input] + c.preprocessors + c.readers + [c.main])
  {
    var c := CrewOf(w, k, p, last);
    var all := [c.input] + c.preprocessors + c.readers + [c.main];
    forall i | 0 <= i < |all| ensures all[i].next == Some(w.flags + i) {
    }
  }

  lemma PipelinedRoles(w: Chain, k: nat, p: nat, last: bool)
    requires k > 0 && p > 0 && w.source < w.queues
    ensures var c, v := CrewOf(w, k, p, last), Attach(w, Pipelined(k, p), last);
            v.nodes == w.nodes + All(c) && CrewOk(c, k, p, w, v, last)
  {
    PreprocessorsRoles(w, k, p, last);
    ComputeRoles(w, k, p, last);
    EndsRoles(w, k, p, last);
    CrewApart(w, k, p, last);
    CrewSetsApart(w, k, p, last);
    CrewIsAll(w, k, p, last);
    hide PreprocessorsOk, ComputeOk, EndsOk, Apart, SetApart, Attach, All;
  }

  lemma CrewIsAll(w: Chain, k: nat, p: nat, last: bool)
    ensures Attach(w, Pipelined(k, p), last).nodes == w.nodes + All(CrewOf(w, k, p, last))
  {
    hide Preprocessors, Readers, MainLoop, Outputs;
    assert InputStage(w).nodes == w.nodes + [CrewOf(w, k, p, last).input];
  }

  /** A custom component: its one process reads from the input process and feeds the output processes. */
  predicate CustomOk(input: Node, main: Node, outputs: seq<Node>, p: nat, w: Chain, v: Chain, last: bool) {
    && |outputs| == p > 0
    && EndsOk(input, main, outputs, w, v, last)
    && input.outputs == {main.input} && After(main, input) && main.bounded
    && Apart([input, main, outputs[0]])
    && SetApart([input, main])
  }

  lemma CustomRoles(w: Chain, p: nat, last: bool) returns (input: Node, main: Node, outputs: seq<Node>)
    requires p > 0 && w.source < w.queues
    ensures var v := Attach(w, Custom(p), last);
            v.nodes == w.nodes + [input, main] + outputs && CustomOk(input, main, outputs, p, w, v, last)
  {
    var i := InputStage(w);
    var s := CustomStage(i, w.queues);
    input, main, outputs := i.nodes[|w.nodes|], s.nodes[|i.nodes|], Outputs(s, p, last);
  }

  /** What component `n` of a deployed model adds. */
  ghost predicate RolesOk(c: Component, w: Chain, v: Chain, last: bool) {
    match c
    case Pipelined(k, p) => exists crew: Crew :: v.nodes == w.nodes + All(crew) && CrewOk(crew, k, p, w, v, last)
    case Custom(p) => exists input, main, outputs ::
      v.nodes == w.nodes + [input, main] + outputs && CustomOk(input, main, outputs, p, w, v, last)
  }

  /** Component after component the processes are those, and the first process of each reads what the output processes
    * of the one before it write and waits for their flag. */
  lemma DeployedRoles(cs: seq<Component>, n: nat)
    requires Proper(cs) && n < |cs|
    ensures RolesOk(cs[n], Wire(cs, n), Wire(cs, n + 1), n + 1 == |cs|)
    ensures n == 0 ==> Wire(cs, n) == OUTSIDE
  {
    var w, last := Wire(cs, n), n + 1 == |cs|;
    WireSound(cs, n);
    hide Attach, CrewOk, CustomOk;
    match cs[n] {
      case Pipelined(k, p) => PipelinedRoles(w, k, p, last);
      case Custom(p) => var input, main, outputs := CustomRoles(w, p, last);
    }
  }
}
