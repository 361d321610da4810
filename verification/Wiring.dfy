/** Which queue and which flag every process of a deployed model gets, stage by stage, and that a
  * model whose components each end in one output process, but for the last, is well wired. */
module Wiring {
  import opened Options
  import opened Network
  import opened NetworkProgress

  datatype Component = Pipelined(preprocessors: nat, postprocessors: nat) | Custom(postprocessors: nat)

  /** The processes so far, how many queues and flags there are, and the queue and the flag that the
    * next stage reads and waits for. */
  datatype Chain = Chain(nodes: seq<Node>, queues: nat, flags: nat, source: nat, stop: nat)

  /** Only the outside queues and the outside stop flag. */
  const OUTSIDE := Chain([], 2, 1, SOURCE, STOP)

  function Row(first: nat, n: nat): (r: seq<nat>)
    ensures |r| == n && forall f :: f in r <==> first <= f < first + n
  {
    if n == 0 then [] else Row(first, n - 1) + [first + n - 1]
  }

  // ---- The stages ------------------------------------------------------------------------------------------

  /** The input process reads the last queue and waits for the last flag. Only the first one, which
    * reads from outside, is not limited. The queue numbered before its own is the component's shared
    * output queue. */
  function InputStage(w: Chain): Chain {
    Chain(w.nodes + [Node(w.source, {w.queues + 1}, [w.stop], Some(w.flags), w.source != SOURCE)],
          w.queues + 2, w.flags + 1, w.queues + 1, w.flags)
  }

  /** Preprocessors all read one queue and wait for one flag; each has its own queue and flag, and
    * writes failed requests to the shared output queue. */
  function Preprocessors(w: Chain, k: nat, outQ: nat): seq<Node> {
    seq(k, i requires 0 <= i < k => Node(w.source, {w.queues + i, outQ}, [w.stop], Some(w.flags + i), true))
  }

  /** The reader threads of the compute process, one for each preprocessor's queue, fill its buffer;
    * the flags are waited for in order. */
  function Readers(w: Chain, k: nat): seq<Node> {
    seq(k, i requires 0 <= i < k =>
      Node(w.queues + i, {w.queues + k}, Row(w.flags, i + 1), Some(w.flags + k + i), false))
  }

  /** Its main loop ends when all its reader threads have ended. */
  function MainLoop(w: Chain, k: nat, outQ: nat): Node {
    Node(w.queues + k, {outQ}, Row(w.flags + k, k), Some(w.flags + k + k), false)
  }

  function PipelinedStage(w: Chain, k: nat, outQ: nat): Chain {
    Chain(w.nodes + Preprocessors(w, k, outQ) + Readers(w, k) + [MainLoop(w, k, outQ)],
          w.queues + k + 1, w.flags + k + k + 1, outQ, w.flags + k + k)
  }

  /** A custom component is one process. */
  function CustomStage(w: Chain, outQ: nat): Chain {
    Chain(w.nodes + [Node(w.source, {outQ}, [w.stop], Some(w.flags), true)], w.queues, w.flags + 1, outQ, w.flags)
  }

  /** Output processes all read the shared output queue and wait for the same flag. Those of the last
    * component write to the outside and set no flag; those of another all write to the same queue and
    * set the same flag. */
  function Outputs(w: Chain, p: nat, last: bool): seq<Node> {
    var x := if last then Node(w.source, {SINK}, [w.stop], None, true)
             else Node(w.source, {w.queues}, [w.stop], Some(w.flags), true);
    seq(p, _ => x)
  }

  function OutputStage(w: Chain, p: nat, last: bool): Chain {
    if last then w.(nodes := w.nodes + Outputs(w, p, last))
    else Chain(w.nodes + Outputs(w, p, last), w.queues + 1, w.flags + 1, w.queues, w.flags)
  }

  function Work(w: Chain, c: Component, outQ: nat): Chain {
    match c
    case Pipelined(k, _) => PipelinedStage(w, k, outQ)
    case Custom(_) => CustomStage(w, outQ)
  }

  function Attach(w: Chain, c: Component, last: bool): Chain {
    OutputStage(Work(InputStage(w), c, w.queues), c.postprocessors, last)
  }

  /** The first `n` components of a model. */
  function Wire(cs: seq<Component>, n: nat): Chain
    requires n <= |cs|
  {
    if n == 0 then OUTSIDE else Attach(Wire(cs, n - 1), cs[n - 1], n == |cs|)
  }

  function Deployed(cs: seq<Component>): Chain {
    Wire(cs, |cs|)
  }

  /** At least one component, and at least one process of every kind. */
  predicate Proper(cs: seq<Component>) {
    && cs != []
    && forall i :: 0 <= i < |cs| ==> cs[i].postprocessors > 0 && (cs[i].Pipelined? ==> cs[i].preprocessors > 0)
  }

  /** Every component but the last has exactly one output process. */
  predicate SingleOutputs(cs: seq<Component>) {
    forall i :: 0 <= i < |cs| - 1 ==> cs[i].postprocessors == 1
  }

  // ---- What any chain keeps ----------------------------------------------------------------------------------

  /** Ids below the counters, the source never written, the sink never read, and the outside
    * stop flag set by nobody. */
  predicate InRange(nodes: seq<Node>, queues: nat, flags: nat) {
    SINK < queues && STOP < flags && forall n :: 0 <= n < |nodes| ==> NodeInRange(nodes[n], queues, flags)
  }

  predicate NodeInRange(x: Node, queues: nat, flags: nat) {
    && x.input < queues && x.input != SINK
    && (forall q :: q in x.outputs ==> q < queues && q != SOURCE)
    && (forall f :: f in x.stops ==> f < flags)
    && (x.next.Some? ==> STOP < x.next.value < flags)
  }

  /** Every queue is read by somebody, but for the sink and some that are still open. */
  predicate AllReadBut(nodes: seq<Node>, queues: nat, open: set<nat>) {
    forall q :: 0 <= q < queues && q != SINK && q !in open ==> Reads(nodes, q)
  }

  /** The source is read by the first node and by no other. */
  predicate FirstReads(nodes: seq<Node>) {
    forall n :: 0 <= n < |nodes| ==> (nodes[n].input == SOURCE <==> n == 0)
  }

  /** What is true of the processes after any stage, whatever the number of output processes. */
  predicate Sound(w: Chain, open: set<nat>) {
    && InRange(w.nodes, w.queues, w.flags) && FirstReads(w.nodes)
    && HasOutputs(w.nodes) && OrderedStops(w.nodes)
    && AllReadBut(w.nodes, w.queues, open)
    && w.source < w.queues && w.source != SINK && (w.source == SOURCE <==> w.nodes == [])
    && w.stop < w.flags && (w.stop == STOP || SetBefore(w.nodes, |w.nodes|, w.stop))
  }

  /** Nodes with new ids join. */
  lemma Join(nodes: seq<Node>, queues: nat, flags: nat, layer: seq<Node>, moreQueues: nat, moreFlags: nat)
    requires InRange(nodes, queues, flags) && FirstReads(nodes) && HasOutputs(nodes) && OrderedStops(nodes)
    requires queues <= moreQueues && flags <= moreFlags && layer != []
    requires forall i :: 0 <= i < |layer| ==>
               && NodeInRange(layer[i], moreQueues, moreFlags) && layer[i].outputs != {}
               && (layer[i].input == SOURCE <==> nodes == [] && i == 0)
               && forall f :: f in layer[i].stops ==> f == STOP || SetBefore(nodes, |nodes|, f)
    ensures var all := nodes + layer; InRange(all, moreQueues, moreFlags) && FirstReads(all) && HasOutputs(all) && OrderedStops(all)
  {
    var all := nodes + layer;
    forall n | 0 <= n < |all| ensures NodeInRange(all[n], moreQueues, moreFlags) {
      assert n < |nodes| ==> NodeInRange(nodes[n], queues, flags);
    }
    forall n, f | 0 <= n < |all| && f in all[n].stops ensures f == STOP || SetBefore(all, n, f) {
      if f != STOP {
        if n < |nodes| {
          assert SetBefore(nodes, n, f);
          var u :| 0 <= u < n && nodes[u].next == Some(f);
          assert all[u].next == Some(f);
        } else {
          assert layer[n - |nodes|] == all[n];
          assert SetBefore(nodes, |nodes|, f);
          var u :| 0 <= u < |nodes| && nodes[u].next == Some(f);
          assert all[u].next == Some(f);
        }
      }
    }
  }

  lemma JoinReads(nodes: seq<Node>, queues: nat, open: set<nat>, layer: seq<Node>, moreQueues: nat, stillOpen: set<nat>)
    requires AllReadBut(nodes, queues, open)
    requires forall q :: 0 <= q < moreQueues && q != SINK && q !in stillOpen && (q >= queues || q in open) ==> Reads(layer, q)
    ensures AllReadBut(nodes + layer, moreQueues, stillOpen)
  {
    var all := nodes + layer;
    forall q | 0 <= q < moreQueues && q != SINK && q !in stillOpen ensures Reads(all, q) {
      if q >= queues || q in open {
        assert Reads(layer, q);
        var n :| 0 <= n < |layer| && layer[n].input == q;
        assert all[|nodes| + n].input == q;
      } else {
        assert Reads(nodes, q);
        var n :| 0 <= n < |nodes| && nodes[n].input == q;
        assert all[n].input == q;
      }
    }
  }

  lemma SetByLast(nodes: seq<Node>, x: Node, f: nat)
    requires x.next == Some(f)
    ensures SetBefore(nodes + [x], |nodes + [x]|, f)
  {
    assert (nodes + [x])[|nodes|] == x;
  }

  lemma InputSound(w: Chain)
    requires Sound(w, {w.source})
    ensures var v := InputStage(w); Sound(v, {v.source, w.queues})
  {
    var x := Node(w.source, {w.queues + 1}, [w.stop], Some(w.flags), w.source != SOURCE);
    var v := InputStage(w);
    assert w.queues + 1 in x.outputs;
    Join(w.nodes, w.queues, w.flags, [x], v.queues, v.flags);
    assert [x][0].input == w.source;
    JoinReads(w.nodes, w.queues, {w.source}, [x], v.queues, {v.source, w.queues});
    SetByLast(w.nodes, x, w.flags);
  }

  lemma CustomSound(w: Chain, outQ: nat)
    requires Sound(w, {w.source, outQ}) && w.nodes != [] && SINK < outQ < w.queues && w.source != outQ
    ensures Sound(CustomStage(w, outQ), {outQ})
  {
    var x := Node(w.source, {outQ}, [w.stop], Some(w.flags), true);
    var v := CustomStage(w, outQ);
    assert outQ in x.outputs;
    Join(w.nodes, w.queues, w.flags, [x], v.queues, v.flags);
    assert [x][0].input == w.source;
    JoinReads(w.nodes, w.queues, {w.source, outQ}, [x], v.queues, {outQ});
    SetByLast(w.nodes, x, w.flags);
  }

  /** The chain between its preprocessors and the rest of the compute process. */
  function Preprocessed(w: Chain, k: nat, outQ: nat): Chain {
    Chain(w.nodes + Preprocessors(w, k, outQ), w.queues + k + 1, w.flags + k, w.source, w.stop)
  }

  function Read(w: Chain, k: nat, outQ: nat): Chain {
    Chain(w.nodes + Preprocessors(w, k, outQ) + Readers(w, k), w.queues + k + 1, w.flags + k + k, w.source, w.stop)
  }

  lemma PreprocessorsSound(w: Chain, k: nat, outQ: nat)
    requires Sound(w, {w.source, outQ}) && w.nodes != [] && SINK < outQ < w.queues && w.source != outQ && k > 0
    ensures var v := Preprocessed(w, k, outQ);
            && InRange(v.nodes, v.queues, v.flags) && FirstReads(v.nodes) && HasOutputs(v.nodes) && OrderedStops(v.nodes)
            && AllReadBut(v.nodes, w.queues, {outQ})
            && forall f :: w.flags <= f < w.flags + k ==> SetBefore(v.nodes, |v.nodes|, f)
  {
    var layer, v := Preprocessors(w, k, outQ), Preprocessed(w, k, outQ);
    forall i | 0 <= i < k ensures layer[i].outputs != {} {
      assert outQ in layer[i].outputs;
    }
    Join(w.nodes, w.queues, w.flags, layer, v.queues, v.flags);
    assert layer[0].input == w.source;
    JoinReads(w.nodes, w.queues, {w.source, outQ}, layer, w.queues, {outQ});
    forall f | w.flags <= f < w.flags + k ensures SetBefore(v.nodes, |v.nodes|, f) {
      assert v.nodes[|w.nodes| + f - w.flags] == layer[f - w.flags];
    }
  }

  lemma ReadersSound(w: Chain, k: nat, outQ: nat)
    requires Sound(w, {w.source, outQ}) && w.nodes != [] && SINK < outQ < w.queues && w.source != outQ && k > 0
    ensures var v := Read(w, k, outQ);
            && InRange(v.nodes, v.queues, v.flags) && FirstReads(v.nodes) && HasOutputs(v.nodes) && OrderedStops(v.nodes)
            && AllReadBut(v.nodes, v.queues, {outQ, w.queues + k})
            && forall f :: w.flags + k <= f < w.flags + k + k ==> SetBefore(v.nodes, |v.nodes|, f)
  {
    PreprocessorsSound(w, k, outQ);
    var p, layer, v := Preprocessed(w, k, outQ), Readers(w, k), Read(w, k, outQ);
    forall i | 0 <= i < k ensures layer[i].outputs != {} {
      assert w.queues + k in layer[i].outputs;
    }
    forall i, f | 0 <= i < k && f in layer[i].stops ensures f < p.flags && SetBefore(p.nodes, |p.nodes|, f) {
      assert layer[i].stops == Row(w.flags, i + 1);
    }
    forall i | 0 <= i < k ensures NodeInRange(layer[i], v.queues, v.flags) && layer[i].input != SOURCE {
      assert layer[i].outputs == {w.queues + k} && layer[i].stops == Row(w.flags, i + 1);
    }
    Join(p.nodes, p.queues, p.flags, layer, v.queues, v.flags);
    forall q | w.queues <= q < w.queues + k ensures Reads(layer, q) {
      assert layer[q - w.queues].input == q;
    }
    JoinReads(p.nodes, w.queues, {outQ}, layer, v.queues, {outQ, w.queues + k});
    forall f | w.flags + k <= f < w.flags + k + k ensures SetBefore(v.nodes, |v.nodes|, f) {
      assert v.nodes[|p.nodes| + f - w.flags - k] == layer[f - w.flags - k];
    }
  }

  lemma PipelinedSound(w: Chain, k: nat, outQ: nat)
    requires Sound(w, {w.source, outQ}) && w.nodes != [] && SINK < outQ < w.queues && w.source != outQ && k > 0
    ensures Sound(PipelinedStage(w, k, outQ), {outQ})
  {
    ReadersSound(w, k, outQ);
    var r, x, v := Read(w, k, outQ), MainLoop(w, k, outQ), PipelinedStage(w, k, outQ);
    assert outQ in x.outputs;
    Join(r.nodes, r.queues, r.flags, [x], v.queues, v.flags);
    assert [x][0].input == w.queues + k;
    JoinReads(r.nodes, r.queues, {outQ, w.queues + k}, [x], v.queues, {outQ});
    SetByLast(r.nodes, x, v.stop);
  }

  lemma OutputSound(w: Chain, p: nat, last: bool)
    requires Sound(w, {w.source}) && w.nodes != [] && p > 0
    ensures var v := OutputStage(w, p, last); Sound(v, if last then {} else {v.source})
  {
    var layer, v := Outputs(w, p, last), OutputStage(w, p, last);
    forall i | 0 <= i < p ensures layer[i].outputs != {} {
      assert (if last then SINK else w.queues) in layer[i].outputs;
    }
    Join(w.nodes, w.queues, w.flags, layer, v.queues, v.flags);
    assert layer[0].input == w.source;
    JoinReads(w.nodes, w.queues, {w.source}, layer, v.queues, if last then {} else {v.source});
    if last {
      if w.stop != STOP {
        var u :| 0 <= u < |w.nodes| && w.nodes[u].next == Some(w.stop);
        assert v.nodes[u].next == Some(w.stop);
      }
    } else {
      assert v.nodes[|w.nodes|] == layer[0];
    }
  }

  lemma WorkSound(w: Chain, c: Component)
    requires Sound(w, {w.source}) && (c.Pipelined? ==> c.preprocessors > 0)
    ensures var v := Work(InputStage(w), c, w.queues); Sound(v, {v.source}) && v.nodes != []
  {
    hide Sound, InputStage, PipelinedStage, CustomStage;
    InputSound(w);
    InputShape(w);
    match c {
      case Pipelined(k, _) => PipelinedSound(InputStage(w), k, w.queues);
      case Custom(_) => CustomSound(InputStage(w), w.queues);
    }
    WorkShape(InputStage(w), c, w.queues);
  }

  lemma AttachSound(w: Chain, c: Component, last: bool)
    requires Sound(w, {w.source}) && c.postprocessors > 0 && (c.Pipelined? ==> c.preprocessors > 0)
    ensures var v := Attach(w, c, last); Sound(v, if last then {} else {v.source}) && v.nodes != []
  {
    hide Sound, InputStage, Work, OutputStage;
    WorkSound(w, c);
    OutputSound(Work(InputStage(w), c, w.queues), c.postprocessors, last);
    OutputShape(Work(InputStage(w), c, w.queues), c.postprocessors, last);
  }

  lemma WireNext(cs: seq<Component>, n: nat)
    requires n < |cs|
    ensures Wire(cs, n + 1) == Attach(Wire(cs, n), cs[n], n + 1 == |cs|)
  {
    hide Attach;
  }

  lemma {:induction false} WireSound(cs: seq<Component>, n: nat)
    requires Proper(cs) && n <= |cs|
    ensures var w := Wire(cs, n); Sound(w, if n == |cs| then {} else {w.source}) && (n > 0 ==> w.nodes != [])
  {
    hide Sound, Attach;
    if n > 0 {
      hide Wire;
      WireNext(cs, n - 1);
      WireSound(cs, n - 1);
      AttachSound(Wire(cs, n - 1), cs[n - 1], n == |cs|);
    } else {
      OutsideSound();
    }
  }

  lemma OutsideSound()
    ensures Sound(OUTSIDE, {SOURCE})
  {
    assert OUTSIDE.nodes == [];
  }

  lemma InputShape(w: Chain)
    requires Sound(w, {w.source})
    ensures var v := InputStage(w);
            v.nodes != [] && SINK < w.queues < v.queues && v.source != w.queues && {v.source, w.queues} == {w.queues, v.source}
  {
  }

  lemma WorkShape(w: Chain, c: Component, outQ: nat)
    ensures var v := Work(w, c, outQ); v.source == outQ && v.nodes != [] && w.nodes <= v.nodes
  {
  }

  lemma OutputShape(w: Chain, p: nat, last: bool)
    requires p > 0
    ensures var v := OutputStage(w, p, last); v.nodes != [] && w.nodes <= v.nodes
  {
  }

  lemma AttachExtends(w: Chain, c: Component, last: bool)
    ensures w.nodes <= Attach(w, c, last).nodes
  {
    hide PipelinedStage, CustomStage, Outputs;
    var v := Work(InputStage(w), c, w.queues);
    WorkShape(InputStage(w), c, w.queues);
    assert InputStage(w).nodes <= v.nodes;
  }

  /** The processes of the first components are the first processes. */
  lemma {:induction false} WirePrefix(cs: seq<Component>, m: nat, n: nat)
    requires m <= n <= |cs|
    ensures Wire(cs, m).nodes <= Wire(cs, n).nodes
  {
    hide Attach;
    if m < n {
      WirePrefix(cs, m, n - 1);
      AttachExtends(Wire(cs, n - 1), cs[n - 1], n == |cs|);
    }
  }
}
