/** How a request can get from the outside to any process of a deployed model, and who reads the queue
  * between two components. */
module WiringRoutes {
  import opened Network
  import opened NetworkProgress
  import opened Wiring

  // ---- Every process can be reached ------------------------------------------------------------------------

  /** One of the first `n` nodes writes to the queue. */
  predicate FedBefore(nodes: seq<Node>, n: nat, q: nat) {
    exists u :: 0 <= u < n && u < |nodes| && q in nodes[u].outputs
  }

  /** Every node waits for some flag, and every node but the first reads what an earlier one writes. */
  predicate Tended(nodes: seq<Node>) {
    && (forall n :: 0 <= n < |nodes| ==> nodes[n].stops != [])
    && forall n :: 0 < n < |nodes| ==> FedBefore(nodes, n, nodes[n].input)
  }

  lemma JoinTended(nodes: seq<Node>, layer: seq<Node>)
    requires Tended(nodes)
    requires forall i :: 0 <= i < |layer| ==>
               layer[i].stops != [] && (FedBefore(nodes, |nodes|, layer[i].input) || (nodes == [] && i == 0))
    ensures Tended(nodes + layer)
  {
    var all := nodes + layer;
    forall n | 0 < n < |all| ensures FedBefore(all, n, all[n].input) {
      if n < |nodes| {
        assert FedBefore(nodes, n, nodes[n].input);
        var u :| 0 <= u < n && nodes[n].input in nodes[u].outputs;
        assert all[u] == nodes[u];
      } else {
        assert FedBefore(nodes, |nodes|, layer[n - |nodes|].input);
        var u :| 0 <= u < |nodes| && layer[n - |nodes|].input in nodes[u].outputs;
        assert all[u] == nodes[u];
      }
    }
  }

  lemma FedBy(nodes: seq<Node>, u: nat, q: nat)
    requires u < |nodes| && q in nodes[u].outputs
    ensures FedBefore(nodes, |nodes|, q)
  {
  }

  /** What is known between two stages. */
  predicate Ready(w: Chain) {
    Tended(w.nodes) && (w.nodes == [] || FedBefore(w.nodes, |w.nodes|, w.source))
  }

  lemma InputReady(w: Chain)
    requires Ready(w)
    ensures Ready(InputStage(w)) && InputStage(w).nodes != []
  {
    var v := InputStage(w);
    JoinTended(w.nodes, [v.nodes[|w.nodes|]]);
    FedBy(v.nodes, |w.nodes|, w.queues + 1);
  }

  lemma CustomReady(w: Chain, outQ: nat)
    requires Ready(w) && w.nodes != []
    ensures Ready(CustomStage(w, outQ)) && CustomStage(w, outQ).nodes != []
  {
    var v := CustomStage(w, outQ);
    JoinTended(w.nodes, [v.nodes[|w.nodes|]]);
    FedBy(v.nodes, |w.nodes|, outQ);
  }

  lemma PreprocessorsTended(w: Chain, k: nat, outQ: nat)
    requires Ready(w) && w.nodes != []
    ensures var v := Preprocessed(w, k, outQ);
            Tended(v.nodes) && forall q :: w.queues <= q < w.queues + k ==> FedBefore(v.nodes, |v.nodes|, q)
  {
    var v := Preprocessed(w, k, outQ);
    JoinTended(w.nodes, Preprocessors(w, k, outQ));
    forall q | w.queues <= q < w.queues + k ensures FedBefore(v.nodes, |v.nodes|, q) {
      assert v.nodes[|w.nodes| + q - w.queues] == Preprocessors(w, k, outQ)[q - w.queues];
      FedBy(v.nodes, |w.nodes| + q - w.queues, q);
    }
  }

  lemma ReadersTended(w: Chain, k: nat, outQ: nat)
    requires Ready(w) && w.nodes != [] && k > 0
    ensures var v := Read(w, k, outQ); Tended(v.nodes) && FedBefore(v.nodes, |v.nodes|, w.queues + k)
  {
    var p, v, layer := Preprocessed(w, k, outQ), Read(w, k, outQ), Readers(w, k);
    PreprocessorsTended(w, k, outQ);
    forall i | 0 <= i < k ensures layer[i].stops != [] && FedBefore(p.nodes, |p.nodes|, layer[i].input) {
      assert layer[i].input == w.queues + i && layer[i].stops == Row(w.flags, i + 1);
    }
    hide Tended;
    JoinTended(p.nodes, layer);
    assert v.nodes[|p.nodes|] == layer[0];
    FedBy(v.nodes, |p.nodes|, w.queues + k);
  }

  lemma PipelinedReady(w: Chain, k: nat, outQ: nat)
    requires Ready(w) && w.nodes != [] && k > 0
    ensures Ready(PipelinedStage(w, k, outQ)) && PipelinedStage(w, k, outQ).nodes != []
  {
    var r, v := Read(w, k, outQ), PipelinedStage(w, k, outQ);
    ReadersTended(w, k, outQ);
    assert |MainLoop(w, k, outQ).stops| == k && v.nodes == r.nodes + [MainLoop(w, k, outQ)];
    hide Tended;
    JoinTended(r.nodes, [MainLoop(w, k, outQ)]);
    assert v.nodes[|r.nodes|] == MainLoop(w, k, outQ);
    FedBy(v.nodes, |r.nodes|, outQ);
  }

  lemma OutputReady(w: Chain, p: nat, last: bool)
    requires Ready(w) && w.nodes != [] && p > 0
    ensures var v := OutputStage(w, p, last); Tended(v.nodes) && (!last ==> Ready(v))
  {
    var v, layer := OutputStage(w, p, last), Outputs(w, p, last);
    assert forall i :: 0 <= i < p ==> layer[i].stops != [] && layer[i].input == w.source;
    JoinTended(w.nodes, layer);
    if !last {
      assert v.nodes[|w.nodes|] == layer[0];
      FedBy(v.nodes, |w.nodes|, w.queues);
    }
  }

  lemma WorkReady(w: Chain, c: Component)
    requires Ready(w) && (c.Pipelined? ==> c.preprocessors > 0)
    ensures var v := Work(InputStage(w), c, w.queues); Ready(v) && v.nodes != []
  {
    hide Ready;
    InputReady(w);
    match c {
      case Pipelined(k, _) => PipelinedReady(InputStage(w), k, w.queues);
      case Custom(_) => CustomReady(InputStage(w), w.queues);
    }
  }

  lemma AttachReady(w: Chain, c: Component, last: bool)
    requires Ready(w) && c.postprocessors > 0 && (c.Pipelined? ==> c.preprocessors > 0)
    ensures var v := Attach(w, c, last); Tended(v.nodes) && (!last ==> Ready(v))
  {
    hide Ready, Tended, Work, InputStage, OutputStage;
    WorkReady(w, c);
    OutputReady(Work(InputStage(w), c, w.queues), c.postprocessors, last);
  }

  lemma {:induction false} WireReady(cs: seq<Component>, n: nat)
    requires Proper(cs) && n <= |cs|
    ensures Tended(Wire(cs, n).nodes) && (n < |cs| ==> Ready(Wire(cs, n)))
  {
    hide Ready, Tended, Attach;
    if n == 0 {
      OutsideReady();
    } else {
      hide Wire;
      WireReady(cs, n - 1);
      WireNext(cs, n - 1);
      AttachReady(Wire(cs, n - 1), cs[n - 1], n == |cs|);
    }
  }

  lemma OutsideReady()
    ensures Ready(OUTSIDE) && Tended(OUTSIDE.nodes)
  {
  }

  // ---- Who reads the queue between two components -----------------------------------------------------------

  /** Of the processes of a component only the first reads a queue that was there before. */
  lemma AttachInputs(w: Chain, c: Component, last: bool)
    ensures var v := Attach(w, c, last);
            && |w.nodes| < |v.nodes| && v.nodes[|w.nodes|].input == w.source
            && w.queues < v.queues && w.nodes <= v.nodes && (!last ==> v.source >= w.queues)
            && forall m :: |w.nodes| < m < |v.nodes| ==> v.nodes[m].input >= w.queues
  {
    var i, v := InputStage(w), Attach(w, c, last);
    var k := Work(i, c, w.queues);
    WorkInputs(i, c, w.queues);
    hide Work;
    assert v.nodes == k.nodes + Outputs(k, c.postprocessors, last);
    forall m | |w.nodes| < m < |v.nodes| ensures v.nodes[m].input >= w.queues {
      if m >= |k.nodes| {
        assert v.nodes[m] == Outputs(k, c.postprocessors, last)[m - |k.nodes|];
      }
    }
  }

  lemma WorkInputs(w: Chain, c: Component, outQ: nat)
    requires w.source < w.queues
    ensures var v := Work(w, c, outQ);
            && w.nodes <= v.nodes && v.source == outQ && v.queues >= w.queues
            && forall m :: |w.nodes| <= m < |v.nodes| ==> v.nodes[m].input >= w.source
  {
    var v := Work(w, c, outQ);
    match c {
      case Custom(_) =>
      case Pipelined(k, _) =>
        forall m | |w.nodes| <= m < |v.nodes| ensures v.nodes[m].input >= w.source {
          if m < |w.nodes| + k {
            assert v.nodes[m] == Preprocessors(w, k, outQ)[m - |w.nodes|];
          } else if m < |w.nodes| + k + k {
            assert v.nodes[m] == Readers(w, k)[m - |w.nodes| - k];
          } else {
            assert v.nodes[m] == MainLoop(w, k, outQ);
          }
        }
    }
  }

  /** Of the nodes, only number `n` reads the queue. */
  predicate OnlyReader(nodes: seq<Node>, n: nat, q: nat) {
    forall m :: 0 <= m < |nodes| && nodes[m].input == q ==> m == n
  }

  /** The queue that component `i` leaves to the next is read by nobody before that. */
  lemma NobodyYet(cs: seq<Component>, i: nat)
    requires Proper(cs) && i < |cs| - 1
    ensures var o := Wire(cs, i + 1);
            SINK < o.source && o.queues == o.source + 1 && OnlyReader(o.nodes, |o.nodes|, o.source)
  {
    var w, c := Wire(cs, i), cs[i];
    assert c.postprocessors > 0 && (c.Pipelined? ==> c.preprocessors > 0);
    WireNext(cs, i);
    WireSound(cs, i);
    hide *;
    WorkSound(w, c);
    NewQueueUnread(w, c);
  }

  lemma NewQueueUnread(w: Chain, c: Component)
    requires Sound(Work(InputStage(w), c, w.queues), {Work(InputStage(w), c, w.queues).source})
    ensures var o := Attach(w, c, false); SINK < o.source && o.queues == o.source + 1 && OnlyReader(o.nodes, |o.nodes|, o.source)
  {
    hide Work, InputStage, HasOutputs, OrderedStops, FirstReads, AllReadBut;
    var v := Work(InputStage(w), c, w.queues);
    var o := OutputStage(v, c.postprocessors, false);
    forall m | 0 <= m < |o.nodes| ensures o.nodes[m].input < o.source {
      if m < |v.nodes| {
        assert NodeInRange(v.nodes[m], v.queues, v.flags);
      } else {
        assert o.nodes[m] == Outputs(v, c.postprocessors, false)[m - |v.nodes|];
      }
    }
  }

  lemma StillOnlyReader(w: Chain, c: Component, last: bool, n: nat, q: nat)
    requires OnlyReader(w.nodes, n, q) && n <= |w.nodes| && w.queues > q && (w.source == q ==> n == |w.nodes|)
    ensures var v := Attach(w, c, last); OnlyReader(v.nodes, n, q) && |v.nodes| > n && v.queues > q && (!last ==> v.source > q)
  {
    AttachInputs(w, c, last);
    hide Attach;
    var v := Attach(w, c, last);
    forall m | 0 <= m < |v.nodes| && v.nodes[m].input == q ensures m == n {
      if m < |w.nodes| {
        assert v.nodes[m] == w.nodes[m];
      }
    }
  }

  /** And by one process after that. */
  lemma {:induction false} OneReader(cs: seq<Component>, i: nat, j: nat)
    requires Proper(cs) && i < |cs| - 1 && i + 1 < j <= |cs|
    ensures var o, w := Wire(cs, i + 1), Wire(cs, j);
            && OnlyReader(w.nodes, |o.nodes|, o.source) && |w.nodes| > |o.nodes| && w.queues > o.source > SINK
            && (j < |cs| ==> w.source > o.source)
  {
    hide *;
    var o := Wire(cs, i + 1);
    NobodyYet(cs, i);
    WireNext(cs, j - 1);
    if j > i + 2 {
      OneReader(cs, i, j - 1);
    }
    StillOnlyReader(Wire(cs, j - 1), cs[j - 1], j == |cs|, |o.nodes|, o.source);
  }
}
