/** A model whose components each end in one output process, but for the last, is well wired: whoever
  * may stop reads a queue that only processes gone by then write to. */
module WiringSafety {
  import opened Options
  import opened Network
  import opened NetworkProgress
  import opened Wiring

  /** The first `m` nodes. */
  function Upto(m: nat): (r: set<nat>)
    ensures forall a :: a in r <==> 0 <= a < m
  {
    if m == 0 then {} else Upto(m - 1) + {m - 1}
  }

  /** Nobody reads the queue yet. */
  predicate Unread(nodes: seq<Node>, q: nat) {
    forall n :: 0 <= n < |nodes| ==> nodes[n].input != q
  }

  predicate Unset(nodes: seq<Node>, f: nat) {
    forall u :: 0 <= u < |nodes| ==> nodes[u].next != Some(f)
  }

  /** Node `u` sets one of the flags, and it is `a` or comes after it. */
  predicate Covers(nodes: seq<Node>, upstream: seq<set<nat>>, stops: seq<nat>, u: nat, a: nat)
    requires |upstream| == |nodes|
  {
    u < |nodes| && nodes[u].next.Some? && nodes[u].next.value in stops && (a == u || a in upstream[u])
  }

  /** The node is gone once the given flags are set. */
  predicate BehindFlags(nodes: seq<Node>, upstream: seq<set<nat>>, stops: seq<nat>, a: nat)
    requires |upstream| == |nodes|
  {
    exists u :: 0 <= u < |nodes| && Covers(nodes, upstream, stops, u, a)
  }

  /** So are the first `m` nodes. */
  predicate AllBehind(nodes: seq<Node>, upstream: seq<set<nat>>, stops: seq<nat>, m: nat)
    requires |upstream| == |nodes|
  {
    m <= |nodes| && forall a :: 0 <= a < m ==> BehindFlags(nodes, upstream, stops, a)
  }

  // ---- Adding nodes to a well-wired network -----------------------------------------------------------------

  lemma AddNode(nodes: seq<Node>, upstream: seq<set<nat>>, x: Node, m: nat)
    requires WellWired(nodes, upstream)
    requires forall w :: 0 <= w < |nodes| && x.input in nodes[w].outputs ==> w < m
    requires x.input !in x.outputs && forall q :: q in x.outputs ==> Unread(nodes, q)
    requires AllBehind(nodes, upstream, x.stops, m)
    requires x.next.Some? ==> x.next.value != STOP && Unset(nodes, x.next.value)
    ensures WellWired(nodes + [x], upstream + [Upto(m)])
  {
    var all, ups := nodes + [x], upstream + [Upto(m)];
    forall n, a | 0 <= n < |all| && a in ups[n] ensures a < |all| && Behind(all, ups, n, a) {
      if n < |nodes| {
        assert Behind(nodes, upstream, n, a);
        var u :| 0 <= u < |nodes| && Signals(nodes, u, n) && (a == u || a in upstream[u]);
        assert Signals(all, u, n);
      } else {
        assert BehindFlags(nodes, upstream, x.stops, a);
        var u :| 0 <= u < |nodes| && Covers(nodes, upstream, x.stops, u, a);
        assert Signals(all, u, n);
      }
    }
    AddWriters(nodes, upstream, x, Upto(m));
  }

  lemma AddWriters(nodes: seq<Node>, upstream: seq<set<nat>>, x: Node, before: set<nat>)
    requires |upstream| == |nodes|
    requires forall n, w :: 0 <= n < |nodes| && 0 <= w < |nodes| && nodes[n].input in nodes[w].outputs ==> w in upstream[n]
    requires forall w :: 0 <= w < |nodes| && x.input in nodes[w].outputs ==> w in before
    requires x.input !in x.outputs && forall q :: q in x.outputs ==> Unread(nodes, q)
    ensures var all, ups := nodes + [x], upstream + [before];
            forall n, w :: 0 <= n < |all| && 0 <= w < |all| && all[n].input in all[w].outputs ==> w in ups[n]
  {
    var all := nodes + [x];
    forall n | 0 <= n < |nodes| ensures all[n].input !in x.outputs {
      assert nodes[n].input in x.outputs ==> Unread(nodes, nodes[n].input);
    }
  }

  lemma StillBehind(nodes: seq<Node>, upstream: seq<set<nat>>, layer: seq<Node>, more: seq<set<nat>>, stops: seq<nat>, m: nat)
    requires |upstream| == |nodes| && |more| == |layer| && AllBehind(nodes, upstream, stops, m)
    ensures AllBehind(nodes + layer, upstream + more, stops, m)
  {
    forall a | 0 <= a < m ensures BehindFlags(nodes + layer, upstream + more, stops, a) {
      StillBehindOne(nodes, upstream, layer, more, stops, a);
    }
  }

  lemma StillBehindOne(nodes: seq<Node>, upstream: seq<set<nat>>, layer: seq<Node>, more: seq<set<nat>>, stops: seq<nat>, a: nat)
    requires |upstream| == |nodes| && |more| == |layer| && BehindFlags(nodes, upstream, stops, a)
    ensures BehindFlags(nodes + layer, upstream + more, stops, a)
  {
    var all, ups := nodes + layer, upstream + more;
    var u :| 0 <= u < |nodes| && Covers(nodes, upstream, stops, u, a);
    assert all[u] == nodes[u] && ups[u] == upstream[u];
    assert Covers(all, ups, stops, u, a);
  }

  /** Several nodes side by side: none writes to what another of them reads, and each sets a flag of
    * its own or none. Node `i` of them comes after the first `ms[i]` nodes. */
  predicate SideBySide(nodes: seq<Node>, layer: seq<Node>, ms: seq<nat>) {
    && |ms| == |layer|
    && (forall i, w :: 0 <= i < |layer| && 0 <= w < |nodes| && layer[i].input in nodes[w].outputs ==> w < ms[i])
    && (forall i, j :: 0 <= i < |layer| && 0 <= j < |layer| ==> layer[i].input !in layer[j].outputs)
    && (forall i, q :: 0 <= i < |layer| && q in layer[i].outputs ==> Unread(nodes, q))
    && (forall i :: 0 <= i < |layer| && layer[i].next.Some? ==> layer[i].next.value != STOP && Unset(nodes, layer[i].next.value))
    && forall i, j :: 0 <= i < j < |layer| && layer[i].next.Some? ==> layer[i].next != layer[j].next
  }

  function Spans(ms: seq<nat>): (r: seq<set<nat>>)
    ensures |r| == |ms| && forall i :: 0 <= i < |ms| ==> r[i] == Upto(ms[i])
  {
    if ms == [] then [] else Spans(ms[..|ms| - 1]) + [Upto(ms[|ms| - 1])]
  }

  lemma {:induction false} AddLayer(nodes: seq<Node>, upstream: seq<set<nat>>, layer: seq<Node>, ms: seq<nat>)
    requires WellWired(nodes, upstream) && SideBySide(nodes, layer, ms)
    requires forall i :: 0 <= i < |layer| ==> AllBehind(nodes, upstream, layer[i].stops, ms[i])
    ensures WellWired(nodes + layer, upstream + Spans(ms))
  {
    assert |upstream| == |nodes|;
    hide WellWired, AllBehind;
    if layer == [] {
      assert nodes + layer == nodes && upstream + Spans(ms) == upstream;
    } else {
      var last := |layer| - 1;
      var init, x, m := layer[..last], layer[last], ms[last];
      AddLayer(nodes, upstream, init, ms[..last]);
      StillBehind(nodes, upstream, init, Spans(ms[..last]), x.stops, m);
      ReadBySome(nodes, layer, ms);
      AddNode(nodes + init, upstream + Spans(ms[..last]), x, m);
      assert nodes + layer == nodes + init + [x];
      assert upstream + Spans(ms) == upstream + Spans(ms[..last]) + [Upto(m)];
    }
  }

  lemma ReadBySome(nodes: seq<Node>, layer: seq<Node>, ms: seq<nat>)
    requires SideBySide(nodes, layer, ms) && layer != []
    ensures var last := |layer| - 1;
            var x, all := layer[last], nodes + layer[..last];
            && (forall w :: 0 <= w < |all| && x.input in all[w].outputs ==> w < ms[last])
            && x.input !in x.outputs
            && (forall q :: q in x.outputs ==> Unread(all, q))
            && (x.next.Some? ==> x.next.value != STOP && Unset(all, x.next.value))
  {
    var last := |layer| - 1;
    var x, all := layer[last], nodes + layer[..last];
    forall q, n | q in x.outputs && 0 <= n < |all| ensures all[n].input != q {
      assert Unread(nodes, q);
      assert n >= |nodes| ==> all[n] == layer[n - |nodes|];
    }
    forall w | 0 <= w < |all| ensures x.input in all[w].outputs ==> w < ms[last] {
      assert w >= |nodes| ==> all[w] == layer[w - |nodes|];
    }
    if x.next.Some? {
      forall u | 0 <= u < |all| ensures all[u].next != x.next {
        assert u >= |nodes| ==> all[u] == layer[u - |nodes|];
      }
    }
  }

  // ---- The stages ---------------------------------------------------------------------------------------------

  /** All processes so far are gone once the flag of the next stage is set. */
  predicate Linked(w: Chain, upstream: seq<set<nat>>) {
    && InRange(w.nodes, w.queues, w.flags) && WellWired(w.nodes, upstream)
    && AllBehind(w.nodes, upstream, [w.stop], |w.nodes|)
    && w.source < w.queues && w.source != SINK
  }

  /** Queues and flags not made yet are used by nobody. */
  lemma FreshIds(nodes: seq<Node>, queues: nat, flags: nat)
    requires InRange(nodes, queues, flags)
    ensures forall q :: q >= queues || q == SINK ==> Unread(nodes, q)
    ensures forall f :: f >= flags ==> Unset(nodes, f)
    ensures forall w, q :: 0 <= w < |nodes| && q in nodes[w].outputs ==> q < queues
  {
    forall n | 0 <= n < |nodes| ensures NodeInRange(nodes[n], queues, flags) {
    }
  }

  /** A single process that comes after all others takes them all with it. */
  lemma AddSingle(w: Chain, upstream: seq<set<nat>>, x: Node, v: Chain)
    requires Linked(w, upstream) && x.stops == [w.stop] && x.next == Some(w.flags)
    requires x.input !in x.outputs && forall q :: q in x.outputs ==> Unread(w.nodes, q)
    requires v.nodes == w.nodes + [x] && v.stop == w.flags && InRange(v.nodes, v.queues, v.flags)
    requires v.source < v.queues && v.source != SINK
    ensures Linked(v, upstream + [Upto(|w.nodes|)])
  {
    FreshIds(w.nodes, w.queues, w.flags);
    AddNode(w.nodes, upstream, x, |w.nodes|);
    LastTakesAll(w.nodes, upstream, x);
  }

  lemma LastTakesAll(nodes: seq<Node>, upstream: seq<set<nat>>, x: Node)
    requires |upstream| == |nodes| && x.next.Some?
    ensures AllBehind(nodes + [x], upstream + [Upto(|nodes|)], [x.next.value], |nodes| + 1)
  {
    var all, ups := nodes + [x], upstream + [Upto(|nodes|)];
    assert all[|nodes|] == x && ups[|nodes|] == Upto(|nodes|);
    forall a | 0 <= a < |nodes| + 1 ensures BehindFlags(all, ups, [x.next.value], a) {
      assert Covers(all, ups, [x.next.value], |nodes|, a);
    }
  }

  lemma InputLinked(w: Chain, upstream: seq<set<nat>>)
    requires Linked(w, upstream) && Sound(w, {w.source})
    ensures Linked(InputStage(w), upstream + [Upto(|w.nodes|)])
    ensures Unread(InputStage(w).nodes, w.queues) && forall n :: 0 <= n < |w.nodes| + 1 ==> w.queues !in InputStage(w).nodes[n].outputs
  {
    var x := Node(w.source, {w.queues + 1}, [w.stop], Some(w.flags), w.source != SOURCE);
    InputSound(w);
    FreshIds(w.nodes, w.queues, w.flags);
    hide Sound, WellWired, AllBehind, InRange;
    AddSingle(w, upstream, x, InputStage(w));
  }

  lemma CustomLinked(w: Chain, upstream: seq<set<nat>>, outQ: nat)
    requires Linked(w, upstream) && Sound(w, {w.source, outQ}) && w.nodes != []
    requires SINK < outQ < w.queues && w.source != outQ && Unread(w.nodes, outQ)
    ensures Linked(CustomStage(w, outQ), upstream + [Upto(|w.nodes|)])
  {
    var x := Node(w.source, {outQ}, [w.stop], Some(w.flags), true);
    CustomSound(w, outQ);
    hide Sound, WellWired, AllBehind;
    AddSingle(w, upstream, x, CustomStage(w, outQ));
  }

  function Same(k: nat, m: nat): (ms: seq<nat>)
    ensures |ms| == k && forall i :: 0 <= i < k ==> ms[i] == m
  {
    seq(k, _ => m)
  }

  /** Reader `i` comes after the preprocessors up to the one whose queue it reads. */
  function After(k: nat, base: nat): (ms: seq<nat>)
    ensures |ms| == k && forall i :: 0 <= i < k ==> ms[i] == base + i + 1
  {
    seq(k, i requires 0 <= i < k => base + i + 1)
  }

  /** What holds before the compute process is deployed. */
  predicate BeforeWork(w: Chain, upstream: seq<set<nat>>, k: nat, outQ: nat) {
    && Linked(w, upstream) && Sound(w, {w.source, outQ}) && w.nodes != [] && k > 0
    && SINK < outQ < w.queues && w.source != outQ && Unread(w.nodes, outQ)
    && forall n :: 0 <= n < |w.nodes| ==> outQ !in w.nodes[n].outputs
  }

  lemma PreprocessorsBeside(w: Chain, k: nat, outQ: nat)
    requires InRange(w.nodes, w.queues, w.flags) && w.source != outQ && w.source < w.queues && Unread(w.nodes, outQ)
    ensures SideBySide(w.nodes, Preprocessors(w, k, outQ), Same(k, |w.nodes|))
  {
    FreshIds(w.nodes, w.queues, w.flags);
    hide InRange;
  }

  /** A reader comes after everything up to the preprocessor whose queue it reads. */
  lemma BeforeReader(w: Chain, ups: seq<set<nat>>, k: nat, outQ: nat, i: nat)
    requires i < k && |ups| == |w.nodes| + k && ups[|w.nodes|..] == Spans(Same(k, |w.nodes|))
    ensures AllBehind(Preprocessed(w, k, outQ).nodes, ups, Readers(w, k)[i].stops, After(k, |w.nodes|)[i])
  {
    var v, layer, stops := Preprocessed(w, k, outQ), Preprocessors(w, k, outQ), Row(w.flags, i + 1);
    forall a | 0 <= a < |w.nodes| + i + 1 ensures BehindFlags(v.nodes, ups, stops, a) {
      var j := if a < |w.nodes| then 0 else a - |w.nodes|;
      var u := |w.nodes| + j;
      assert v.nodes[u] == layer[j] && w.flags + j in stops;
      assert ups[u] == ups[|w.nodes|..][j] == Upto(|w.nodes|);
      assert Covers(v.nodes, ups, stops, u, a);
    }
  }

  lemma PreprocessorsLinked(w: Chain, upstream: seq<set<nat>>, k: nat, outQ: nat)
    requires BeforeWork(w, upstream, k, outQ)
    ensures var v, ups := Preprocessed(w, k, outQ), upstream + Spans(Same(k, |w.nodes|));
            && WellWired(v.nodes, ups)
            && forall i :: 0 <= i < k ==> AllBehind(v.nodes, ups, Readers(w, k)[i].stops, After(k, |w.nodes|)[i])
  {
    var layer, ms := Preprocessors(w, k, outQ), Same(k, |w.nodes|);
    assert |upstream| == |w.nodes|;
    PreprocessorsBeside(w, k, outQ);
    hide InRange, Sound, SideBySide, WellWired, AllBehind;
    forall i | 0 <= i < k ensures AllBehind(w.nodes, upstream, layer[i].stops, ms[i]) {
      assert layer[i].stops == [w.stop];
    }
    AddLayer(w.nodes, upstream, layer, ms);
    var ups := upstream + Spans(ms);
    forall i | 0 <= i < k ensures AllBehind(Preprocessed(w, k, outQ).nodes, ups, Readers(w, k)[i].stops, After(k, |w.nodes|)[i]) {
      BeforeReader(w, ups, k, outQ, i);
    }
  }

  lemma ReadersLinked(w: Chain, upstream: seq<set<nat>>, k: nat, outQ: nat)
    requires BeforeWork(w, upstream, k, outQ)
    ensures var v, ups := Read(w, k, outQ), upstream + Spans(Same(k, |w.nodes|)) + Spans(After(k, |w.nodes|));
            && WellWired(v.nodes, ups)
            && AllBehind(v.nodes, ups, Row(w.flags + k, k), |v.nodes|)
  {
    var p, layer, ms := Preprocessed(w, k, outQ), Readers(w, k), After(k, |w.nodes|);
    var ups0 := upstream + Spans(Same(k, |w.nodes|));
    PreprocessorsLinked(w, upstream, k, outQ);
    PreprocessorsSound(w, k, outQ);
    FreshIds(w.nodes, w.queues, w.flags);
    FreshIds(p.nodes, p.queues, p.flags);
    ReadersBeside(w, k, outQ);
    hide WellWired, SideBySide, AllBehind;
    AddLayer(p.nodes, ups0, layer, ms);
    var v, ups := Read(w, k, outQ), ups0 + Spans(ms);
    ReadersBehind(w, k, outQ, ups);
  }

  lemma ReadersBeside(w: Chain, k: nat, outQ: nat)
    requires Sound(w, {w.source, outQ}) && w.nodes != [] && SINK < outQ < w.queues && w.source != outQ && k > 0
    ensures SideBySide(Preprocessed(w, k, outQ).nodes, Readers(w, k), After(k, |w.nodes|))
  {
    PreprocessorsSound(w, k, outQ);
    FreshIds(w.nodes, w.queues, w.flags);
    var p, layer, ms := Preprocessed(w, k, outQ), Readers(w, k), After(k, |w.nodes|);
    forall i, n | 0 <= i < k && 0 <= n < |p.nodes| && layer[i].input in p.nodes[n].outputs ensures n < ms[i] {
      if n >= |w.nodes| {
        assert p.nodes[n] == Preprocessors(w, k, outQ)[n - |w.nodes|];
        assert p.nodes[n].outputs == {w.queues + n - |w.nodes|, outQ};
      }
    }
    FreshIds(p.nodes, p.queues, p.flags);
    forall n | 0 <= n < |p.nodes| ensures p.nodes[n].input != w.queues + k {
      assert n >= |w.nodes| ==> p.nodes[n] == Preprocessors(w, k, outQ)[n - |w.nodes|];
    }
    forall i, j | 0 <= i < k && 0 <= j < k ensures layer[i].input !in layer[j].outputs {
      assert layer[j].outputs == {w.queues + k};
    }
  }

  lemma ReaderAt(w: Chain, k: nat, outQ: nat, j: nat)
    requires j < k
    ensures var v, u := Read(w, k, outQ), |w.nodes| + k + j;
            |v.nodes| == |w.nodes| + k + k && v.nodes[u].next == Some(w.flags + k + j)
  {
    assert Read(w, k, outQ).nodes[|w.nodes| + k + j] == Readers(w, k)[j];
  }

  lemma ReadersBehind(w: Chain, k: nat, outQ: nat, ups: seq<set<nat>>)
    requires k > 0 && |ups| == |w.nodes| + k + k
    requires ups[|w.nodes| + k..] == Spans(After(k, |w.nodes|))
    ensures AllBehind(Read(w, k, outQ).nodes, ups, Row(w.flags + k, k), |w.nodes| + k + k)
  {
    var v, base, stops := Read(w, k, outQ), |w.nodes| + k, Row(w.flags + k, k);
    ReaderAt(w, k, outQ, 0);
    hide Read, Row;
    forall a | 0 <= a < base + k ensures BehindFlags(v.nodes, ups, stops, a) {
      var j := if a < base then k - 1 else a - base;
      var u := base + j;
      ReaderAt(w, k, outQ, j);
      assert w.flags + k + j in stops;
      assert ups[u] == ups[base..][j] == Upto(|w.nodes| + j + 1);
      assert Covers(v.nodes, ups, stops, u, a);
    }
  }

  /** Nobody reads the shared output queue before the output processes do. */
  lemma SharedUnread(w: Chain, k: nat, outQ: nat)
    requires Unread(w.nodes, outQ) && outQ < w.queues && w.source != outQ
    ensures Unread(Read(w, k, outQ).nodes, outQ)
  {
    var r := Read(w, k, outQ);
    forall n | 0 <= n < |r.nodes| ensures r.nodes[n].input != outQ {
      if n >= |w.nodes| + k {
        assert r.nodes[n] == Readers(w, k)[n - |w.nodes| - k];
      } else if n >= |w.nodes| {
        assert r.nodes[n] == Preprocessors(w, k, outQ)[n - |w.nodes|];
      }
    }
  }

  /** What the main loop finds. */
  lemma MainReady(w: Chain, upstream: seq<set<nat>>, k: nat, outQ: nat)
    requires BeforeWork(w, upstream, k, outQ)
    ensures var r, x, v := Read(w, k, outQ), MainLoop(w, k, outQ), PipelinedStage(w, k, outQ);
            && v.nodes == r.nodes + [x] && |r.nodes| == |w.nodes| + k + k
            && x.input !in x.outputs && (forall q :: q in x.outputs ==> Unread(r.nodes, q))
            && x.next == Some(v.stop) && v.stop != STOP && Unset(r.nodes, v.stop) && x.stops == Row(w.flags + k, k)
            && InRange(v.nodes, v.queues, v.flags) && SINK < v.source < v.queues
  {
    hide Linked, Sound, InRange, Row, Unread, Unset;
    SharedUnread(w, k, outQ);
    MainUnset(w, k, outQ);
    assert MainLoop(w, k, outQ).outputs == {outQ};
  }

  lemma MainUnset(w: Chain, k: nat, outQ: nat)
    requires Sound(w, {w.source, outQ}) && w.nodes != [] && SINK < outQ < w.queues && w.source != outQ && k > 0
    ensures Unset(Read(w, k, outQ).nodes, w.flags + k + k) && w.flags > STOP
    ensures var v := PipelinedStage(w, k, outQ); InRange(v.nodes, v.queues, v.flags)
  {
    var r, v := Read(w, k, outQ), PipelinedStage(w, k, outQ);
    ReadersSound(w, k, outQ);
    PipelinedSound(w, k, outQ);
    hide Read, PipelinedStage, HasOutputs, OrderedStops, FirstReads, AllReadBut;
    FreshIds(r.nodes, r.queues, r.flags);
    ReadFlags(w, k, outQ);
  }

  lemma ReadFlags(w: Chain, k: nat, outQ: nat)
    ensures Read(w, k, outQ).flags == w.flags + k + k
  {
  }

  lemma PipelinedLinked(w: Chain, upstream: seq<set<nat>>, k: nat, outQ: nat)
    requires BeforeWork(w, upstream, k, outQ)
    ensures var ups := upstream + Spans(Same(k, |w.nodes|)) + Spans(After(k, |w.nodes|)) + [Upto(|w.nodes| + k + k)];
            Linked(PipelinedStage(w, k, outQ), ups)
  {
    hide Read, PipelinedStage, MainLoop, Spans, Same, After, Upto, BeforeWork, Linked, WellWired, AllBehind, Unread, Unset, InRange, Row;
    ReadersLinked(w, upstream, k, outQ);
    MainReady(w, upstream, k, outQ);
    var ups := upstream + Spans(Same(k, |w.nodes|)) + Spans(After(k, |w.nodes|));
    MainLinked(Read(w, k, outQ).nodes, ups, MainLoop(w, k, outQ), PipelinedStage(w, k, outQ));
  }

  lemma MainLinked(nodes: seq<Node>, upstream: seq<set<nat>>, x: Node, v: Chain)
    requires WellWired(nodes, upstream) && AllBehind(nodes, upstream, x.stops, |nodes|)
    requires x.input !in x.outputs && forall q :: q in x.outputs ==> Unread(nodes, q)
    requires x.next.Some? && x.next.value != STOP && Unset(nodes, x.next.value)
    requires v.nodes == nodes + [x] && InRange(v.nodes, v.queues, v.flags)
    requires v.source < v.queues && v.source != SINK && v.stop == x.next.value
    ensures Linked(v, upstream + [Upto(|nodes|)])
  {
    AddNode(nodes, upstream, x, |nodes|);
    LastTakesAll(nodes, upstream, x);
  }

  lemma OutputsBeside(w: Chain, p: nat, last: bool)
    requires InRange(w.nodes, w.queues, w.flags) && SINK < w.source < w.queues && p > 0 && (!last ==> p == 1)
    ensures SideBySide(w.nodes, Outputs(w, p, last), Same(p, |w.nodes|))
  {
    FreshIds(w.nodes, w.queues, w.flags);
    hide InRange;
    assert SINK != SOURCE;
  }

  lemma OutputsWired(w: Chain, upstream: seq<set<nat>>, p: nat, last: bool)
    requires Linked(w, upstream) && w.source != SOURCE && p > 0 && (!last ==> p == 1)
    ensures WellWired(OutputStage(w, p, last).nodes, upstream + Spans(Same(p, |w.nodes|)))
  {
    var layer, ms := Outputs(w, p, last), Same(p, |w.nodes|);
    assert |upstream| == |w.nodes|;
    OutputsBeside(w, p, last);
    hide WellWired, AllBehind, SideBySide, InRange;
    AddLayer(w.nodes, upstream, layer, ms);
  }

  lemma OutputsLinked(w: Chain, upstream: seq<set<nat>>, p: nat, last: bool)
    requires Linked(w, upstream) && Sound(w, {w.source}) && w.nodes != [] && p > 0 && (!last ==> p == 1)
    ensures var v, ups := OutputStage(w, p, last), upstream + Spans(Same(p, |w.nodes|));
            && WellWired(v.nodes, ups)
            && (!last ==> Linked(v, ups))
  {
    OutputsWired(w, upstream, p, last);
    assert |upstream| == |w.nodes|;
    if !last {
      OutputSound(w, p, last);
      var x := Outputs(w, p, last)[0];
      hide WellWired, AllBehind, InRange;
      LastTakesAll(w.nodes, upstream, x);
      assert Outputs(w, p, last) == [x] && Spans(Same(p, |w.nodes|)) == [Upto(|w.nodes|)];
    }
  }

  // ---- The whole --------------------------------------------------------------------------------------------------

  lemma AttachLinked(w: Chain, upstream: seq<set<nat>>, c: Component, last: bool) returns (ups: seq<set<nat>>)
    requires Linked(w, upstream) && Sound(w, {w.source})
    requires c.postprocessors > 0 && (c.Pipelined? ==> c.preprocessors > 0) && (!last ==> c.postprocessors == 1)
    ensures WellWired(Attach(w, c, last).nodes, ups) && (!last ==> Linked(Attach(w, c, last), ups))
  {
    var i, outQ := InputStage(w), w.queues;
    InputLinked(w, upstream);
    InputSound(w);
    InputShape(w);
    ups := upstream + [Upto(|w.nodes|)];
    hide Linked, Sound, WellWired;
    match c {
      case Pipelined(k, _) =>
        PipelinedLinked(i, ups, k, outQ);
        PipelinedSound(i, k, outQ);
        ups := ups + Spans(Same(k, |i.nodes|)) + Spans(After(k, |i.nodes|)) + [Upto(|i.nodes| + k + k)];
      case Custom(_) =>
        CustomLinked(i, ups, outQ);
        CustomSound(i, outQ);
        ups := ups + [Upto(|i.nodes|)];
    }
    var v := Work(i, c, outQ);
    WorkShape(i, c, outQ);
    OutputsLinked(v, ups, c.postprocessors, last);
    ups := ups + Spans(Same(c.postprocessors, |v.nodes|));
  }

  lemma {:induction false} WireLinked(cs: seq<Component>, n: nat) returns (ups: seq<set<nat>>)
    requires Proper(cs) && SingleOutputs(cs) && n <= |cs|
    ensures WellWired(Wire(cs, n).nodes, ups) && (n < |cs| ==> Linked(Wire(cs, n), ups))
  {
    hide Linked, Sound, WellWired, Attach;
    if n == 0 {
      ups := [];
      OutsideLinked();
    } else {
      ups := WireLinked(cs, n - 1);
      WireSound(cs, n - 1);
      ups := AttachLinked(Wire(cs, n - 1), ups, cs[n - 1], n == |cs|);
    }
  }

  lemma OutsideLinked()
    ensures Linked(OUTSIDE, [])
  {
  }
}
