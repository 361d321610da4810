/** How the backend hands queues and stop flags from process to process when it deploys a model. */
module PipelineBuilder {
  import opened Options
  import opened Network
  import opened Wiring

  /** What the parent process keeps while it deploys: the queues and flags made so far in the order in
    * which the next stage finds them, and the processes, in the order in which they are created. */
  class Builder {
    var sharedQueues: seq<nat>
    var stopFlags: seq<nat>
    var nodes: seq<Node>
    var nextQueue: nat
    var nextFlag: nat

    /** Only the outside queues exist, and the outside stop flag. */
    constructor ()
      ensures sharedQueues == [] && stopFlags == [] && Now() == OUTSIDE
    {
      sharedQueues, stopFlags, nodes, nextQueue, nextFlag := [], [], [], SINK + 1, STOP + 1;
    }

    /** The next stage reads the last queue and waits for the last flag. */
    ghost function Now(): Chain
      reads this
    {
      Chain(nodes, nextQueue, nextFlag,
            if sharedQueues == [] then SOURCE else sharedQueues[|sharedQueues| - 1],
            if stopFlags == [] then STOP else stopFlags[|stopFlags| - 1])
    }

    method NewQueue() returns (q: nat)
      modifies this`nextQueue
      ensures q == old(nextQueue) && nextQueue == q + 1
    {
      q := nextQueue;
      nextQueue := nextQueue + 1;
    }

    method NewFlag() returns (f: nat)
      modifies this`nextFlag
      ensures f == old(nextFlag) && nextFlag == f + 1
    {
      f := nextFlag;
      nextFlag := nextFlag + 1;
    }

    /** The input process; the component's shared output queue has just been made. */
    method DeployInput(first: bool, ghost before: Chain)
      requires first <==> sharedQueues == []
      requires first <==> stopFlags == []
      requires nextQueue > 0 && before == Now().(queues := nextQueue - 1) && (before.source == SOURCE <==> first)
      modifies this
      ensures Now() == InputStage(before) && sharedQueues != [] && stopFlags != []
    {
      var input := if first then SOURCE else sharedQueues[|sharedQueues| - 1];
      var q := NewQueue();
      sharedQueues := sharedQueues + [q];
      if first {
        stopFlags := stopFlags + [STOP];
      }
      var stop := stopFlags[|stopFlags| - 1];
      var f := NewFlag();
      stopFlags := stopFlags + [f];
      nodes := nodes + [Node(input, {q}, [stop], Some(f), !first)];
    }

    /** The preprocessors, each with its own queue and flag. */
    method DeployPreprocessors(k: nat, outQ: nat) returns (queues: seq<nat>, flags: seq<nat>)
      requires sharedQueues != [] && stopFlags != []
      modifies this
      ensures nodes == old(nodes) + Preprocessors(old(Now()), k, outQ)
      ensures nextQueue == old(nextQueue) + k && nextFlag == old(nextFlag) + k
      ensures queues == Row(old(nextQueue), k) && flags == Row(old(nextFlag), k)
    {
      var input, stop := sharedQueues[|sharedQueues| - 1], stopFlags[|stopFlags| - 1];
      queues, flags := [], [];
      for i := 0 to k
        invariant nextQueue == old(nextQueue) + i && nextFlag == old(nextFlag) + i
        invariant queues == Row(old(nextQueue), i) && flags == Row(old(nextFlag), i)
        invariant nodes == old(nodes) + Preprocessors(old(Now()), i, outQ)
      {
        var q := NewQueue();
        sharedQueues := sharedQueues + [q];
        var f := NewFlag();
        stopFlags := stopFlags + [f];
        nodes := nodes + [Node(input, {q, outQ}, [stop], Some(f), true)];
        assert Preprocessors(old(Now()), i + 1, outQ) == Preprocessors(old(Now()), i, outQ) + [Node(input, {q, outQ}, [stop], Some(f), true)];
        queues, flags := queues + [q], flags + [f];
      }
    }

    /** The compute process: a reader thread for each preprocessor's queue, which goes on until the flags
      * up to its own are set, and the main loop. */
    method DeployCompute(queues: seq<nat>, flags: seq<nat>, outQ: nat, ghost w: Chain)
      requires |queues| == |flags|
      requires queues == Row(w.queues, |queues|) && flags == Row(w.flags, |flags|)
      requires nodes == w.nodes + Preprocessors(w, |queues|, outQ)
      requires nextQueue == w.queues + |queues| && nextFlag == w.flags + |flags|
      modifies this
      ensures Now() == PipelinedStage(w, |queues|, outQ) && sharedQueues != [] && stopFlags != []
    {
      var buffer := NewQueue();
      var joined: seq<nat> := [];
      for i := 0 to |queues|
        invariant nextQueue == buffer + 1 && nextFlag == w.flags + |flags| + i
        invariant joined == Row(w.flags + |flags|, i)
        invariant nodes == w.nodes + Preprocessors(w, |queues|, outQ) + Readers(w, |queues|)[..i]
      {
        var f := NewFlag();
        RowAt(w.queues, |queues|, i);
        RowPrefix(w.flags, |flags|, i + 1);
        assert Readers(w, |queues|)[i] == Node(queues[i], {buffer}, flags[..i + 1], Some(f), false);
        nodes := nodes + [Node(queues[i], {buffer}, flags[..i + 1], Some(f), false)];
        joined := joined + [f];
      }
      assert Readers(w, |queues|)[..|queues|] == Readers(w, |queues|);
      sharedQueues := sharedQueues + [outQ];
      var f := NewFlag();
      stopFlags := stopFlags + [f];
      nodes := nodes + [Node(buffer, {outQ}, joined, Some(f), false)];
    }

    /** A custom component is one process of its own. */
    method DeployCustomModel(outQ: nat)
      requires sharedQueues != [] && stopFlags != []
      modifies this
      ensures Now() == CustomStage(old(Now()), outQ) && sharedQueues != [] && stopFlags != []
    {
      var stop, input := stopFlags[|stopFlags| - 1], sharedQueues[|sharedQueues| - 1];
      sharedQueues := sharedQueues + [outQ];
      var f := NewFlag();
      stopFlags := stopFlags + [f];
      nodes := nodes + [Node(input, {outQ}, [stop], Some(f), true)];
    }

    /** The output processes read the component's shared output queue. */
    method DeployOutputs(k: nat, outQ: nat, last: bool)
      requires sharedQueues != [] && stopFlags != [] && sharedQueues[|sharedQueues| - 1] == outQ
      modifies this
      ensures Now() == OutputStage(old(Now()), k, last) && sharedQueues != [] && stopFlags != []
    {
      var stop, to, next := stopFlags[|stopFlags| - 1], SINK, None;
      if !last {
        to := NewQueue();
        sharedQueues := sharedQueues + [to];
        var f := NewFlag();
        stopFlags := stopFlags + [f];
        next := Some(f);
      }
      ghost var all := Outputs(old(Now()), k, last);
      for i := 0 to k
        modifies this`nodes
        invariant nodes == old(nodes) + all[..i]
      {
        assert all[i] == Node(outQ, {to}, [stop], next, true);
        nodes := nodes + [Node(outQ, {to}, [stop], next, true)];
      }
      assert all[..k] == all;
    }

    method Deploy(c: Component, first: bool, last: bool)
      requires first <==> sharedQueues == []
      requires first <==> stopFlags == []
      requires Now().source == SOURCE <==> first
      requires nextQueue > SINK
      modifies this
      ensures Now() == Attach(old(Now()), c, last) && sharedQueues != [] && stopFlags != []
    {
      ghost var w := Now();
      var outQ := NewQueue();
      DeployInput(first, w);
      match c {
        case Pipelined(k, _) =>
          ghost var i := Now();
          var queues, flags := DeployPreprocessors(k, outQ);
          DeployCompute(queues, flags, outQ, i);
        case Custom(_) =>
          DeployCustomModel(outQ);
      }
      DeployOutputs(c.postprocessors, outQ, last);
    }

    /** All components in order. Which queue and which flags every process gets is what `Deployed` says,
      * whatever the numbers of processes. */
    method Build(components: seq<Component>)
      requires sharedQueues == [] && stopFlags == [] && Now() == OUTSIDE && Proper(components)
      modifies this
      ensures Now() == Deployed(components)
    {
      hide Proper, Attach;
      for i := 0 to |components|
        invariant Now() == Wire(components, i)
        invariant i == 0 <==> sharedQueues == []
        invariant i == 0 <==> stopFlags == []
      {
        WhereNext(components, i);
        Deploy(components[i], i == 0, i + 1 == |components|);
      }
    }
  }

  /** Only the first stage reads from outside. */
  lemma WhereNext(cs: seq<Component>, n: nat)
    requires Proper(cs) && n < |cs|
    ensures Wire(cs, n).source == SOURCE <==> n == 0
    ensures Wire(cs, n).queues > SINK
  {
    hide Attach;
    WireSound(cs, n);
  }

  lemma {:induction false} RowAt(first: nat, n: nat, i: nat)
    requires i < n
    ensures Row(first, n)[i] == first + i
  {
    if i < n - 1 {
      RowAt(first, n - 1, i);
    }
  }

  lemma {:induction false} RowPrefix(first: nat, n: nat, i: nat)
    requires i <= n
    ensures Row(first, n)[..i] == Row(first, i)
  {
    if i < n {
      RowPrefix(first, n - 1, i);
      assert Row(first, n)[..i] == Row(first, n - 1)[..i];
    }
  }
}
