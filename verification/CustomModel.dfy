/** A component that runs user code on batches: four waiting lists, and inference that may raise. */
module CustomModel {
  import opened Batching
  import opened Pairs

  datatype Status = Processing | Completed | Failed
  datatype Meta = Meta(task: string, status: Status, errors: seq<string>)

  /** What the user's `infer` did with a batch. */
  datatype Outcome<O> = Returned(outputs: seq<O>) | Raised(message: string)

  /** A batch as it is handed to `infer`. */
  datatype Call<I, P, Q> = Call(inputs: seq<I>, preprocs: seq<P>, postprocs: seq<Q>)

  function Fail(m: Meta, message: string): Meta {
    m.(status := Failed, errors := m.errors + [message])
  }

  /** What is emitted for one batch. When `infer` raises, every request fails with an empty output;
    * otherwise outputs and metadata are paired as far as both reach. */
  function Emitted<O>(outcome: Outcome<O>, empty: O, metas: seq<Meta>): seq<(O, Meta)> {
    match outcome
    case Returned(outputs) => Zip(outputs, metas)
    case Raised(message) => seq(|metas|, k requires 0 <= k < |metas| => (empty, Fail(metas[k], message)))
  }

  /** Each request of the batch gets exactly one output if and only if `infer` raised or returned at
    * least as many outputs as there are requests. Whatever comes out is in order and for its own task. */
  lemma OneOutputEachIff<O>(outcome: Outcome<O>, empty: O, metas: seq<Meta>)
    ensures |Emitted(outcome, empty, metas)| == |metas| <==> outcome.Raised? || |outcome.outputs| >= |metas|
    ensures |Emitted(outcome, empty, metas)| <= |metas|
    ensures forall k :: 0 <= k < |Emitted(outcome, empty, metas)| ==> Emitted(outcome, empty, metas)[k].1.task == metas[k].task
    ensures outcome.Raised? ==> forall k :: 0 <= k < |metas| ==> Emitted(outcome, empty, metas)[k].1.status == Failed
    ensures outcome.Returned? ==> forall k :: 0 <= k < |Emitted(outcome, empty, metas)| ==> Emitted(outcome, empty, metas)[k].1 == metas[k]
  {
    if outcome.Returned? {
      ZipExact(outcome.outputs, metas);
    }
  }

  /** What request number `k` of a batch gets: its own output and metadata as they were, or an empty output and the
    * message that was raised after the messages it had. */
  predicate Gets<O(==)>(answer: (O, Meta), outcome: Outcome<O>, empty: O, meta: Meta, k: nat) {
    match outcome
    case Returned(outputs) => k < |outputs| && answer == (outputs[k], meta)
    case Raised(message) => answer == (empty, Meta(meta.task, Failed, meta.errors + [message]))
  }

  predicate AllGet<O(==)>(answers: seq<(O, Meta)>, outcome: Outcome<O>, empty: O, metas: seq<Meta>) {
    && |answers| <= |metas|
    && forall k :: 0 <= k < |answers| ==> Gets(answers[k], outcome, empty, metas[k], k)
  }

  /** Whatever is emitted is what its request gets. */
  lemma EmittedExact<O>(outcome: Outcome<O>, empty: O, metas: seq<Meta>)
    ensures AllGet(Emitted(outcome, empty, metas), outcome, empty, metas)
  {
    if outcome.Returned? {
      ZipExact(outcome.outputs, metas);
    }
  }

  /** What is emitted for everything that waits, batch after batch. */
  function EmittedAll<I, P, Q, O>(infer: Call<I, P, Q> -> Outcome<O>, empty: O, inputs: seq<seq<I>>,
                                  preprocs: seq<seq<P>>, postprocs: seq<seq<Q>>, metas: seq<seq<Meta>>): seq<(O, Meta)>
    requires |inputs| == |preprocs| == |postprocs| == |metas|
  {
    if inputs == [] then []
    else
      Emitted(infer(Call(inputs[0], preprocs[0], postprocs[0])), empty, metas[0])
      + EmittedAll(infer, empty, inputs[1..], preprocs[1..], postprocs[1..], metas[1..])
  }

  lemma {:induction false} CutSameLength<S, T>(a: seq<S>, b: seq<T>, cross: bool, max: nat, sizes: seq<nat>)
    requires Progressive(cross, max, sizes) && |a| == |b|
    ensures |Cut(a, cross, max, sizes)| == |Cut(b, cross, max, sizes)|
    decreases |a|
  {
    if a != [] {
      SizeIsProfiled(|a|, cross, max, sizes);
      var k := ChosenSize(|a|, cross, max, sizes);
      CutSameLength(a[k..], b[k..], cross, max, sizes);
    }
  }

  /** The four waiting lists of the process. */
  class CustomModelProcess<I, P, Q> {
    const cross: bool
    const max: nat
    const sizes: seq<nat>
    var inputs: seq<I>
    var preprocs: seq<P>
    var postprocs: seq<Q>
    var metas: seq<Meta>

    constructor (cross: bool, max: nat, sizes: seq<nat>)
      ensures this.cross == cross && this.max == max && this.sizes == sizes
      ensures Valid() && inputs == [] && metas == []
    {
      this.cross, this.max, this.sizes := cross, max, sizes;
      inputs, preprocs, postprocs, metas := [], [], [], [];
    }

    predicate Valid()
      reads this
    {
      |inputs| == |preprocs| == |postprocs| == |metas|
    }

    method Add(input: I, preproc: P, postproc: Q, meta: Meta)
      requires Valid()
      modifies this
      ensures Valid()
      ensures inputs == old(inputs) + [input] && metas == old(metas) + [meta]
      ensures preprocs == old(preprocs) + [preproc] && postprocs == old(postprocs) + [postproc]
    {
      inputs, preprocs := inputs + [input], preprocs + [preproc];
      postprocs, metas := postprocs + [postproc], metas + [meta];
    }

    /** Moves the first `k` requests out of all four lists. */
    method Take(k: nat) returns (call: Call<I, P, Q>, batchMetas: seq<Meta>)
      requires Valid() && k <= |inputs|
      modifies this
      ensures Valid()
      ensures call == Call(old(inputs)[..k], old(preprocs)[..k], old(postprocs)[..k]) && batchMetas == old(metas)[..k]
      ensures inputs == old(inputs)[k..] && preprocs == old(preprocs)[k..]
      ensures postprocs == old(postprocs)[k..] && metas == old(metas)[k..]
    {
      var a, b, c := [], [], [];
      batchMetas := [];
      for i := 0 to k
        invariant Valid() && |inputs| == |old(inputs)| - i
        invariant a == old(inputs)[..i] && b == old(preprocs)[..i] && c == old(postprocs)[..i] && batchMetas == old(metas)[..i]
        invariant inputs == old(inputs)[i..] && preprocs == old(preprocs)[i..]
        invariant postprocs == old(postprocs)[i..] && metas == old(metas)[i..]
      {
        a, inputs := a + [inputs[0]], inputs[1..];
        batchMetas, metas := batchMetas + [metas[0]], metas[1..];
        b, preprocs := b + [preprocs[0]], preprocs[1..];
        c, postprocs := c + [postprocs[0]], postprocs[1..];
      }
      call := Call(a, b, c);
    }

    /** Runs one batch; when `infer` raises, every request of the batch is marked as failed. */
    method RunBatch<O>(call: Call<I, P, Q>, batchMetas: seq<Meta>, infer: Call<I, P, Q> -> Outcome<O>,
                       empty: O) returns (emitted: seq<(O, Meta)>)
      requires |call.inputs| == |batchMetas|
      ensures emitted == Emitted(infer(call), empty, batchMetas)
      ensures AllGet(emitted, infer(call), empty, batchMetas)
    {
      EmittedExact(infer(call), empty, batchMetas);
      hide AllGet;
      var outcome := infer(call);
      var outputs, marked: seq<Meta> := [], batchMetas;
      match outcome {
        case Returned(o) =>
          outputs := o;
        case Raised(message) =>
          for i := 0 to |call.inputs|
            invariant |outputs| == i && |marked| == |batchMetas|
            invariant forall k :: 0 <= k < i ==> outputs[k] == empty && marked[k] == Fail(batchMetas[k], message)
            invariant forall k :: i <= k < |batchMetas| ==> marked[k] == batchMetas[k]
          {
            outputs := outputs + [empty];
            marked := marked[i := Fail(marked[i], message)];
          }
      }
      emitted := [];
      ZipExact(outputs, marked);
      var n := if |outputs| <= |marked| then |outputs| else |marked|;
      for k := 0 to n
        invariant emitted == Zip(outputs, marked)[..k]
      {
        emitted := emitted + [(outputs[k], marked[k])];
      }
      assert emitted == Zip(outputs, marked);
      assert emitted == Emitted(outcome, empty, batchMetas);
    }

    /** Runs the first batch of what waits. */
    method RunFirst<O>(infer: Call<I, P, Q> -> Outcome<O>, empty: O) returns (emitted: seq<(O, Meta)>)
      requires Valid() && Progressive(cross, max, sizes) && inputs != []
      modifies this
      ensures Valid() && |inputs| < |old(inputs)|
      ensures old(Waiting(infer, empty)) == emitted + Waiting(infer, empty)
    {
      hide Progressive, ChosenSize, Emitted, Cut;
      SameCuts();
      var k := ChooseSize(|inputs|, cross, max, sizes);
      FirstCut(inputs, k);
      FirstCut(preprocs, k);
      FirstCut(postprocs, k);
      FirstCut(metas, k);
      var call, batchMetas := Take(k);
      SameCuts();
      emitted := RunBatch(call, batchMetas, infer, empty);
    }

    /** Runs everything that waits. */
    method RunBatches<O>(infer: Call<I, P, Q> -> Outcome<O>, empty: O) returns (emitted: seq<(O, Meta)>)
      requires Valid() && Progressive(cross, max, sizes)
      modifies this
      ensures inputs == [] && Valid()
      ensures emitted == old(Waiting(infer, empty))
    {
      emitted := [];
      ghost var whole := Waiting(infer, empty);
      while |inputs| > 0
        invariant Valid()
        invariant whole == emitted + Waiting(infer, empty)
      {
        hide Progressive, Waiting;
        var more := RunFirst(infer, empty);
        emitted := emitted + more;
      }
      SameCuts();
    }

    /** What the four lists, cut into batches side by side, give rise to. */
    ghost function Waiting<O>(infer: Call<I, P, Q> -> Outcome<O>, empty: O): seq<(O, Meta)>
      reads this
      requires Valid() && Progressive(cross, max, sizes)
    {
      SameCuts();
      EmittedAll(infer, empty, Cut(inputs, cross, max, sizes), Cut(preprocs, cross, max, sizes),
                 Cut(postprocs, cross, max, sizes), Cut(metas, cross, max, sizes))
    }

    lemma SameCuts()
      requires Valid() && Progressive(cross, max, sizes)
      ensures |Cut(inputs, cross, max, sizes)| == |Cut(preprocs, cross, max, sizes)|
              == |Cut(postprocs, cross, max, sizes)| == |Cut(metas, cross, max, sizes)|
    {
      CutSameLength(inputs, preprocs, cross, max, sizes);
      CutSameLength(inputs, postprocs, cross, max, sizes);
      CutSameLength(inputs, metas, cross, max, sizes);
    }

    lemma FirstCut<T>(waiting: seq<T>, k: nat)
      requires Progressive(cross, max, sizes) && waiting != [] && k == ChosenSize(|waiting|, cross, max, sizes)
      ensures 0 < k <= |waiting|
      ensures Cut(waiting, cross, max, sizes) != []
      ensures Cut(waiting, cross, max, sizes)[0] == waiting[..k]
      ensures Cut(waiting, cross, max, sizes)[1..] == Cut(waiting[k..], cross, max, sizes)
    {
      SizeIsProfiled(|waiting|, cross, max, sizes);
    }
  }

  lemma {:induction false} LengthTo<T>(parts: seq<seq<T>>, b: nat)
    requires 0 < b <= |parts|
    ensures |Flatten(parts[..b])| == |parts[0]| + |Flatten(parts[1..][..b - 1])|
  {
    assert parts[..b][1..] == parts[1..][..b - 1];
  }

  /** If `infer` always raises or returns enough, every waiting request is answered exactly once, in
    * order: the answer to request `k` of batch `b` comes after those to all earlier batches, and it is what that
    * request gets from that batch's own call. */
  lemma {:induction false} EveryRequestAnswered<I, P, Q, O>(infer: Call<I, P, Q> -> Outcome<O>, empty: O,
                                                            inputs: seq<seq<I>>, preprocs: seq<seq<P>>,
                                                            postprocs: seq<seq<Q>>, metas: seq<seq<Meta>>)
    requires |inputs| == |preprocs| == |postprocs| == |metas|
    requires forall b :: 0 <= b < |inputs| ==> Enough(infer(Call(inputs[b], preprocs[b], postprocs[b])), |metas[b]|)
    ensures |EmittedAll(infer, empty, inputs, preprocs, postprocs, metas)| == |Flatten(metas)|
    ensures forall b :: 0 <= b < |inputs| ==>
              BatchAnswered(EmittedAll(infer, empty, inputs, preprocs, postprocs, metas), |Flatten(metas[..b])|,
                            infer(Call(inputs[b], preprocs[b], postprocs[b])), empty, metas[b])
  {
    hide Emitted, Gets, Enough, BatchAnswered;
    if inputs != [] {
      var all, outcome := EmittedAll(infer, empty, inputs, preprocs, postprocs, metas), infer(Call(inputs[0], preprocs[0], postprocs[0]));
      var first := Emitted(outcome, empty, metas[0]);
      var rest := EmittedAll(infer, empty, inputs[1..], preprocs[1..], postprocs[1..], metas[1..]);
      EveryRequestAnswered(infer, empty, inputs[1..], preprocs[1..], postprocs[1..], metas[1..]);
      FirstAnswered(outcome, empty, metas[0], rest);
      assert metas[..0] == [];
      forall b | 1 <= b < |inputs|
        ensures BatchAnswered(all, |Flatten(metas[..b])|, infer(Call(inputs[b], preprocs[b], postprocs[b])), empty, metas[b])
      {
        LengthTo(metas, b);
        var c := b - 1;
        assert BatchAnswered(rest, |Flatten(metas[1..][..c])|, infer(Call(inputs[1..][c], preprocs[1..][c], postprocs[1..][c])), empty,
                             metas[1..][c]);
        LaterAnswered(first, rest, |Flatten(metas[1..][..c])|, infer(Call(inputs[b], preprocs[b], postprocs[b])), empty, metas[b]);
      }
    }
  }

  /** From a certain place on, every request of a batch has what it gets. */
  predicate BatchAnswered<O(==)>(answers: seq<(O, Meta)>, at: nat, outcome: Outcome<O>, empty: O, metas: seq<Meta>) {
    at + |metas| <= |answers| && AllGet(answers[at..at + |metas|], outcome, empty, metas)
  }

  lemma FirstAnswered<O>(outcome: Outcome<O>, empty: O, metas: seq<Meta>, rest: seq<(O, Meta)>)
    requires Enough(outcome, |metas|)
    ensures |Emitted(outcome, empty, metas)| == |metas|
    ensures BatchAnswered(Emitted(outcome, empty, metas) + rest, 0, outcome, empty, metas)
  {
    OneOutputEachIff(outcome, empty, metas);
    EmittedExact(outcome, empty, metas);
    hide AllGet;
    var first := Emitted(outcome, empty, metas);
    assert (first + rest)[0..|metas|] == first;
  }

  lemma LaterAnswered<O>(first: seq<(O, Meta)>, rest: seq<(O, Meta)>, at: nat, outcome: Outcome<O>, empty: O, metas: seq<Meta>)
    requires BatchAnswered(rest, at, outcome, empty, metas)
    ensures BatchAnswered(first + rest, |first| + at, outcome, empty, metas)
  {
    hide AllGet;
    assert (first + rest)[|first| + at..|first| + at + |metas|] == rest[at..at + |metas|];
  }

  predicate Enough<O>(outcome: Outcome<O>, n: nat) {
    outcome.Raised? || |outcome.outputs| >= n
  }
}
