/** Requests are grouped into batches, inferred together, and taken apart again. */
module Batching {

  /** What one request brings: rows by tensor name. */
  type Item<R> = map<string, seq<R>>

  /** A batch on its way: the tensors of its requests one after the other, and their metadata. */
  datatype Batch<R, M> = Batch(tensors: Item<R>, metas: seq<M>)

  // ---- The size of the next batch ------------------------------------------------------------

  /** The largest of the sizes that is at most `n`, or 0. */
  function Fit(sizes: seq<nat>, n: nat): nat {
    if sizes == [] then 0
    else
      var rest, s := Fit(sizes[..|sizes| - 1], n), sizes[|sizes| - 1];
      if s <= n && s > rest then s else rest
  }

  function ChosenSize(n: nat, cross: bool, max: nat, sizes: seq<nat>): nat {
    if !cross then 1 else if n >= max then max else Fit(sizes, n)
  }

  lemma {:induction false} FitIsLargest(sizes: seq<nat>, n: nat)
    ensures Fit(sizes, n) <= n
    ensures Fit(sizes, n) > 0 ==> Fit(sizes, n) in sizes
    ensures forall s :: s in sizes && s <= n ==> s <= Fit(sizes, n)
  {
    if sizes != [] {
      FitIsLargest(sizes[..|sizes| - 1], n);
      assert sizes == sizes[..|sizes| - 1] + [sizes[|sizes| - 1]];
    }
  }

  /** What makes every round take at least one request. */
  predicate Progressive(cross: bool, max: nat, sizes: seq<nat>) {
    !cross || max == 1 || (max > 1 && 1 in sizes)
  }

  /** A batch is never empty, whatever is waiting, exactly if batches do not cross requests or the
    * limit is 1 or size 1 is among the profiled sizes. */
  lemma NeverEmptyIff(cross: bool, max: nat, sizes: seq<nat>)
    ensures Progressive(cross, max, sizes) <==> forall n: nat :: n > 0 ==> ChosenSize(n, cross, max, sizes) > 0
  {
    if Progressive(cross, max, sizes) {
      forall n: nat | n > 0 ensures ChosenSize(n, cross, max, sizes) > 0 {
        FitIsLargest(sizes, n);
      }
    } else {
      FitIsLargest(sizes, 1);
      assert ChosenSize(1, cross, max, sizes) == 0;
    }
  }

  /** No more is taken than is waiting; across requests, and with the limit profiled itself, every
    * size is a profiled one and at most the limit. */
  lemma SizeIsProfiled(n: nat, cross: bool, max: nat, sizes: seq<nat>)
    requires n > 0 && Progressive(cross, max, sizes)
    ensures 0 < ChosenSize(n, cross, max, sizes) <= n
    ensures cross && max in sizes ==> ChosenSize(n, cross, max, sizes) in sizes && ChosenSize(n, cross, max, sizes) <= max
  {
    FitIsLargest(sizes, n);
  }

  /** How many of `n` waiting requests are taken. */
  method ChooseSize(n: nat, cross: bool, max: nat, sizes: seq<nat>) returns (k: nat)
    ensures k == ChosenSize(n, cross, max, sizes)
  {
    if !cross {
      return 1;
    }
    if n >= max {
      return max;
    }
    k := 0;
    for i := 0 to |sizes|
      invariant k == Fit(sizes[..i], n)
    {
      assert sizes[..i + 1][..i] == sizes[..i];
      var s := if sizes[i] <= n then sizes[i] else 0;
      k := if s > k then s else k;
    }
    assert sizes[..|sizes|] == sizes;
  }

  /** What is taken from `n` waiting requests: one, or the limit, or the largest profiled size there is. */
  lemma ChosenIsLargest(n: nat, cross: bool, max: nat, sizes: seq<nat>)
    ensures !cross ==> ChosenSize(n, cross, max, sizes) == 1
    ensures cross && n >= max ==> ChosenSize(n, cross, max, sizes) == max
    ensures cross && n < max ==>
              var k := ChosenSize(n, cross, max, sizes);
              k <= n && (k > 0 ==> k in sizes) && forall s :: s in sizes && s <= n ==> s <= k
  {
    FitIsLargest(sizes, n);
  }

  // ---- Forming batches -------------------------------------------------------------------------

  /** The batches cut from what is waiting, first come first served. */
  function Cut<T>(waiting: seq<T>, cross: bool, max: nat, sizes: seq<nat>): (cuts: seq<seq<T>>)
    requires Progressive(cross, max, sizes)
  {
    if waiting == [] then []
    else
      SizeIsProfiled(|waiting|, cross, max, sizes);
      var k := ChosenSize(|waiting|, cross, max, sizes);
      [waiting[..k]] + Cut(waiting[k..], cross, max, sizes)
  }

  lemma CutFirst<T>(waiting: seq<T>, cross: bool, max: nat, sizes: seq<nat>, k: nat)
    requires Progressive(cross, max, sizes) && waiting != [] && k == ChosenSize(|waiting|, cross, max, sizes)
    ensures 0 < k <= |waiting|
    ensures forall done: seq<seq<T>> :: done + Cut(waiting, cross, max, sizes) == done + [waiting[..k]] + Cut(waiting[k..], cross, max, sizes)
  {
    SizeIsProfiled(|waiting|, cross, max, sizes);
  }

  function Flatten<T>(parts: seq<seq<T>>): seq<T> {
    if parts == [] then [] else parts[0] + Flatten(parts[1..])
  }

  lemma FlattenFirst<T>(part: seq<T>, parts: seq<seq<T>>)
    ensures Flatten([part] + parts) == part + Flatten(parts)
  {
    assert ([part] + parts)[1..] == parts;
  }

  /** A batch of the right size, no larger than what waits. */
  predicate RightSize<T>(part: seq<T>, n: nat, cross: bool, max: nat, sizes: seq<nat>) {
    && 0 < |part| <= n
    && (!cross ==> |part| == 1)
    && (cross && max in sizes ==> |part| in sizes && |part| <= max)
  }

  lemma FirstIsRight<T>(waiting: seq<T>, cross: bool, max: nat, sizes: seq<nat>, k: nat)
    requires Progressive(cross, max, sizes) && waiting != [] && k == ChosenSize(|waiting|, cross, max, sizes)
    ensures 0 < k <= |waiting| && RightSize(waiting[..k], |waiting|, cross, max, sizes)
  {
    SizeIsProfiled(|waiting|, cross, max, sizes);
  }

  /** Cutting loses nothing, keeps the order, and uses only profiled sizes. */
  lemma {:induction false} CutIsPartition<T>(waiting: seq<T>, cross: bool, max: nat, sizes: seq<nat>)
    requires Progressive(cross, max, sizes)
    ensures Flatten(Cut(waiting, cross, max, sizes)) == waiting
    ensures forall p :: p in Cut(waiting, cross, max, sizes) ==> RightSize(p, |waiting|, cross, max, sizes)
    decreases |waiting|
  {
    if waiting != [] {
      hide *;
      var k := ChosenSize(|waiting|, cross, max, sizes);
      FirstIsRight(waiting, cross, max, sizes, k);
      CutIsPartition(waiting[k..], cross, max, sizes);
      var rest := Cut(waiting[k..], cross, max, sizes);
      CutFirst(waiting, cross, max, sizes, k);
      assert [] + Cut(waiting, cross, max, sizes) == Cut(waiting, cross, max, sizes);
      FlattenFirst(waiting[..k], rest);
      forall p | p in [waiting[..k]] + rest ensures RightSize(p, |waiting|, cross, max, sizes) {
        if p in rest {
          StillRight(p, |waiting[k..]|, |waiting|, cross, max, sizes);
        }
      }
      assert waiting == waiting[..k] + waiting[k..];
    }
  }

  lemma StillRight<T>(part: seq<T>, n: nat, more: nat, cross: bool, max: nat, sizes: seq<nat>)
    requires RightSize(part, n, cross, max, sizes) && n <= more
    ensures RightSize(part, more, cross, max, sizes)
  {
  }

  // ---- Putting tensors together -----------------------------------------------------------------

  /** Rows of one tensor over the items that have it, in order. */
  function Rows<R>(items: seq<Item<R>>, name: string): seq<R> {
    if items == [] then []
    else
      var rest, item := Rows(items[..|items| - 1], name), items[|items| - 1];
      if name in item then rest + item[name] else rest
  }

  predicate Mentioned<R>(items: seq<Item<R>>, name: string) {
    exists i :: 0 <= i < |items| && name in items[i]
  }

  ghost predicate IsConcat<R>(t: Item<R>, items: seq<Item<R>>) {
    && (forall name :: name in t <==> Mentioned(items, name))
    && forall name :: name in t ==> t[name] == Rows(items, name)
  }

  lemma MentionedSnoc<R>(items: seq<Item<R>>, i: nat, name: string)
    requires i < |items|
    ensures Mentioned(items[..i + 1], name) <==> Mentioned(items[..i], name) || name in items[i]
    ensures !Mentioned(items[..i], name) ==> Rows(items[..i], name) == []
  {
    var more, less := items[..i + 1], items[..i];
    assert more[i] == items[i];
    if k :| 0 <= k < |less| && name in less[k] {
      assert name in more[k];
    }
    NoRows(less, name);
  }

  lemma {:induction false} NoRows<R>(items: seq<Item<R>>, name: string)
    ensures !Mentioned(items, name) ==> Rows(items, name) == []
  {
    if items != [] {
      var init := items[..|items| - 1];
      NoRows(init, name);
      if k :| 0 <= k < |init| && name in init[k] {
        assert name in items[k];
      }
      assert name in items[|items| - 1] ==> Mentioned(items, name);
    }
  }

  /** Appends each item's rows to those of the same tensor name. */
  method Concatenate<R>(items: seq<Item<R>>) returns (t: Item<R>)
    ensures IsConcat(t, items)
  {
    t := map[];
    for i := 0 to |items|
      invariant IsConcat(t, items[..i])
    {
      ghost var before := t;
      var todo := items[i].Keys;
      while todo != {}
        invariant todo <= items[i].Keys
        invariant forall name :: name in t <==> name in before || (name in items[i] && name !in todo)
        invariant forall name :: name in t && (name !in items[i] || name in todo) ==> t[name] == before[name]
        invariant forall name :: name in items[i] && name !in todo ==>
                    t[name] == (if name in before then before[name] else []) + items[i][name]
        decreases |todo|
      {
        var name :| name in todo;
        if name !in t {
          t := t[name := []];
        }
        t := t[name := t[name] + items[i][name]];
        todo := todo - {name};
      }
      OneMoreItem(t, before, items, i);
    }
    assert items[..|items|] == items;
  }

  lemma OneMoreItem<R>(t: Item<R>, before: Item<R>, items: seq<Item<R>>, i: nat)
    requires i < |items| && IsConcat(before, items[..i])
    requires forall name :: name in t <==> name in before || name in items[i]
    requires forall name :: name in t && name !in items[i] ==> t[name] == before[name]
    requires forall name :: name in items[i] ==> t[name] == (if name in before then before[name] else []) + items[i][name]
    ensures IsConcat(t, items[..i + 1])
  {
    assert items[..i + 1] == items[..i] + [items[i]];
    forall name ensures name in t <==> Mentioned(items[..i + 1], name)
    {
      MentionedSnoc(items, i, name);
    }
    forall name | name in t ensures t[name] == Rows(items[..i + 1], name) {
      MentionedSnoc(items, i, name);
    }
  }

  /** The preprocessor's waiting lists, side by side. */
  class Waiting<R, M> {
    const cross: bool
    const max: nat
    const sizes: seq<nat>
    var items: seq<Item<R>>
    var metas: seq<M>

    constructor (cross: bool, max: nat, sizes: seq<nat>)
      ensures items == [] && metas == [] && this.cross == cross && this.max == max && this.sizes == sizes
    {
      this.cross, this.max, this.sizes := cross, max, sizes;
      items, metas := [], [];
    }

    predicate Valid()
      reads this
    {
      |items| == |metas|
    }

    method Add(item: Item<R>, meta: M)
      requires Valid()
      modifies this`items, this`metas
      ensures Valid() && items == old(items) + [item] && metas == old(metas) + [meta]
    {
      items, metas := items + [item], metas + [meta];
    }

    /** Moves the first `k` requests out of both lists. */
    method Take(k: nat) returns (taken: seq<Item<R>>, takenMetas: seq<M>)
      requires Valid() && k <= |items|
      modifies this`items, this`metas
      ensures Valid() && taken == old(items[..k]) && takenMetas == old(metas[..k])
      ensures items == old(items[k..]) && metas == old(metas[k..])
    {
      taken, takenMetas := [], [];
      for i := 0 to k
        invariant Valid() && |items| == |old(items)| - i
        invariant taken == old(items)[..i] && takenMetas == old(metas)[..i]
        invariant items == old(items)[i..] && metas == old(metas)[i..]
      {
        taken, items := taken + [items[0]], items[1..];
        takenMetas, metas := takenMetas + [metas[0]], metas[1..];
      }
    }

    /** Sends out everything that is waiting: item batches and metadata batches are cut alike. */
    method SendBatches() returns (sent: seq<Batch<R, M>>)
      requires Valid() && Progressive(cross, max, sizes)
      modifies this`items, this`metas
      ensures items == [] && metas == []
      ensures BatchesOf(sent, old(items), old(metas), cross, max, sizes)
    {
      hide IsConcat, ChosenSize, Progressive;
      sent := [];
      ghost var all, allMetas := items, metas;
      ghost var parts, metaParts := [], [];
      while |items| > 0
        invariant Valid()
        invariant |sent| == |parts| == |metaParts|
        invariant Cut(all, cross, max, sizes) == parts + Cut(items, cross, max, sizes)
        invariant Cut(allMetas, cross, max, sizes) == metaParts + Cut(metas, cross, max, sizes)
        invariant forall i :: 0 <= i < |sent| ==> IsConcat(sent[i].tensors, parts[i]) && sent[i].metas == metaParts[i]
      {
        var k := ChooseSize(|items|, cross, max, sizes);
        CutFirst(items, cross, max, sizes, k);
        CutFirst(metas, cross, max, sizes, k);
        parts, metaParts := parts + [items[..k]], metaParts + [metas[..k]];
        var batch, batchMetas := Take(k);
        var tensors := Concatenate(batch);
        sent := sent + [Batch(tensors, batchMetas)];
      }
      assert parts == Cut(all, cross, max, sizes) && metaParts == Cut(allMetas, cross, max, sizes);
    }
  }

  /** Batch by batch, the tensors are those of the items and the metadata those of the requests. */
  ghost predicate BatchesOf<R, M>(sent: seq<Batch<R, M>>, items: seq<Item<R>>, metas: seq<M>, cross: bool, max: nat, sizes: seq<nat>)
    requires Progressive(cross, max, sizes)
  {
    var parts, metaParts := Cut(items, cross, max, sizes), Cut(metas, cross, max, sizes);
    && |sent| == |parts| == |metaParts|
    && forall i :: 0 <= i < |sent| ==> IsConcat(sent[i].tensors, parts[i]) && sent[i].metas == metaParts[i]
  }

  // ---- Inference and taking apart --------------------------------------------------------------------

  /** The named tensors of a batch. */
  function Feed<R>(t: Item<R>, inputs: seq<string>): Item<R>
    requires forall name :: name in inputs ==> name in t
  {
    map name | name in inputs :: t[name]
  }

  predicate Rectangular<R>(feed: Item<R>, inputs: seq<string>, n: nat) {
    && (forall name :: name in feed ==> name in inputs)
    && forall name :: name in inputs ==> name in feed && |feed[name]| == n
  }

  /** The feed of a single row. */
  function RowOf<R>(feed: Item<R>, i: nat): Item<R>
    requires forall name :: name in feed ==> i < |feed[name]|
  {
    map name | name in feed :: [feed[name][i]]
  }

  /** Inference is row-wise: each row of each output depends on the same row of the inputs alone. */
  ghost predicate RowWise<R(!new), O(!new)>(infer: Item<R> -> seq<seq<O>>, inputs: seq<string>, outs: nat) {
    forall feed: Item<R>, n: nat :: Rectangular(feed, inputs, n) && inputs != [] ==> RowWiseOn(infer, feed, n, outs)
  }

  ghost predicate RowWiseOn<R, O>(infer: Item<R> -> seq<seq<O>>, feed: Item<R>, n: nat, outs: nat) {
    && |infer(feed)| == outs
    && (forall o :: 0 <= o < outs ==> |infer(feed)[o]| == n)
    && forall i, o :: 0 <= i < n && 0 <= o < outs ==> SameRow(infer, feed, i, o)
  }

  ghost predicate SameRow<R, O>(infer: Item<R> -> seq<seq<O>>, feed: Item<R>, i: nat, o: nat)
    requires o < |infer(feed)| && i < |infer(feed)[o]|
  {
    && (forall name :: name in feed ==> i < |feed[name]|)
    && o < |infer(RowOf(feed, i))|
    && |infer(RowOf(feed, i))[o]| > 0
    && infer(feed)[o][i] == infer(RowOf(feed, i))[o][0]
  }

  /** Row `i` of every output, by output name. */
  function OutputRow<O>(names: seq<string>, outputs: seq<seq<O>>, i: nat): map<string, O>
    requires |names| <= |outputs| && forall o :: 0 <= o < |names| ==> i < |outputs[o]|
  {
    if names == [] then map[]
    else
      var o := |names| - 1;
      OutputRow(names[..o], outputs, i)[names[o] := outputs[o][i]]
  }

  /** No later output has the same name. */
  predicate LastNamed(names: seq<string>, o: nat) {
    o < |names| && forall p :: o < p < |names| ==> names[p] != names[o]
  }

  /** The keys are the names, and under each name is row `i` of its output, the last one of that name. */
  lemma {:induction false} OutputRowExact<O>(names: seq<string>, outputs: seq<seq<O>>, i: nat)
    requires |names| <= |outputs| && forall o :: 0 <= o < |names| ==> i < |outputs[o]|
    ensures forall name :: name in OutputRow(names, outputs, i) <==> name in names
    ensures forall o :: 0 <= o < |names| && LastNamed(names, o) ==> OutputRow(names, outputs, i)[names[o]] == outputs[o][i]
  {
    if names != [] {
      var last := |names| - 1;
      var init := names[..last];
      OutputRowExact(init, outputs, i);
      assert names == init + [names[last]];
      forall o | 0 <= o < |names| && LastNamed(names, o) ensures OutputRow(names, outputs, i)[names[o]] == outputs[o][i] {
        if o < last {
          assert names[o] != names[last] && LastNamed(init, o);
        }
      }
    }
  }

  predicate OneRow<R>(item: Item<R>, inputs: seq<string>) {
    forall name :: name in inputs ==> name in item && |item[name]| == 1
  }

  /** What a request would get if it were inferred alone. */
  ghost function Alone<R(!new), O(!new)>(infer: Item<R> -> seq<seq<O>>, inputs: seq<string>, names: seq<string>,
                         item: Item<R>): map<string, O>
    requires RowWise(infer, inputs, |names|) && inputs != [] && OneRow(item, inputs)
  {
    assert Rectangular(Feed(item, inputs), inputs, 1);
    assert RowWiseOn(infer, Feed(item, inputs), 1, |names|);
    OutputRow(names, infer(Feed(item, inputs)), 0)
  }

  /** The feed has exactly the named tensors of `t`, each under its own name. */
  ghost predicate FedWith<R>(feed: Item<R>, t: Item<R>, inputs: seq<string>) {
    && (forall name :: name in feed <==> name in inputs)
    && forall name :: name in inputs ==> name in t && feed[name] == t[name]
  }

  lemma FeedExact<R>(t: Item<R>, inputs: seq<string>)
    requires forall name :: name in inputs ==> name in t
    ensures FedWith(Feed(t, inputs), t, inputs)
    ensures forall feed: Item<R> :: FedWith(feed, t, inputs) ==> feed == Feed(t, inputs)
  {
  }

  /** The answer has row `k` of what inference on the tensors gives, each output under its own name. */
  ghost predicate HasOutputs<R(!new), O>(one: map<string, O>, infer: Item<R> -> seq<seq<O>>, inputs: seq<string>, names: seq<string>,
                                         t: Item<R>, k: nat) {
    && (forall name :: name in one <==> name in names)
    && forall feed: Item<R> :: FedWith(feed, t, inputs) ==>
         && |infer(feed)| == |names|
         && forall o :: 0 <= o < |names| && LastNamed(names, o) ==> k < |infer(feed)[o]| && one[names[o]] == infer(feed)[o][k]
  }

  /** There is only one such answer. */
  lemma OnlyAnswer<R(!new), O>(a: map<string, O>, b: map<string, O>, infer: Item<R> -> seq<seq<O>>, inputs: seq<string>, names: seq<string>,
                               t: Item<R>, k: nat)
    requires (forall name :: name in inputs ==> name in t) && HasOutputs(a, infer, inputs, names, t, k) && HasOutputs(b, infer, inputs, names, t, k)
    ensures a == b
  {
    FeedExact(t, inputs);
    forall name | name in names ensures a[name] == b[name] {
      var o := LastIndex(names, name);
      assert LastNamed(names, o) && names[o] == name;
    }
  }

  lemma {:induction false} LastIndex(names: seq<string>, name: string) returns (o: nat)
    requires name in names
    ensures LastNamed(names, o) && names[o] == name
  {
    o := |names| - 1;
    if names[o] != name {
      assert names == names[..o] + [names[o]];
      o := LastIndex(names[..|names| - 1], name);
    }
  }

  /** A request alone gets the first row of what inference on its own tensors gives. */
  lemma AloneExact<R(!new), O(!new)>(infer: Item<R> -> seq<seq<O>>, inputs: seq<string>, names: seq<string>, item: Item<R>)
    requires RowWise(infer, inputs, |names|) && inputs != [] && OneRow(item, inputs)
    ensures HasOutputs(Alone(infer, inputs, names, item), infer, inputs, names, item, 0)
  {
    assert Rectangular(Feed(item, inputs), inputs, 1);
    assert RowWiseOn(infer, Feed(item, inputs), 1, |names|);
    FeedExact(item, inputs);
    OutputRowExact(names, infer(Feed(item, inputs)), 0);
    hide RowWise, RowWiseOn, OutputRow, Feed, FedWith;
  }

  lemma {:induction false} RowsOfOne<R>(items: seq<Item<R>>, inputs: seq<string>, name: string)
    requires name in inputs && forall i :: 0 <= i < |items| ==> OneRow(items[i], inputs)
    ensures |Rows(items, name)| == |items|
    ensures forall i :: 0 <= i < |items| ==> OneRow(items[i], inputs) && Rows(items, name)[i] == items[i][name][0]
  {
    if items != [] {
      var init := items[..|items| - 1];
      RowsOfOne(init, inputs, name);
      assert forall i :: 0 <= i < |init| ==> init[i] == items[i];
    }
  }

  lemma TensorOfConcat<R>(t: Item<R>, items: seq<Item<R>>, inputs: seq<string>, i: nat, name: string)
    requires IsConcat(t, items) && i < |items| && name in inputs && forall k :: 0 <= k < |items| ==> OneRow(items[k], inputs)
    ensures name in t && |t[name]| == |items| && OneRow(items[i], inputs) && t[name][i] == items[i][name][0]
  {
    assert name in items[i] && Mentioned(items, name);
    RowsOfOne(items, inputs, name);
  }

  /** Row `i` of the concatenated batch is item `i`. */
  lemma RowOfConcat<R>(t: Item<R>, items: seq<Item<R>>, inputs: seq<string>, i: nat)
    requires IsConcat(t, items) && i < |items| && forall k :: 0 <= k < |items| ==> OneRow(items[k], inputs)
    ensures forall name :: name in inputs ==> name in t
    ensures Rectangular(Feed(t, inputs), inputs, |items|) && OneRow(items[i], inputs)
    ensures RowOf(Feed(t, inputs), i) == Feed(items[i], inputs)
  {
    hide IsConcat;
    assert OneRow(items[i], inputs);
    forall name | name in inputs
      ensures name in t && |t[name]| == |items| && [t[name][i]] == items[i][name]
    {
      TensorOfConcat(t, items, inputs, i, name);
    }
  }

  lemma {:induction false} SameOutputRow<O>(names: seq<string>, a: seq<seq<O>>, i: nat, b: seq<seq<O>>, j: nat)
    requires |names| <= |a| && |names| <= |b|
    requires forall o :: 0 <= o < |names| ==> i < |a[o]| && j < |b[o]| && a[o][i] == b[o][j]
    ensures OutputRow(names, a, i) == OutputRow(names, b, j)
  {
    if names != [] {
      SameOutputRow(names[..|names| - 1], a, i, b, j);
    }
  }

  /** Each row of the inferred batch is what its request would have got alone. */
  lemma SplitIsAlone<R(!new), O(!new)>(infer: Item<R> -> seq<seq<O>>, inputs: seq<string>, names: seq<string>,
                       t: Item<R>, items: seq<Item<R>>, i: nat)
    requires RowWise(infer, inputs, |names|) && inputs != []
    requires IsConcat(t, items) && i < |items| && forall k :: 0 <= k < |items| ==> OneRow(items[k], inputs)
    ensures forall name :: name in inputs ==> name in t
    ensures var outputs := infer(Feed(t, inputs));
            && |outputs| == |names| && (forall o :: 0 <= o < |names| ==> |outputs[o]| == |items|)
            && OutputRow(names, outputs, i) == Alone(infer, inputs, names, items[i])
  {
    RowOfConcat(t, items, inputs, i);
    var feed, single := Feed(t, inputs), Feed(items[i], inputs);
    assert RowWiseOn(infer, feed, |items|, |names|);
    assert Rectangular(single, inputs, 1);
    assert RowWiseOn(infer, single, 1, |names|);
    forall o | 0 <= o < |names| ensures infer(feed)[o][i] == infer(single)[o][0] {
      assert SameRow(infer, feed, i, o);
    }
    SameOutputRow(names, infer(feed), i, infer(single), 0);
  }

  /** The answers to some requests, each with the request's own metadata. */
  ghost function Answers<R(!new), O(!new), M>(infer: Item<R> -> seq<seq<O>>, inputs: seq<string>, names: seq<string>,
                           items: seq<Item<R>>, metas: seq<M>)
    : (r: seq<(map<string, O>, M)>)
    requires RowWise(infer, inputs, |names|) && inputs != [] && |items| == |metas|
    requires forall k :: 0 <= k < |items| ==> OneRow(items[k], inputs)
    ensures |r| == |items|
  {
    seq(|items|, k requires 0 <= k < |items| => (Alone(infer, inputs, names, items[k]), metas[k]))
  }

  /** The answer of each request is its own row of every output, under the output's name, and it comes with the
    * request's own metadata. */
  lemma AnswersExact<R(!new), O(!new), M>(infer: Item<R> -> seq<seq<O>>, inputs: seq<string>, names: seq<string>,
                                          items: seq<Item<R>>, metas: seq<M>)
    requires RowWise(infer, inputs, |names|) && inputs != [] && |items| == |metas|
    requires forall k :: 0 <= k < |items| ==> OneRow(items[k], inputs)
    ensures OwnAnswers(Answers(infer, inputs, names, items, metas), infer, inputs, names, items, metas)
  {
    hide RowWise, OneRow, Alone, HasOutputs;
    forall k | 0 <= k < |items| ensures HasOutputs(Answers(infer, inputs, names, items, metas)[k].0, infer, inputs, names, items[k], 0) {
      AloneExact(infer, inputs, names, items[k]);
    }
  }

  ghost predicate OwnAnswers<R(!new), O, M>(answers: seq<(map<string, O>, M)>, infer: Item<R> -> seq<seq<O>>, inputs: seq<string>,
                                            names: seq<string>, items: seq<Item<R>>, metas: seq<M>) {
    && |answers| == |items| == |metas|
    && forall k :: 0 <= k < |items| ==> HasOutputs(answers[k].0, infer, inputs, names, items[k], 0) && answers[k].1 == metas[k]
  }

  /** The same rows of the batch. */
  lemma AnswersOfBatch<R(!new), O(!new), M>(infer: Item<R> -> seq<seq<O>>, inputs: seq<string>, names: seq<string>,
                                            t: Item<R>, items: seq<Item<R>>, metas: seq<M>, k: nat)
    requires RowWise(infer, inputs, |names|) && inputs != [] && |items| == |metas| && k < |items|
    requires IsConcat(t, items) && forall k :: 0 <= k < |items| ==> OneRow(items[k], inputs)
    ensures HasOutputs(Answers(infer, inputs, names, items, metas)[k].0, infer, inputs, names, t, k)
  {
    hide RowWise, OneRow, Alone, IsConcat, OutputRow;
    SplitIsAlone(infer, inputs, names, t, items, k);
    OutputRowExact(names, infer(Feed(t, inputs)), k);
    FeedExact(t, inputs);
    hide FedWith, Feed;
  }

  /** `_process_normal_batchable`: one answer per request of the batch, in order. */
  method ProcessNormalBatchable<R(!new), O(!new), M>(batch: Batch<R, M>, infer: Item<R> -> seq<seq<O>>,
                                  inputs: seq<string>, names: seq<string>, ghost items: seq<Item<R>>)
    returns (answers: seq<(map<string, O>, M)>)
    requires RowWise(infer, inputs, |names|) && inputs != [] && names != []
    requires IsConcat(batch.tensors, items) && |items| == |batch.metas| > 0
    requires forall k :: 0 <= k < |items| ==> OneRow(items[k], inputs)
    ensures answers == Answers(infer, inputs, names, items, batch.metas)
    ensures OwnAnswers(answers, infer, inputs, names, items, batch.metas)
    ensures forall k :: 0 <= k < |items| ==> HasOutputs(answers[k].0, infer, inputs, names, batch.tensors, k)
  {
    hide RowWise, IsConcat, OneRow, Alone, OwnAnswers, HasOutputs;
    AnswersExact(infer, inputs, names, items, batch.metas);
    forall k | 0 <= k < |items|
      ensures HasOutputs(Answers(infer, inputs, names, items, batch.metas)[k].0, infer, inputs, names, batch.tensors, k)
    {
      AnswersOfBatch(infer, inputs, names, batch.tensors, items, batch.metas, k);
    }
    SplitIsAlone(infer, inputs, names, batch.tensors, items, 0);
    var outputs := infer(Feed(batch.tensors, inputs));
    answers := [];
    for i := 0 to |outputs[0]|
      invariant |answers| == i
      invariant forall k :: 0 <= k < i ==> answers[k] == (Alone(infer, inputs, names, items[k]), batch.metas[k])
    {
      SplitIsAlone(infer, inputs, names, batch.tensors, items, i);
      var one: map<string, O> := map[];
      for o := 0 to |names|
        invariant one == OutputRow(names[..o], outputs, i)
      {
        assert names[..o + 1][..o] == names[..o];
        one := one[names[o] := outputs[o][i]];
      }
      assert names[..|names|] == names;
      answers := answers + [(one, batch.metas[i])];
    }
  }

  /** Batches in the compute process's buffer, and the requests they were made of. */
  ghost predicate Carries<R, M>(queue: seq<Batch<R, M>>, parts: seq<seq<Item<R>>>, metaParts: seq<seq<M>>, inputs: seq<string>) {
    && |queue| == |parts| == |metaParts|
    && forall i :: 0 <= i < |queue| ==>
         && IsConcat(queue[i].tensors, parts[i])
         && queue[i].metas == metaParts[i]
         && |parts[i]| == |metaParts[i]| > 0
         && forall k :: 0 <= k < |parts[i]| ==> OneRow(parts[i][k], inputs)
  }

  predicate Alike<R, M>(parts: seq<seq<Item<R>>>, metaParts: seq<seq<M>>, inputs: seq<string>) {
    && |parts| == |metaParts|
    && forall i :: 0 <= i < |parts| ==>
         |parts[i]| == |metaParts[i]| && forall k :: 0 <= k < |parts[i]| ==> OneRow(parts[i][k], inputs)
  }

  ghost function AnswersOf<R(!new), O(!new), M>(infer: Item<R> -> seq<seq<O>>, inputs: seq<string>, names: seq<string>,
                             parts: seq<seq<Item<R>>>, metaParts: seq<seq<M>>)
    : (r: seq<seq<(map<string, O>, M)>>)
    requires RowWise(infer, inputs, |names|) && inputs != [] && Alike(parts, metaParts, inputs)
    ensures |r| == |parts|
  {
    seq(|parts|, i requires 0 <= i < |parts| => Answers(infer, inputs, names, parts[i], metaParts[i]))
  }

  lemma {:induction false} FlattenSnoc<T>(parts: seq<seq<T>>, p: seq<T>)
    ensures Flatten(parts + [p]) == Flatten(parts) + p
  {
    if parts == [] {
      assert Flatten([p]) == p + Flatten([p][1..]);
    } else {
      FlattenSnoc(parts[1..], p);
      assert (parts + [p])[1..] == parts[1..] + [p];
    }
  }

  /** The compute process's round: it empties its buffer from the front and emits every answer. */
  method ComputeRound<R(!new), O(!new), M>(queue: seq<Batch<R, M>>, infer: Item<R> -> seq<seq<O>>, inputs: seq<string>, names: seq<string>,
                                          ghost parts: seq<seq<Item<R>>>, ghost metaParts: seq<seq<M>>)
    returns (emitted: seq<(map<string, O>, M)>)
    requires RowWise(infer, inputs, |names|) && inputs != [] && names != []
    requires Carries(queue, parts, metaParts, inputs)
    ensures Alike(parts, metaParts, inputs)
    ensures emitted == Flatten(AnswersOf(infer, inputs, names, parts, metaParts))
  {
    emitted := [];
    ghost var all := AnswersOf(infer, inputs, names, parts, metaParts);
    var buffer := queue;
    for i := 0 to |queue|
      invariant buffer == queue[i..]
      invariant emitted == Flatten(all[..i])
    {
      var batch := buffer[0];
      buffer := buffer[1..];
      var answers := ProcessNormalBatchable(batch, infer, inputs, names, parts[i]);
      FlattenSnoc(all[..i], all[i]);
      assert all[..i + 1] == all[..i] + [all[i]];
      emitted := emitted + answers;
    }
    assert all[..|queue|] == all;
  }

  // ---- Batching preserves meaning ----------------------------------------------------------------------

  lemma {:induction false} CutAlike<R, M>(items: seq<Item<R>>, metas: seq<M>, cross: bool, max: nat, sizes: seq<nat>, inputs: seq<string>)
    requires Progressive(cross, max, sizes) && |items| == |metas|
    requires forall k :: 0 <= k < |items| ==> OneRow(items[k], inputs)
    ensures Alike(Cut(items, cross, max, sizes), Cut(metas, cross, max, sizes), inputs)
    ensures forall i :: 0 <= i < |Cut(items, cross, max, sizes)| ==> Cut(items, cross, max, sizes)[i] != []
    decreases |items|
  {
    if items != [] {
      SizeIsProfiled(|items|, cross, max, sizes);
      var k := ChosenSize(|items|, cross, max, sizes);
      CutAlike(items[k..], metas[k..], cross, max, sizes, inputs);
    }
  }

  lemma {:induction false} AlikeFlat<R, M>(parts: seq<seq<Item<R>>>, metaParts: seq<seq<M>>, inputs: seq<string>)
    requires Alike(parts, metaParts, inputs)
    ensures |Flatten(parts)| == |Flatten(metaParts)|
    ensures forall k :: 0 <= k < |Flatten(parts)| ==> OneRow(Flatten(parts)[k], inputs)
  {
    hide OneRow;
    if parts != [] {
      AlikeFlat(parts[1..], metaParts[1..], inputs);
    }
  }

  /** However some requests are split into batches, the answers are those each request would have got
    * alone, with its own metadata, in order. */
  lemma {:induction false} AnyPartsSameAnswers<R(!new), O(!new), M>(infer: Item<R> -> seq<seq<O>>, inputs: seq<string>, names: seq<string>,
                                              parts: seq<seq<Item<R>>>, metaParts: seq<seq<M>>)
    requires RowWise(infer, inputs, |names|) && inputs != [] && Alike(parts, metaParts, inputs)
    ensures |Flatten(parts)| == |Flatten(metaParts)|
    ensures forall k :: 0 <= k < |Flatten(parts)| ==> OneRow(Flatten(parts)[k], inputs)
    ensures Flatten(AnswersOf(infer, inputs, names, parts, metaParts)) == Answers(infer, inputs, names, Flatten(parts), Flatten(metaParts))
  {
    AlikeFlat(parts, metaParts, inputs);
    if parts != [] {
      hide RowWise, OneRow, Answers, AnswersOf, Alike;
      AnswersOfFirst(infer, inputs, names, parts, metaParts);
      AnyPartsSameAnswers(infer, inputs, names, parts[1..], metaParts[1..]);
      AnswersSplit(infer, inputs, names, Flatten(parts), Flatten(metaParts), |parts[0]|);
    } else {
      assert Answers(infer, inputs, names, [], Flatten(metaParts)) == [];
    }
  }

  /** The batches of several rounds, each on the requests that have arrived in the meantime. */
  function CutAll<T>(chunks: seq<seq<T>>, cross: bool, max: nat, sizes: seq<nat>): seq<seq<T>>
    requires Progressive(cross, max, sizes)
  {
    if chunks == [] then [] else Cut(chunks[0], cross, max, sizes) + CutAll(chunks[1..], cross, max, sizes)
  }

  lemma Associative<T>(a: seq<T>, b: seq<T>, c: seq<T>)
    ensures a + (b + c) == (a + b) + c
  {
  }

  lemma {:induction false} FlattenConcat<T>(a: seq<seq<T>>, b: seq<seq<T>>)
    ensures Flatten(a + b) == Flatten(a) + Flatten(b)
  {
    if a == [] {
      assert a + b == b;
    } else {
      FlattenConcat(a[1..], b);
      assert (a + b)[0] == a[0] && (a + b)[1..] == a[1..] + b;
      Associative(a[0], Flatten(a[1..]), Flatten(b));
    }
  }

  lemma {:induction false} CutAllIsPartition<T>(chunks: seq<seq<T>>, cross: bool, max: nat, sizes: seq<nat>)
    requires Progressive(cross, max, sizes)
    ensures Flatten(CutAll(chunks, cross, max, sizes)) == Flatten(chunks)
  {
    if chunks != [] {
      hide Cut;
      CutAllIsPartition(chunks[1..], cross, max, sizes);
      CutIsPartition(chunks[0], cross, max, sizes);
      FlattenConcat(Cut(chunks[0], cross, max, sizes), CutAll(chunks[1..], cross, max, sizes));
    }
  }

  lemma {:induction false} CutAllAlike<R, M>(chunks: seq<seq<Item<R>>>, metaChunks: seq<seq<M>>, cross: bool, max: nat,
                                             sizes: seq<nat>, inputs: seq<string>)
    requires Progressive(cross, max, sizes) && Alike(chunks, metaChunks, inputs)
    ensures Alike(CutAll(chunks, cross, max, sizes), CutAll(metaChunks, cross, max, sizes), inputs)
  {
    hide OneRow;
    if chunks != [] {
      CutAllAlike(chunks[1..], metaChunks[1..], cross, max, sizes, inputs);
      CutAlike(chunks[0], metaChunks[0], cross, max, sizes, inputs);
    }
  }

  /** One preprocessor, over any number of rounds: whatever has arrived in each and whatever sizes are
    * chosen, the answers are those each request would have got alone, with its own metadata, in the
    * order of arrival. */
  lemma BatchingPreservesMeaning<R(!new), O(!new), M>(infer: Item<R> -> seq<seq<O>>, inputs: seq<string>, names: seq<string>,
                                              chunks: seq<seq<Item<R>>>, metaChunks: seq<seq<M>>, cross: bool, max: nat, sizes: seq<nat>)
    requires RowWise(infer, inputs, |names|) && inputs != []
    requires Progressive(cross, max, sizes) && Alike(chunks, metaChunks, inputs)
    ensures |Flatten(chunks)| == |Flatten(metaChunks)|
    ensures forall k :: 0 <= k < |Flatten(chunks)| ==> OneRow(Flatten(chunks)[k], inputs)
    ensures Alike(CutAll(chunks, cross, max, sizes), CutAll(metaChunks, cross, max, sizes), inputs)
    ensures Flatten(AnswersOf(infer, inputs, names, CutAll(chunks, cross, max, sizes), CutAll(metaChunks, cross, max, sizes)))
            == Answers(infer, inputs, names, Flatten(chunks), Flatten(metaChunks))
    ensures OwnAnswers(Flatten(AnswersOf(infer, inputs, names, CutAll(chunks, cross, max, sizes), CutAll(metaChunks, cross, max, sizes))),
                       infer, inputs, names, Flatten(chunks), Flatten(metaChunks))
  {
    hide RowWise, OneRow, Answers, AnswersOf, OwnAnswers;
    AlikeFlat(chunks, metaChunks, inputs);
    AnswersExact(infer, inputs, names, Flatten(chunks), Flatten(metaChunks));
    CutAllAlike(chunks, metaChunks, cross, max, sizes, inputs);
    CutAllIsPartition(chunks, cross, max, sizes);
    CutAllIsPartition(metaChunks, cross, max, sizes);
    AnyPartsSameAnswers(infer, inputs, names, CutAll(chunks, cross, max, sizes), CutAll(metaChunks, cross, max, sizes));
  }

  lemma AnswersSplit<R(!new), O(!new), M>(infer: Item<R> -> seq<seq<O>>, inputs: seq<string>, names: seq<string>,
                       items: seq<Item<R>>, metas: seq<M>, k: nat)
    requires RowWise(infer, inputs, |names|) && inputs != [] && k <= |items| == |metas|
    requires forall k :: 0 <= k < |items| ==> OneRow(items[k], inputs)
    ensures Answers(infer, inputs, names, items, metas)
            == Answers(infer, inputs, names, items[..k], metas[..k]) + Answers(infer, inputs, names, items[k..], metas[k..])
  {
    hide RowWise, OneRow, Alone;
  }

  lemma AnswersOfFirst<R(!new), O(!new), M>(infer: Item<R> -> seq<seq<O>>, inputs: seq<string>, names: seq<string>,
                         parts: seq<seq<Item<R>>>, metaParts: seq<seq<M>>)
    requires RowWise(infer, inputs, |names|) && inputs != [] && Alike(parts, metaParts, inputs) && parts != []
    ensures Alike(parts[1..], metaParts[1..], inputs)
    ensures Flatten(AnswersOf(infer, inputs, names, parts, metaParts))
            == Answers(infer, inputs, names, parts[0], metaParts[0]) + Flatten(AnswersOf(infer, inputs, names, parts[1..], metaParts[1..]))
  {
    hide RowWise, OneRow, Answers;
    assert AnswersOf(infer, inputs, names, parts, metaParts)[1..] == AnswersOf(infer, inputs, names, parts[1..], metaParts[1..]);
  }

  function Without<T>(xs: seq<T>, i: nat): seq<T>
    requires i < |xs|
  {
    xs[..i] + xs[i + 1..]
  }

  lemma WithoutLater<T>(xs: seq<T>, i: nat)
    requires 0 < i < |xs|
    ensures Without(xs, i) == [xs[0]] + Without(xs[1..], i - 1)
  {
  }

  lemma {:induction false} FlattenInsert<T>(xs: seq<seq<T>>, i: nat)
    requires i < |xs|
    ensures multiset(Flatten(xs)) == multiset(xs[i]) + multiset(Flatten(Without(xs, i)))
  {
    if i == 0 {
      assert Without(xs, 0) == xs[1..];
    } else {
      FlattenInsert(xs[1..], i - 1);
      WithoutLater(xs, i);
      hide Without;
      var rest := Without(xs[1..], i - 1);
      assert ([xs[0]] + rest)[1..] == rest;
      assert Flatten(Without(xs, i)) == xs[0] + Flatten(rest);
    }
  }

  lemma WithoutCounts<T>(xs: seq<T>, i: nat)
    requires i < |xs|
    ensures multiset(xs) == multiset(Without(xs, i)) + multiset{xs[i]}
  {
    assert xs == xs[..i] + [xs[i]] + xs[i + 1..];
    assert multiset(xs) == multiset(xs[..i]) + multiset{xs[i]} + multiset(xs[i + 1..]);
  }

  /** Lists that agree up to order flatten to lists that do. */
  lemma {:induction false} AnyOrderSameFlat<T>(xs: seq<seq<T>>, ys: seq<seq<T>>)
    requires multiset(xs) == multiset(ys)
    ensures multiset(Flatten(xs)) == multiset(Flatten(ys))
  {
    if xs == [] {
      assert |multiset(ys)| == 0;
      assert ys == [];
    } else {
      var i := MatchFirst(xs, ys);
      AnyOrderSameFlat(xs[1..], Without(ys, i));
      FlattenInsert(ys, i);
    }
  }

  lemma MatchFirst<T>(xs: seq<T>, ys: seq<T>) returns (i: nat)
    requires xs != [] && multiset(xs) == multiset(ys)
    ensures i < |ys| && ys[i] == xs[0]
    ensures multiset(xs[1..]) == multiset(Without(ys, i))
  {
    assert xs[0] in multiset(ys);
    i :| 0 <= i < |ys| && ys[i] == xs[0];
    WithoutCounts(ys, i);
    WithoutCounts(xs, 0);
    assert Without(xs, 0) == xs[1..];
    assert multiset(xs[1..]) == multiset(xs) - multiset{xs[0]};
    assert multiset(Without(ys, i)) == multiset(ys) - multiset{ys[i]};
  }

  /** What depends on the elements alone agrees up to order as well. */
  lemma {:induction false} AnyOrderSameImage<T, U>(xs: seq<T>, ys: seq<T>, us: seq<U>, vs: seq<U>)
    requires multiset(xs) == multiset(ys) && |us| == |xs| && |vs| == |ys|
    requires forall i, j :: 0 <= i < |xs| && 0 <= j < |ys| && xs[i] == ys[j] ==> us[i] == vs[j]
    ensures multiset(us) == multiset(vs)
  {
    if xs == [] {
      assert |multiset(ys)| == 0;
    } else {
      var i := MatchFirst(xs, ys);
      WithoutCounts(vs, i);
      assert us == [us[0]] + us[1..];
      AnyOrderSameImage(xs[1..], Without(ys, i), us[1..], Without(vs, i));
    }
  }

  function Items<R, M>(batches: seq<(seq<Item<R>>, seq<M>)>): seq<seq<Item<R>>> {
    seq(|batches|, i requires 0 <= i < |batches| => batches[i].0)
  }

  function Metas<R, M>(batches: seq<(seq<Item<R>>, seq<M>)>): seq<seq<M>> {
    seq(|batches|, i requires 0 <= i < |batches| => batches[i].1)
  }

  lemma ReceivedAlike<R, M>(sent: seq<(seq<Item<R>>, seq<M>)>, received: seq<(seq<Item<R>>, seq<M>)>, inputs: seq<string>)
    requires multiset(sent) == multiset(received) && Alike(Items(sent), Metas(sent), inputs)
    ensures Alike(Items(received), Metas(received), inputs)
  {
    hide OneRow;
    forall i | 0 <= i < |received|
      ensures |received[i].0| == |received[i].1| && forall k :: 0 <= k < |received[i].0| ==> OneRow(received[i].0[k], inputs)
    {
      assert received[i] in multiset(sent);
      var j :| 0 <= j < |sent| && sent[j] == received[i];
      assert Items(sent)[j] == received[i].0 && Metas(sent)[j] == received[i].1;
    }
  }

  /** Several preprocessors: in whatever order their batches reach the compute process, every request
    * gets the answer it would have got alone, with its own metadata, and nothing else comes out. */
  lemma AnyOrderSameAnswers<R(!new), O(!new), M>(infer: Item<R> -> seq<seq<O>>, inputs: seq<string>, names: seq<string>,
                                              sent: seq<(seq<Item<R>>, seq<M>)>, received: seq<(seq<Item<R>>, seq<M>)>)
    requires RowWise(infer, inputs, |names|) && inputs != []
    requires multiset(sent) == multiset(received) && Alike(Items(sent), Metas(sent), inputs)
    ensures Alike(Items(received), Metas(received), inputs)
    ensures |Flatten(Items(sent))| == |Flatten(Metas(sent))|
    ensures forall k :: 0 <= k < |Flatten(Items(sent))| ==> OneRow(Flatten(Items(sent))[k], inputs)
    ensures multiset(Flatten(AnswersOf(infer, inputs, names, Items(received), Metas(received))))
            == multiset(Answers(infer, inputs, names, Flatten(Items(sent)), Flatten(Metas(sent))))
    ensures OwnAnswers(Answers(infer, inputs, names, Flatten(Items(sent)), Flatten(Metas(sent))), infer, inputs, names,
                       Flatten(Items(sent)), Flatten(Metas(sent)))
  {
    hide RowWise, OneRow, Answers, OwnAnswers;
    AlikeFlat(Items(sent), Metas(sent), inputs);
    AnswersExact(infer, inputs, names, Flatten(Items(sent)), Flatten(Metas(sent)));
    ReceivedAlike(sent, received, inputs);
    AnyPartsSameAnswers(infer, inputs, names, Items(sent), Metas(sent));
    var us, vs := AnswersOf(infer, inputs, names, Items(sent), Metas(sent)), AnswersOf(infer, inputs, names, Items(received), Metas(received));
    AnyOrderSameImage(sent, received, us, vs);
    AnyOrderSameFlat(us, vs);
  }
}
