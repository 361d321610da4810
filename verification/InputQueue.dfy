/** Reading from the queue between two processes: bounded batches, and what a last read leaves. */
module InputQueue {

  const DEFAULT_MAX: nat := 32

  function Smaller(a: nat, b: nat): nat {
    if a <= b then a else b
  }

  class MultiprocessingQueue<T> {
    var items: seq<T>

    constructor ()
      ensures items == []
    {
      items := [];
    }

    method Put(x: T)
      modifies this
      ensures items == old(items) + [x]
    {
      items := items + [x];
    }

    /** `get_batch`: the oldest items, at most `max` of them. */
    method GetBatch(max: nat) returns (batch: seq<T>)
      modifies this
      ensures batch == old(items)[..Smaller(|old(items)|, max)]
      ensures items == old(items)[Smaller(|old(items)|, max)..]
    {
      batch := [];
      if items == [] {
        return;
      }
      var n := if |items| <= max then |items| else max;
      for k := 0 to n
        invariant |old(items)| >= n && batch == old(items)[..k] && items == old(items)[k..]
      {
        batch := batch + [items[0]];
        items := items[1..];
      }
    }

    /** `close_and_get_remains`: one batch of the default size. It is the whole queue exactly if that
      * holds no more items than the default. */
    method CloseAndGetRemains() returns (batch: seq<T>)
      modifies this
      ensures batch + items == old(items) && |batch| <= DEFAULT_MAX
      ensures items == [] <==> |old(items)| <= DEFAULT_MAX
    {
      batch := GetBatch(DEFAULT_MAX);
    }

    /** The end of a reader thread of the compute process: it reads until nothing is left. */
    method DrainInto(buffer: seq<T>) returns (r: seq<T>)
      modifies this
      ensures items == [] && r == buffer + old(items)
    {
      r := buffer;
      while |items| > 0
        invariant r + items == buffer + old(items)
        decreases |items|
      {
        var batch := GetBatch(DEFAULT_MAX);
        r := r + batch;
      }
    }
  }
}
