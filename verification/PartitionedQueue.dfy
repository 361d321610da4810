/** A topic spread over partitions: pushers choose partitions in turn, one reader thread per
  * partition fills a shared bounded buffer, a monitor changes the number of readers, and one
  * consumer empties the buffer. Any interleaving of their atomic steps is allowed. */
module PartitionedQueue {

  type Data = string

  /** A reader in its loop: before the check of the buffer, past it, with an item in hand, done. */
  datatype Phase = Waiting | Polling | Holding(item: Data) | Exited
  datatype Reader = Reader(alive: bool, phase: Phase)

  /** What the buffer holds also says which partition it came from. */
  type Item = (nat, Data)

  /** `pushed` and `pulled` record what went in and out; the two bounds record the largest buffer
    * size ever set and the largest number of readers ever running. */
  datatype State = State(queued: seq<seq<Data>>, readers: seq<Reader>, buf: seq<Item>, bufSize: nat,
                         pushed: seq<seq<Data>>, pulled: seq<Item>, maxSize: nat, maxReaders: nat)

  datatype Step =
    | Push(partition: nat, item: Data)
    | Check(reader: nat)
    | Pop(reader: nat)
    | TimeOut(reader: nat)
    | Append(reader: nat)
    | Leave(reader: nat)
    | SetBufSize(size: nat)
    | AddReader
    | StopLast
    | RemoveLast
    | PullOne
    | Close

  predicate Sized(s: State) {
    && |s.pushed| == |s.queued|
    && |s.readers| <= |s.queued|
    && |s.readers| <= s.maxReaders
    && s.bufSize <= s.maxSize
    && s.maxSize > 0
  }

  predicate Enabled(s: State, step: Step) {
    match step
    case Push(p, _) => p < |s.queued|
    case Check(r) => r < |s.readers| && s.readers[r].phase.Waiting? && s.readers[r].alive
    case Pop(r) => r < |s.readers| && s.readers[r].phase.Polling? && r < |s.queued| && s.queued[r] != []
    case TimeOut(r) => r < |s.readers| && s.readers[r].phase.Polling?
    case Append(r) => r < |s.readers| && s.readers[r].phase.Holding?
    case Leave(r) => r < |s.readers| && s.readers[r].phase.Waiting? && !s.readers[r].alive
    case SetBufSize(size) => size > 0
    case AddReader => |s.readers| < |s.queued|
    case StopLast => s.readers != []
    case RemoveLast => s.readers != [] && s.readers[|s.readers| - 1].phase.Exited?
    case PullOne => s.buf != []
    case Close => true
  }

  function WithPhase(s: State, r: nat, p: Phase): State
    requires r < |s.readers|
  {
    s.(readers := s.readers[r := s.readers[r].(phase := p)])
  }

  function Do(s: State, step: Step): (t: State)
    requires Sized(s) && Enabled(s, step)
    ensures Sized(t)
  {
    match step
    case Push(p, d) =>
      s.(queued := s.queued[p := s.queued[p] + [d]], pushed := s.pushed[p := s.pushed[p] + [d]])
    case Check(r) => if |s.buf| >= s.bufSize then s else WithPhase(s, r, Polling)
    case Pop(r) => WithPhase(s, r, Holding(s.queued[r][0])).(queued := s.queued[r := s.queued[r][1..]])
    case TimeOut(r) => WithPhase(s, r, Waiting)
    case Append(r) => WithPhase(s, r, Waiting).(buf := s.buf + [(r, s.readers[r].phase.item)])
    case Leave(r) => WithPhase(s, r, Exited)
    case SetBufSize(size) => s.(bufSize := size, maxSize := if size > s.maxSize then size else s.maxSize)
    case AddReader =>
      s.(readers := s.readers + [Reader(true, Waiting)],
         maxReaders := if |s.readers| + 1 > s.maxReaders then |s.readers| + 1 else s.maxReaders)
    case StopLast =>
      var r := |s.readers| - 1;
      s.(readers := s.readers[r := s.readers[r].(alive := false)])
    case RemoveLast => s.(readers := s.readers[..|s.readers| - 1])
    case PullOne => s.(pulled := s.pulled + [s.buf[0]], buf := s.buf[1..])
    case Close => s.(bufSize := 0, readers := seq(|s.readers|, r requires 0 <= r < |s.readers| => s.readers[r].(alive := false)))
  }

  // ---- No loss, no duplicate, order per partition ------------------------------------------------

  /** The items of one partition, in order. */
  function Of(items: seq<Item>, p: nat): seq<Data> {
    if items == [] then []
    else
      var rest, x := Of(items[..|items| - 1], p), items[|items| - 1];
      if x.0 == p then rest + [x.1] else rest
  }

  lemma OfSnoc(items: seq<Item>, x: Item, p: nat)
    ensures Of(items + [x], p) == if x.0 == p then Of(items, p) + [x.1] else Of(items, p)
  {
    assert (items + [x])[..|items|] == items;
  }

  lemma {:induction false} OfFirst(items: seq<Item>, p: nat)
    requires items != []
    ensures Of(items, p) == (if items[0].0 == p then [items[0].1] else []) + Of(items[1..], p)
  {
    var init := items[..|items| - 1];
    if init == [] {
      assert Of(init, p) == [];
    } else {
      OfFirst(init, p);
      assert items[1..][..|items[1..]| - 1] == init[1..];
    }
  }

  function InHand(s: State, p: nat): seq<Data> {
    if p < |s.readers| && s.readers[p].phase.Holding? then [s.readers[p].phase.item] else []
  }

  /** What was pushed to a partition is what was pulled from it, then what is in the buffer, in the
    * reader's hand and still queued, in this order. */
  predicate KeptAt(s: State, p: nat)
    requires Sized(s) && p < |s.queued|
  {
    s.pushed[p] == Of(s.pulled, p) + Of(s.buf, p) + InHand(s, p) + s.queued[p]
  }

  predicate Kept(s: State)
    requires Sized(s)
  {
    forall p :: 0 <= p < |s.queued| ==> KeptAt(s, p)
  }

  lemma PushKeeps(s: State, q: nat, d: Data, p: nat)
    requires Sized(s) && Enabled(s, Push(q, d)) && p < |s.queued| && KeptAt(s, p)
    ensures KeptAt(Do(s, Push(q, d)), p)
  {
    var front := Of(s.pulled, p) + Of(s.buf, p) + InHand(s, p);
    assert front + s.queued[p] + [d] == front + (s.queued[p] + [d]);
  }

  lemma PopKeeps(s: State, r: nat, p: nat)
    requires Sized(s) && Enabled(s, Pop(r)) && p < |s.queued| && KeptAt(s, p)
    ensures KeptAt(Do(s, Pop(r)), p)
  {
    if p == r {
      var front := Of(s.pulled, p) + Of(s.buf, p);
      assert front + [] + s.queued[p] == front + [s.queued[p][0]] + s.queued[p][1..];
    }
  }

  lemma AppendKeeps(s: State, r: nat, p: nat)
    requires Sized(s) && Enabled(s, Append(r)) && p < |s.queued| && KeptAt(s, p)
    ensures KeptAt(Do(s, Append(r)), p)
  {
    var item := s.readers[r].phase.item;
    hide Of;
    OfSnoc(s.buf, (r, item), p);
    if p == r {
      FromHand(Of(s.pulled, p), Of(s.buf, p), [item], s.queued[p]);
    }
  }

  lemma FromHand(a: seq<Data>, b: seq<Data>, h: seq<Data>, q: seq<Data>)
    ensures a + b + h + q == a + (b + h) + [] + q
  {
    assert a + b + h == a + (b + h) + [];
  }

  lemma Shift(a: seq<Data>, x: seq<Data>, b: seq<Data>, h: seq<Data>, q: seq<Data>)
    ensures a + (x + b) + h + q == (a + x) + b + h + q
  {
    assert a + (x + b) == (a + x) + b;
  }

  lemma PullKeeps(s: State, p: nat)
    requires Sized(s) && Enabled(s, PullOne) && p < |s.queued| && KeptAt(s, p)
    ensures KeptAt(Do(s, PullOne), p)
  {
    hide Of;
    OfFirst(s.buf, p);
    OfSnoc(s.pulled, s.buf[0], p);
    Shift(Of(s.pulled, p), if s.buf[0].0 == p then [s.buf[0].1] else [], Of(s.buf[1..], p), InHand(s, p), s.queued[p]);
    assert Of(s.pulled, p) + [] == Of(s.pulled, p);
  }

  /** The other steps move no item. */
  lemma OthersKeep(s: State, step: Step, p: nat)
    requires Sized(s) && Enabled(s, step) && p < |s.queued| && KeptAt(s, p)
    requires !step.Push? && !step.Pop? && !step.Append? && !step.PullOne?
    ensures |Do(s, step).queued| == |s.queued| && KeptAt(Do(s, step), p)
  {
    hide Of;
    assert InHand(Do(s, step), p) == InHand(s, p);
  }

  lemma StepKeepsAt(s: State, step: Step, p: nat)
    requires Sized(s) && Enabled(s, step) && p < |s.queued| && KeptAt(s, p)
    ensures |Do(s, step).queued| == |s.queued| && KeptAt(Do(s, step), p)
  {
    hide KeptAt;
    match step {
      case Push(q, d) => PushKeeps(s, q, d, p);
      case Pop(r) => PopKeeps(s, r, p);
      case Append(r) => AppendKeeps(s, r, p);
      case PullOne => PullKeeps(s, p);
      case Check(_) => OthersKeep(s, step, p);
      case TimeOut(_) => OthersKeep(s, step, p);
      case Leave(_) => OthersKeep(s, step, p);
      case SetBufSize(_) => OthersKeep(s, step, p);
      case AddReader => OthersKeep(s, step, p);
      case StopLast => OthersKeep(s, step, p);
      case RemoveLast => OthersKeep(s, step, p);
      case Close => OthersKeep(s, step, p);
    }
  }

  // ---- The buffer stays bounded ---------------------------------------------------------------------

  function Past(p: Phase): nat {
    if p.Polling? || p.Holding? then 1 else 0
  }

  /** Readers that have passed the check and may still append. */
  function PastCheck(readers: seq<Reader>): (n: nat)
    ensures n <= |readers|
  {
    if readers == [] then 0 else PastCheck(readers[..|readers| - 1]) + Past(readers[|readers| - 1].phase)
  }

  lemma {:induction false} PastUpdate(readers: seq<Reader>, i: nat, x: Reader)
    requires i < |readers|
    ensures PastCheck(readers[i := x]) + Past(readers[i].phase) == PastCheck(readers) + Past(x.phase)
  {
    var init, last := readers[..|readers| - 1], |readers| - 1;
    if i == last {
      assert readers[i := x][..last] == init;
    } else {
      PastUpdate(init, i, x);
      assert readers[i := x][..last] == init[i := x];
    }
  }

  lemma {:induction false} PastSame(a: seq<Reader>, b: seq<Reader>)
    requires |a| == |b| && forall r :: 0 <= r < |a| ==> a[r].phase == b[r].phase
    ensures PastCheck(a) == PastCheck(b)
  {
    if a != [] {
      PastSame(a[..|a| - 1], b[..|b| - 1]);
    }
  }

  predicate Bounded(s: State) {
    |s.buf| + PastCheck(s.readers) <= s.maxSize - 1 + s.maxReaders
  }

  /** One reader moves on, and the buffer with it. */
  lemma MoveKeepsBound(s: State, t: State, r: nat, x: Reader)
    requires Bounded(s) && r < |s.readers| && t.readers == s.readers[r := x]
    requires t.maxSize == s.maxSize && t.maxReaders == s.maxReaders
    requires |t.buf| + Past(x.phase) <= |s.buf| + Past(s.readers[r].phase)
    ensures Bounded(t)
  {
    PastUpdate(s.readers, r, x);
  }

  lemma CheckKeepsBound(s: State, r: nat)
    requires Sized(s) && Enabled(s, Check(r)) && Bounded(s)
    ensures Bounded(Do(s, Check(r)))
  {
    if |s.buf| < s.bufSize {
      var t := Do(s, Check(r));
      PastUpdate(s.readers, r, t.readers[r]);
    }
  }

  lemma StepKeepsBound(s: State, step: Step)
    requires Sized(s) && Enabled(s, step) && Bounded(s)
    ensures Bounded(Do(s, step))
  {
    hide PastCheck;
    var t := Do(s, step);
    match step {
      case Check(r) => CheckKeepsBound(s, r);
      case Pop(r) => MoveKeepsBound(s, t, r, t.readers[r]);
      case TimeOut(r) => MoveKeepsBound(s, t, r, t.readers[r]);
      case Append(r) => MoveKeepsBound(s, t, r, t.readers[r]);
      case Leave(r) => MoveKeepsBound(s, t, r, t.readers[r]);
      case AddReader => LastReader(t.readers, s.readers);
      case StopLast => PastSame(s.readers, t.readers);
      case Close => PastSame(s.readers, t.readers);
      case RemoveLast => LastReader(s.readers, t.readers);
      case Push(_, _) =>
      case SetBufSize(_) =>
      case PullOne =>
    }
  }

  lemma LastReader(more: seq<Reader>, readers: seq<Reader>)
    requires more != [] && more[..|more| - 1] == readers
    ensures PastCheck(more) == PastCheck(readers) + Past(more[|more| - 1].phase)
  {
  }

  // ---- Every run ------------------------------------------------------------------------------------------

  ghost predicate Reaches(s: State, steps: seq<Step>, t: State)
    requires Sized(s)
    decreases |steps|
  {
    if steps == [] then t == s
    else Enabled(s, steps[0]) && Reaches(Do(s, steps[0]), steps[1..], t)
  }

  /** A puller just made: nothing pushed yet, buffer size 1, one reader per partition. */
  function Start(partitions: nat, readers: nat): (s: State)
    requires readers <= partitions
    ensures Sized(s)
  {
    State(seq(partitions, _ => []), seq(readers, _ => Reader(true, Waiting)), [], 1, seq(partitions, _ => []), [], 1, readers)
  }

  lemma {:induction false} NonePast(readers: seq<Reader>)
    requires forall r :: 0 <= r < |readers| ==> readers[r].phase.Waiting?
    ensures PastCheck(readers) == 0
  {
    if readers != [] {
      NonePast(readers[..|readers| - 1]);
    }
  }

  lemma StartIsGood(partitions: nat, readers: nat)
    requires readers <= partitions
    ensures Kept(Start(partitions, readers)) && Bounded(Start(partitions, readers))
  {
    NonePast(Start(partitions, readers).readers);
  }

  /** Under all interleavings of pushes, readers, resizing, pulls and closing: nothing is lost or
    * duplicated, each partition keeps its order, and the buffer never holds more than the largest
    * size ever set, less one, plus the largest number of readers. */
  lemma {:induction false} EveryRun(s: State, steps: seq<Step>, t: State)
    requires Sized(s) && Kept(s) && Bounded(s) && Reaches(s, steps, t)
    ensures Sized(t) && Kept(t) && Bounded(t) && |t.queued| == |s.queued|
    ensures |t.buf| <= t.maxSize - 1 + t.maxReaders
    decreases |steps|
  {
    if steps != [] {
      var next := Do(s, steps[0]);
      forall p | 0 <= p < |s.queued| ensures |next.queued| == |s.queued| && KeptAt(next, p) {
        StepKeepsAt(s, steps[0], p);
      }
      assert |next.queued| == |s.queued|;
      StepKeepsBound(s, steps[0]);
      EveryRun(next, steps[1..], t);
    }
  }

  // ---- Closing --------------------------------------------------------------------------------------------

  lemma Then(s: State, step: Step, steps: seq<Step>, t: State)
    requires Sized(s) && Enabled(s, step) && Reaches(Do(s, step), steps, t)
    ensures Reaches(s, [step] + steps, t)
  {
    assert ([step] + steps)[1..] == steps;
  }

  /** No reader is told to go on, and the first `k` have ended. */
  predicate Closing(s: State, k: nat) {
    && (forall r :: 0 <= r < |s.readers| ==> !s.readers[r].alive)
    && k <= |s.readers| && forall r :: 0 <= r < k ==> s.readers[r].phase.Exited?
  }

  predicate SameQueues(t: State, s: State) {
    t.queued == s.queued && t.pushed == s.pushed
  }

  /** A reader told to stop, whatever it is doing, can end its last round: an item in its hand goes to
    * the buffer. */
  lemma ReaderEnds(s: State, r: nat) returns (steps: seq<Step>, t: State)
    requires Sized(s) && Closing(s, r) && r < |s.readers|
    ensures Reaches(s, steps, t) && Sized(t) && Closing(t, r + 1) && SameQueues(t, s) && |t.readers| == |s.readers|
  {
    steps, t := [], s;
    if s.readers[r].phase.Exited? {
      return;
    }
    if s.readers[r].phase.Polling? {
      t := Do(s, TimeOut(r));
    } else if s.readers[r].phase.Holding? {
      t := Do(s, Append(r));
    }
    var m := t;
    t := Do(m, Leave(r));
    steps := [Leave(r)];
    Then(m, Leave(r), [], t);
    if s.readers[r].phase.Polling? {
      Then(s, TimeOut(r), steps, t);
      steps := [TimeOut(r)] + steps;
    } else if s.readers[r].phase.Holding? {
      Then(s, Append(r), steps, t);
      steps := [Append(r)] + steps;
    }
  }

  lemma {:induction false} RunOn(s: State, a: seq<Step>, m: State, b: seq<Step>, t: State)
    requires Sized(s) && Reaches(s, a, m)
    requires Sized(m) ==> Reaches(m, b, t)
    ensures Sized(m) && Reaches(s, a + b, t)
    decreases |a|
  {
    if a == [] {
      assert a + b == b;
    } else {
      RunOn(Do(s, a[0]), a[1..], m, b, t);
      hide Enabled, Do, Reaches, Sized;
      Then(s, a[0], a[1..] + b, t);
      assert [a[0]] + (a[1..] + b) == a + b;
    }
  }

  /** So can all that are left. */
  lemma {:induction false} ReadersEnd(s: State, k: nat) returns (steps: seq<Step>, t: State)
    requires Sized(s) && Closing(s, k)
    ensures Reaches(s, steps, t) && Sized(t) && Closing(t, |t.readers|) && SameQueues(t, s)
    decreases |s.readers| - k
  {
    steps, t := [], s;
    if k < |s.readers| {
      hide Reaches;
      var a, m := ReaderEnds(s, k);
      var b;
      b, t := ReadersEnd(m, k + 1);
      RunOn(s, a, m, b, t);
      steps := a + b;
    }
  }

  /** The caller takes what is in the buffer. */
  lemma {:induction false} PullAll(s: State) returns (steps: seq<Step>, t: State)
    requires Sized(s)
    ensures Reaches(s, steps, t) && Sized(t) && t.readers == s.readers && t.buf == [] && SameQueues(t, s)
    decreases |s.buf|
  {
    steps, t := [], s;
    if s.buf != [] {
      var b;
      b, t := PullAll(Do(s, PullOne));
      Then(s, PullOne, b, t);
      steps := [PullOne] + b;
    }
  }

  /** Nothing is lost on closing. From every state, closing leads to the end of all readers, and pulling
    * then to an empty buffer; the queues stay as they are, and whatever has left them has been
    * returned to the caller. */
  lemma NothingLostOnClose(s: State) returns (steps: seq<Step>, t: State)
    requires Sized(s) && Kept(s) && Bounded(s)
    ensures Reaches(s, [Close] + steps, t) && Sized(t) && SameQueues(t, s)
    ensures (forall r :: 0 <= r < |t.readers| ==> t.readers[r].phase.Exited?) && t.buf == []
    ensures forall p :: 0 <= p < |s.queued| ==> s.pushed[p] == Of(t.pulled, p) + s.queued[p]
  {
    hide Kept, Bounded, Of, Reaches;
    var closed := Do(s, Close);
    var a, m := ReadersEnd(closed, 0);
    var b;
    b, t := PullAll(m);
    RunOn(closed, a, m, b, t);
    steps := a + b;
    Then(s, Close, steps, t);
    EveryRun(s, [Close] + steps, t);
    forall p | 0 <= p < |s.queued| ensures s.pushed[p] == Of(t.pulled, p) + s.queued[p] {
      AllReturned(t, p);
    }
  }

  lemma AllReturned(s: State, p: nat)
    requires Sized(s) && Kept(s) && p < |s.queued|
    requires (forall r :: 0 <= r < |s.readers| ==> s.readers[r].phase.Exited?) && s.buf == []
    ensures s.pushed[p] == Of(s.pulled, p) + s.queued[p]
  {
    assert KeptAt(s, p);
  }

  // ---- The bound is sharp ---------------------------------------------------------------------------------

  /** All readers are waiting and the buffer is not to grow beyond `m`. */
  predicate Ready(s: State, n: nat, m: nat) {
    && Sized(s) && n == |s.readers| == s.maxReaders && m == s.bufSize == s.maxSize
    && forall r :: 0 <= r < n ==> s.readers[r] == Reader(true, Waiting)
  }

  /** One push and one whole round of the first reader. */
  lemma FillOne(s: State, n: nat, m: nat, x: Data) returns (steps: seq<Step>, t: State)
    requires Ready(s, n, m) && n > 0 && |s.buf| < m
    ensures Reaches(s, steps, t) && Ready(t, n, m) && |t.buf| == |s.buf| + 1
  {
    var a := Do(s, Push(0, x));
    var b := Do(a, Check(0));
    var c := Do(b, Pop(0));
    t := Do(c, Append(0));
    Then(c, Append(0), [], t);
    Then(b, Pop(0), [Append(0)] + [], t);
    Then(a, Check(0), [Pop(0)] + ([Append(0)] + []), t);
    steps := [Check(0)] + ([Pop(0)] + ([Append(0)] + []));
    Then(s, Push(0, x), steps, t);
    steps := [Push(0, x)] + steps;
  }

  lemma {:induction false} FillUp(s: State, n: nat, m: nat, x: Data) returns (steps: seq<Step>, t: State)
    requires Ready(s, n, m) && n > 0 && |s.buf| < m
    ensures Reaches(s, steps, t) && Ready(t, n, m) && |t.buf| == m - 1
    decreases m - |s.buf|
  {
    steps, t := [], s;
    if |s.buf| < m - 1 {
      hide Ready, Reaches;
      var a, c := FillOne(s, n, m, x);
      ReadySized(s, n, m);
      var b;
      b, t := FillUp(c, n, m, x);
      RunOn(s, a, c, b, t);
      steps := a + b;
    }
  }

  lemma ReadySized(s: State, n: nat, m: nat)
    requires Ready(s, n, m)
    ensures Sized(s)
  {
  }

  /** The first `k` readers have passed the check, the others are waiting. */
  predicate Passed(s: State, n: nat, m: nat, k: nat) {
    && Sized(s) && n == |s.readers| == s.maxReaders && m == s.bufSize == s.maxSize && k <= n
    && forall r :: 0 <= r < n ==> s.readers[r] == Reader(true, if r < k then Polling else Waiting)
  }

  lemma {:induction false} AllPass(s: State, n: nat, m: nat, k: nat) returns (steps: seq<Step>, t: State)
    requires Passed(s, n, m, k) && |s.buf| < m
    ensures Reaches(s, steps, t) && Passed(t, n, m, n) && t.buf == s.buf
    decreases n - k
  {
    steps, t := [], s;
    if k < n {
      var b;
      b, t := AllPass(Do(s, Check(k)), n, m, k + 1);
      Then(s, Check(k), b, t);
      steps := [Check(k)] + b;
    }
  }

  /** The readers from `k` on have passed the check and have yet to append. */
  predicate Appending(s: State, n: nat, m: nat, k: nat) {
    && Sized(s) && n == |s.readers| == s.maxReaders && m == s.maxSize && k <= n
    && forall r :: k <= r < n ==> s.readers[r].phase.Polling?
  }

  /** Each of them gets an item and appends it. */
  lemma {:induction false} AllAppend(s: State, n: nat, m: nat, k: nat, x: Data) returns (steps: seq<Step>, t: State)
    requires Appending(s, n, m, k)
    ensures Reaches(s, steps, t) && Sized(t)
    ensures |t.buf| == |s.buf| + n - k && t.maxSize == m && t.maxReaders == n && |t.readers| == n
    decreases n - k
  {
    steps, t := [], s;
    if k < n {
      var a := Do(s, Push(k, x));
      var b := Do(a, Pop(k));
      var c;
      c, t := AllAppend(Do(b, Append(k)), n, m, k + 1, x);
      Then(b, Append(k), c, t);
      Then(a, Pop(k), [Append(k)] + c, t);
      Then(s, Push(k, x), [Pop(k)] + ([Append(k)] + c), t);
      steps := [Push(k, x)] + ([Pop(k)] + ([Append(k)] + c));
    }
  }

  /** The bound cannot be improved: for every size set and every number of readers, a run from a fresh
    * start leads to a buffer of exactly as many items as the bound allows. */
  lemma BoundIsReached(n: nat, m: nat, x: Data) returns (steps: seq<Step>, t: State)
    requires n > 0 && m > 0
    ensures Reaches(Start(n, n), steps, t) && Sized(t)
    ensures t.maxSize == m && t.maxReaders == |t.readers| == n && |t.buf| == m - 1 + n
  {
    hide Reaches;
    var s := Start(n, n);
    var resized := Do(s, SetBufSize(m));
    var a, b := FillUp(resized, n, m, x);
    var c, d := AllPass(b, n, m, 0);
    RunOn(resized, a, b, c, d);
    var e;
    e, t := AllAppend(d, n, m, 0, x);
    RunOn(resized, a + c, d, e, t);
    Then(s, SetBufSize(m), a + c + e, t);
    steps := [SetBufSize(m)] + (a + c + e);
  }

  // ---- The pusher -----------------------------------------------------------------------------------------------

  /** Partitions chosen for a topic since its number of partitions was last looked up. */
  predicate Balanced(loads: seq<nat>) {
    forall p, q :: 0 <= p < |loads| && 0 <= q < |loads| ==> loads[p] <= loads[q] + 1
  }

  /** After some full rounds, the partitions before `idx` have had one item more. */
  predicate RoundRobin(loads: seq<nat>, idx: nat) {
    && idx < |loads|
    && forall p :: 0 <= p < |loads| ==> loads[p] == loads[|loads| - 1] + if p < idx then 1 else 0
  }

  lemma TurnIsThere(loads: seq<nat>, idx: nat)
    requires RoundRobin(loads, idx)
    ensures idx < |loads|
  {
  }

  lemma NextInTurn(loads: seq<nat>, idx: nat)
    requires RoundRobin(loads, idx)
    ensures RoundRobin(loads[idx := loads[idx] + 1], (idx + 1) % |loads|)
    ensures Balanced(loads)
  {
    assert (idx + 1) % |loads| == if idx + 1 == |loads| then 0 else idx + 1;
  }

  function Zeros(n: nat): (r: seq<nat>)
    ensures |r| == n
  {
    seq(n, _ => 0)
  }

  lemma FromZero(n: nat)
    requires n > 0
    ensures RoundRobin(Zeros(n), 0)
  {
  }

  class Pusher {
    const period: real
    var partitions: map<string, nat>
    var idx: map<string, nat>
    var timestamp: map<string, real>
    var sent: seq<(string, nat, Data)>
    ghost var loads: map<string, seq<nat>>

    /** A topic with a time stamp is in the other two dictionaries as well, and is served in turn. */
    ghost predicate Valid()
      reads this
    {
      forall t :: t in timestamp ==>
        t in partitions && t in idx && t in loads && |loads[t]| == partitions[t] > 0 && RoundRobin(loads[t], idx[t])
    }

    constructor (period: real)
      ensures Valid() && sent == [] && this.period == period
    {
      this.period := period;
      partitions, idx, timestamp, sent, loads := map[], map[], map[], [], map[];
    }

    /** Looks up how many partitions the topic has and starts with the first one again. */
    method Refresh(topic: string, stored: nat, now: real)
      requires Valid() && stored > 0
      modifies this`partitions, this`idx, this`timestamp, this`loads
      ensures Valid()
      ensures partitions == old(partitions)[topic := stored] && idx == old(idx)[topic := 0]
      ensures timestamp == old(timestamp)[topic := now] && loads == old(loads)[topic := Zeros(stored)]
    {
      hide RoundRobin, Zeros;
      FromZero(stored);
      partitions, idx, timestamp := partitions[topic := stored], idx[topic := 0], timestamp[topic := now];
      loads := loads[topic := Zeros(stored)];
    }

    /** Takes the partition whose turn it is. */
    method Choose(topic: string) returns (chosen: nat)
      requires Valid() && topic in timestamp
      modifies this`idx, this`loads
      ensures Valid() && chosen == old(idx)[topic] && chosen < |old(loads)[topic]|
      ensures loads == old(loads)[topic := old(loads)[topic][chosen := old(loads)[topic][chosen] + 1]]
      ensures Balanced(loads[topic])
    {
      hide RoundRobin, Balanced;
      chosen := idx[topic];
      TurnIsThere(loads[topic], chosen);
      NextInTurn(loads[topic], chosen);
      idx := idx[topic := (chosen + 1) % partitions[topic]];
      loads := loads[topic := loads[topic][chosen := loads[topic][chosen] + 1]];
      NextInTurn(loads[topic], idx[topic]);
    }

    /** One item goes to the partition whose turn it is; between two look-ups no two partitions'
      * loads ever differ by more than one. */
    method Push(topic: string, data: Data, stored: nat, checked: real, refreshed: real)
      requires Valid() && stored > 0
      modifies this
      ensures Valid() && topic in loads && Balanced(loads[topic])
      ensures var due := topic !in old(timestamp) || checked - old(timestamp)[topic] > period;
              var before := if due then Zeros(stored) else old(loads)[topic];
              var chosen := if due then 0 else old(idx)[topic];
              && chosen < |before| && sent == old(sent) + [(topic, chosen, data)]
              && loads == old(loads)[topic := before[chosen := before[chosen] + 1]]
              && timestamp == if due then old(timestamp)[topic := refreshed] else old(timestamp)
    {
      hide RoundRobin, Balanced, Zeros;
      if topic !in timestamp || checked - timestamp[topic] > period {
        Refresh(topic, stored, refreshed);
      }
      var chosen := Choose(topic);
      sent := sent + [(topic, chosen, data)];
    }
  }
}
