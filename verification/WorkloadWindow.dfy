/** Frame rates reported per workload over a sliding window of time, and the messages made of them. */
module WorkloadWindow {
  import opened Ids
  import opened Options
  import opened Sums

  /** A report as it was received. */
  datatype Report = Report(time: real, fps: real)
  datatype Message = Message(pipeline: string, session: string, fps: real)

  /** Readings of a clock that never goes back. */
  ghost predicate Steady(clock: nat -> real) {
    forall i: nat, j: nat :: i <= j ==> clock(i) <= clock(j)
  }

  lemma NotBack(clock: nat -> real, i: nat, j: nat)
    requires Steady(clock) && i <= j
    ensures clock(i) <= clock(j)
  {
  }

  // ---- The window as a filter of the history ----------------------------------------------------

  /** The reports younger than the timeout. */
  function Young(history: seq<Report>, now: real, timeout: real): seq<Report> {
    if history == [] then []
    else
      var rest, r := Young(history[..|history| - 1], now, timeout), history[|history| - 1];
      if now - r.time < timeout then rest + [r] else rest
  }

  predicate Ordered(history: seq<Report>) {
    forall i, j :: 0 <= i < j < |history| ==> history[i].time <= history[j].time
  }

  predicate Expired(history: seq<Report>, n: nat, now: real, timeout: real)
    requires n <= |history|
  {
    forall i :: 0 <= i < n ==> now - history[i].time >= timeout
  }

  lemma {:induction false} YoungIsSuffix(history: seq<Report>, n: nat, now: real, timeout: real)
    requires Ordered(history) && n <= |history| && Expired(history, n, now, timeout)
    requires n < |history| ==> now - history[n].time < timeout
    ensures Young(history, now, timeout) == history[n..]
  {
    if history != [] {
      var init := history[..|history| - 1];
      assert history == init + [history[|history| - 1]];
      assert forall i :: 0 <= i < |init| ==> init[i] == history[i];
      if n == |history| {
        NoneYoung(init, now, timeout);
      } else if n < |init| {
        YoungIsSuffix(init, n, now, timeout);
        assert history[n].time <= history[|history| - 1].time;
        assert init[n..] + [history[|history| - 1]] == history[n..];
      } else {
        NoneYoung(init, now, timeout);
      }
    }
  }

  lemma {:induction false} NoneYoung(history: seq<Report>, now: real, timeout: real)
    requires Expired(history, |history|, now, timeout)
    ensures Young(history, now, timeout) == []
  {
    if history != [] {
      NoneYoung(history[..|history| - 1], now, timeout);
    }
  }

  function Times(reports: seq<Report>): (r: seq<real>)
    ensures |r| == |reports|
  {
    seq(|reports|, i requires 0 <= i < |reports| => reports[i].time)
  }

  function Rates(reports: seq<Report>): (r: seq<real>)
    ensures |r| == |reports|
  {
    seq(|reports|, i requires 0 <= i < |reports| => reports[i].fps)
  }

  /** A sum over the age of the oldest report, at least one second. */
  function RateAt(sum: real, oldest: real, now: real): real {
    var age := now - oldest;
    sum / (if age > 1.0 then age else 1.0)
  }

  /** The rate a window stands for: the sum over the age of its oldest report, at least one second. */
  function WindowRate(window: seq<Report>, now: real): real
    requires window != []
  {
    RateAt(Total(Rates(window)), window[0].time, now)
  }

  /** The two lists are the end of the history; all before it has expired. */
  ghost predicate Window(h: seq<Report>, rates: seq<real>, times: seq<real>, now: real, timeout: real) {
    && |rates| == |times| <= |h|
    && Ordered(h)
    && (forall i :: 0 <= i < |h| ==> h[i].time <= now)
    && Expired(h, |h| - |times|, now, timeout)
    && rates == Rates(h[|h| - |times|..])
    && times == Times(h[|h| - |times|..])
  }

  lemma WindowLater(h: seq<Report>, rates: seq<real>, times: seq<real>, now: real, later: real, timeout: real)
    requires Window(h, rates, times, now, timeout) && now <= later
    ensures Window(h, rates, times, later, timeout)
  {
  }

  lemma WindowPop(h: seq<Report>, rates: seq<real>, times: seq<real>, now: real, timeout: real)
    requires Window(h, rates, times, now, timeout) && times != [] && now - times[0] >= timeout
    ensures Window(h, rates[1..], times[1..], now, timeout)
  {
    var n := |h| - |times|;
    assert h[n..][1..] == h[n + 1..];
    assert times[0] == h[n].time;
  }

  lemma WindowAppend(h: seq<Report>, rates: seq<real>, times: seq<real>, now: real, timeout: real, fps: real)
    requires Window(h, rates, times, now, timeout)
    ensures Window(h + [Report(now, fps)], rates + [fps], times + [now], now, timeout)
  {
    var n, r := |h| - |times|, Report(now, fps);
    assert (h + [r])[n..] == h[n..] + [r];
    assert Rates(h[n..] + [r]) == Rates(h[n..]) + [fps];
    assert Times(h[n..] + [r]) == Times(h[n..]) + [now];
  }

  lemma WindowIsYoung(h: seq<Report>, rates: seq<real>, times: seq<real>, now: real, timeout: real)
    requires Window(h, rates, times, now, timeout) && (times != [] ==> now - times[0] < timeout)
    ensures rates == Rates(Young(h, now, timeout)) && times == Times(Young(h, now, timeout))
    ensures times == [] <==> Young(h, now, timeout) == []
  {
    var n := |h| - |times|;
    if times != [] {
      assert times[0] == h[n].time;
    }
    YoungIsSuffix(h, n, now, timeout);
  }

  function Get<T>(m: map<string, seq<T>>, u: string): seq<T> {
    if u in m then m[u] else []
  }

  ghost predicate AllWindows(hs: map<string, seq<Report>>, rates: map<string, seq<real>>, times: map<string, seq<real>>,
                             now: real, timeout: real) {
    forall u: string :: Window(Get(hs, u), Get(rates, u), Get(times, u), now, timeout)
  }

  lemma AllLater(hs: map<string, seq<Report>>, rates: map<string, seq<real>>, times: map<string, seq<real>>, now: real,
                 later: real, timeout: real)
    requires AllWindows(hs, rates, times, now, timeout) && now <= later
    ensures AllWindows(hs, rates, times, later, timeout)
  {
    hide Window;
    forall u: string ensures Window(Get(hs, u), Get(rates, u), Get(times, u), later, timeout) {
      WindowLater(Get(hs, u), Get(rates, u), Get(times, u), now, later, timeout);
    }
  }

  /** One workload's lists and history change together, the others do not. */
  lemma AllBut(hs: map<string, seq<Report>>, rates: map<string, seq<real>>, times: map<string, seq<real>>,
               hs': map<string, seq<Report>>, rates': map<string, seq<real>>, times': map<string, seq<real>>, u: string,
               now: real, timeout: real)
    requires AllWindows(hs, rates, times, now, timeout)
    requires Window(Get(hs', u), Get(rates', u), Get(times', u), now, timeout)
    requires forall x :: x != u ==> Get(hs', x) == Get(hs, x) && Get(rates', x) == Get(rates, x) && Get(times', x) == Get(times, x)
    ensures AllWindows(hs', rates', times', now, timeout)
  {
    hide Window;
    forall x: string ensures Window(Get(hs', x), Get(rates', x), Get(times', x), now, timeout) {
      if x != u {
        assert Window(Get(hs, x), Get(rates, x), Get(times, x), now, timeout);
      }
    }
  }

  class WorkloadPolicy {
    const timeout: real
    const clock: nat -> real
    var tick: nat
    var throughput: map<string, seq<real>>
    var timestamps: map<string, seq<real>>
    var pinned: map<string, real>
    ghost var history: map<string, seq<Report>>

    ghost predicate Valid()
      reads this
    {
      && Steady(clock)
      && timeout > 0.0
      && (forall u :: u in throughput <==> u in timestamps)
      && (forall u :: u in timestamps ==> timestamps[u] != [])
      && AllWindows(history, throughput, timestamps, clock(tick), timeout)
    }

    constructor (timeout: real, clock: nat -> real)
      requires Steady(clock) && timeout > 0.0
      ensures Valid() && history == map[] && pinned == map[] && throughput == map[]
    {
      this.timeout, this.clock := timeout, clock;
      tick, throughput, timestamps, pinned, history := 0, map[], map[], map[], map[];
    }

    /** Each look at the clock gives the next reading. */
    method Now() returns (now: real)
      requires Valid()
      modifies this`tick
      ensures Valid() && now == clock(old(tick)) && tick == old(tick) + 1 && now <= clock(tick)
    {
      hide AllWindows, Steady;
      NotBack(clock, tick, tick + 1);
      now := clock(tick);
      tick := tick + 1;
      AllLater(history, throughput, timestamps, now, clock(tick), timeout);
    }

    /** Adds to both lists of a workload and to its history. */
    method Append(u: string, fps: real, now: real)
      requires Valid() && now == clock(tick) && (u in throughput <==> u in timestamps)
      modifies this`throughput, this`timestamps, this`history
      ensures Valid()
      ensures history == old(history)[u := Get(old(history), u) + [Report(now, fps)]]
      ensures throughput == old(throughput)[u := Get(old(throughput), u) + [fps]]
      ensures timestamps == old(timestamps)[u := Get(old(timestamps), u) + [now]]
    {
      hide Window, AllWindows, Steady;
      WindowHere(u);
      WindowAppend(Get(history, u), Get(throughput, u), Get(timestamps, u), now, timeout, fps);
      history := history[u := Get(history, u) + [Report(now, fps)]];
      var rates: seq<real>, times: seq<real> := [], [];
      if u in throughput {
        rates, times := throughput[u], timestamps[u];
      }
      throughput, timestamps := throughput[u := rates + [fps]], timestamps[u := times + [now]];
      AllBut(old(history), old(throughput), old(timestamps), history, throughput, timestamps, u, now, timeout);
    }

    /** A report is added under its workload's key; other workloads are left alone. */
    method AddWorkload(pipeline: string, session: string, fps: real) returns (isNew: bool)
      requires Valid()
      modifies this`tick, this`throughput, this`timestamps, this`history
      ensures Valid()
      ensures var u, now := Key(pipeline, session), clock(old(tick));
              && (isNew <==> u !in old(throughput))
              && history == old(history)[u := Get(old(history), u) + [Report(now, fps)]]
              && throughput == old(throughput)[u := Get(old(throughput), u) + [fps]]
    {
      hide Window, Key, AllWindows, Steady;
      var u := Key(pipeline, session);
      isNew := u !in throughput;
      Append(u, fps, clock(tick));
      var now := Now();
    }

    lemma WindowHere(u: string)
      requires Valid()
      ensures Window(Get(history, u), Get(throughput, u), Get(timestamps, u), clock(tick), timeout)
    {
    }

    /** Pops reports off the front of both lists while they are too old, looking at the clock for
      * each. After the last look the lists are the filter of the whole history at that moment. */
    method Prune(rates0: seq<real>, times0: seq<real>, ghost h: seq<Report>)
      returns (rates: seq<real>, times: seq<real>, ghost reading: real)
      requires Valid() && Window(h, rates0, times0, clock(tick), timeout)
      modifies this`tick
      ensures Valid() && old(tick) <= tick && clock(old(tick)) <= reading <= clock(tick)
      ensures rates == Rates(Young(h, reading, timeout)) && times == Times(Young(h, reading, timeout))
      ensures Window(h, rates, times, reading, timeout)
    {
      hide Window, Young, AllWindows, Steady;
      rates, times := rates0, times0;
      reading := clock(tick);
      SameLength(h, rates, times, reading);
      var done := false;
      while !done && times != []
        invariant Valid() && |rates| == |times| && old(tick) <= tick
        invariant clock(old(tick)) <= reading <= clock(tick)
        invariant Window(h, rates, times, reading, timeout)
        invariant done ==> times != [] && reading - times[0] < timeout
        decreases |times|, if done then 0 else 1
      {
        WindowLater(h, rates, times, reading, clock(tick), timeout);
        reading := clock(tick);
        var now := Now();
        if now - times[0] < timeout {
          done := true;
        } else {
          WindowPop(h, rates, times, now, timeout);
          rates, times := rates[1..], times[1..];
          SameLength(h, rates, times, reading);
        }
      }
      WindowIsYoung(h, rates, times, reading, timeout);
    }

    lemma SameLength(h: seq<Report>, rates: seq<real>, times: seq<real>, now: real)
      requires Window(h, rates, times, now, timeout)
      ensures |rates| == |times|
    {
    }

    /** `_remove_expired` for one workload; its key goes when nothing is left. */
    method RemoveExpiredOf(u: string) returns (ghost reading: real)
      requires Valid() && u in throughput
      modifies this`tick, this`throughput, this`timestamps
      ensures Valid() && old(tick) <= tick && clock(old(tick)) <= reading <= clock(tick)
      ensures PrunedAt(Get(history, u), throughput, timestamps, u, reading, timeout)
      ensures throughput - {u} == old(throughput) - {u} && timestamps - {u} == old(timestamps) - {u}
    {
      hide Window, Young, AllWindows;
      var rates, times;
      WindowHere(u);
      rates, times, reading := Prune(throughput[u], timestamps[u], Get(history, u));
      WindowLater(Get(history, u), rates, times, reading, clock(tick), timeout);
      SameLength(Get(history, u), rates, times, reading);
      ghost var thr, ts := throughput, timestamps;
      if rates == [] {
        throughput, timestamps := throughput - {u}, timestamps - {u};
      } else {
        throughput, timestamps := throughput[u := rates], timestamps[u := times];
      }
      AllBut(history, thr, ts, history, throughput, timestamps, u, clock(tick), timeout);
    }

    // ---- All workloads, and the messages ---------------------------------------------------------

    lemma LaterReading(i: nat, j: nat)
      requires Valid() && i <= j
      ensures clock(i) <= clock(j)
    {
      NotBack(clock, i, j);
    }

    /** After pruning, every workload that was known has exactly its window as it was at some moment
      * of the call; a key is there exactly if that window is not empty. */
    method RemoveExpired() returns (ghost readings: map<string, real>)
      requires Valid()
      modifies this`tick, this`throughput, this`timestamps
      ensures Valid() && old(tick) <= tick && throughput.Keys <= old(throughput.Keys) == readings.Keys
      ensures AllPruned(history, throughput, timestamps, readings, clock(old(tick)), clock(tick), timeout)
    {
      hide Valid, AllPruned, PrunedAt, Get;
      readings := map[];
      NonePruned(history, throughput, timestamps, clock(tick), timeout);
      var todo := throughput.Keys;
      while todo != {}
        invariant Valid() && old(tick) <= tick
        invariant todo <= throughput.Keys <= old(throughput.Keys)
        invariant readings.Keys == old(throughput.Keys) - todo
        invariant AllPruned(history, throughput, timestamps, readings, clock(old(tick)), clock(tick), timeout)
        decreases |todo|
      {
        var u :| u in todo;
        ghost var thr, ts, at := throughput, timestamps, tick;
        ghost var reading := RemoveExpiredOf(u);
        LaterReading(old(tick), at);
        LaterReading(at, tick);
        OneMorePruned(history, thr, ts, throughput, timestamps, readings, u, reading, clock(old(tick)), clock(at), clock(tick), timeout);
        OthersStay(thr, throughput, u);
        todo := todo - {u};
        readings := readings[u := reading];
      }
    }

    // ---- The messages ------------------------------------------------------------------------------------

    /** The rate of every workload with a window whose reported rates add up to something. The windows
      * are those of the whole histories as they were at some moment of the call, and the ages are
      * taken at a later moment of the call. */
    method GetWorkloads() returns (data: map<string, real>, ghost readings: map<string, real>, ghost times: map<string, real>)
      requires Valid()
      modifies this`tick, this`throughput, this`timestamps
      ensures Valid() && old(tick) <= tick && throughput.Keys <= old(throughput.Keys)
      ensures TakenWithin(readings, times, history.Keys, clock(old(tick)), clock(tick))
      ensures forall u :: u in history ==> PrunedAt(history[u], throughput, timestamps, u, readings[u], timeout)
      ensures forall u :: u in data ==> u in history
      ensures forall u :: u in history ==> (u in data <==> Live(history[u], readings[u], timeout))
      ensures forall u :: u in history ==> RateIn(data, u) == WindowFps(history[u], readings[u], times[u], timeout)
    {
      hide Window, AllWindows, Steady, AllPruned, Total, ListRate, Young, PrunedAt, Live, WindowFps;
      ghost var first, thr := clock(tick), throughput;
      KnownHaveHistory();
      IdleAreOld();
      ghost var pruned := RemoveExpired();
      ghost var at := tick;
      PrunedKnown(history, throughput, timestamps, pruned, first, clock(at), timeout);
      ghost var taken;
      data, taken := ComputeRates();
      NotBack(clock, at, tick);
      NotBack(clock, old(tick), at);
      readings, times := Filled(pruned, history.Keys, first), Filled(taken, history.Keys, clock(at));
      forall u | u in history ensures PrunedAt(history[u], throughput, timestamps, u, readings[u], timeout) {
        if u !in pruned {
          NeverThere(history[u], throughput, timestamps, u, first, timeout);
        }
      }
      RatesAreWindowFps(history, throughput, timestamps, readings, times, data, timeout);
    }

    /** Who has reported has a history; who has not, or not lately, has an empty window. */
    lemma KnownHaveHistory()
      requires Valid()
      ensures throughput.Keys <= history.Keys
    {
      forall u | u in throughput ensures u in history {
        WindowHere(u);
      }
    }

    lemma IdleAreOld()
      requires Valid()
      ensures forall u :: u in history && u !in throughput ==> Young(history[u], clock(tick), timeout) == []
    {
      forall u | u in history && u !in throughput ensures Young(history[u], clock(tick), timeout) == [] {
        WindowHere(u);
        WindowIsYoung(history[u], [], [], clock(tick), timeout);
      }
    }

    /** One look at the clock for each workload that has a rate. */
    method ComputeRates() returns (data: map<string, real>, ghost times: map<string, real>)
      requires Valid()
      modifies this`tick
      ensures Valid() && old(tick) <= tick && times.Keys == data.Keys
      ensures forall u :: u in times ==> clock(old(tick)) <= times[u] <= clock(tick)
      ensures forall u :: u in data <==> u in throughput && Total(throughput[u]) > 0.0
      ensures forall u :: u in data ==> u in timestamps && data[u] == ListRate(throughput[u], timestamps[u], times[u])
    {
      hide Window, AllWindows, Steady, Total, RateAt;
      data, times := map[], map[];
      var todo := throughput.Keys;
      while todo != {}
        invariant Valid() && old(tick) <= tick && todo <= throughput.Keys && times.Keys == data.Keys
        invariant forall u :: u in times ==> clock(old(tick)) <= times[u] <= clock(tick)
        invariant forall u :: u in data <==> u in throughput && u !in todo && Total(throughput[u]) > 0.0
        invariant forall u :: u in data ==> u in timestamps && data[u] == ListRate(throughput[u], timestamps[u], times[u])
        decreases |todo|
      {
        var u :| u in todo;
        var fps := AddUp(throughput[u]);
        if fps > 0.0 {
          NotBack(clock, old(tick), tick);
          NotBack(clock, tick, tick + 1);
          var now := Now();
          data := data[u := RateAt(fps, timestamps[u][0], now)];
          times := times[u := now];
        }
        todo := todo - {u};
      }
    }

    method AddUp(xs: seq<real>) returns (sum: real)
      ensures sum == Total(xs)
    {
      sum := 0.0;
      for i := 0 to |xs|
        invariant sum == Total(xs[..i])
      {
        assert xs[..i + 1][..i] == xs[..i];
        sum := sum + xs[i];
      }
      assert xs[..|xs|] == xs;
    }

    method Pin(pipeline: string, session: string, fps: real)
      modifies this`pinned
      ensures pinned == old(pinned)[Key(pipeline, session) := fps]
    {
      pinned := pinned[Key(pipeline, session) := fps];
    }

    method Unpin(pipeline: string, session: string)
      modifies this`pinned
      ensures pinned == old(pinned) - {Key(pipeline, session)}
    {
      pinned := pinned - {Key(pipeline, session)};
    }

    /** What is scheduled after a look at all histories: one message for each workload whose window adds
      * up to something or that is pinned, with the rate of that window, taken at that moment, plus
      * the pinned rate; an error if the key of one of them does not have two parts. */
    method GenerateSchedulingMessages()
      returns (messages: Option<seq<Message>>, ghost readings: map<string, real>, ghost times: map<string, real>)
      requires Valid()
      modifies this`tick, this`throughput, this`timestamps
      ensures Valid() && old(tick) <= tick && throughput.Keys <= old(throughput.Keys)
      ensures TakenWithin(readings, times, history.Keys, clock(old(tick)), clock(tick))
      ensures forall u :: u in history ==> PrunedAt(history[u], throughput, timestamps, u, readings[u], timeout)
      ensures messages.Some? <==> forall u: string :: Wanted(history, pinned, readings, timeout, u) ==> TwoParts(u)
      ensures messages.Some? ==> Scheduled(messages.value, history, pinned, readings, times, timeout)
    {
      hide AllWindows, Steady, Young, WindowFps, Live, TwoParts, MessageKey;
      var data;
      data, readings, times := GetWorkloads();
      messages := GenerateMessages(data);
      forall u: string ensures u in data || u in pinned <==> Wanted(history, pinned, readings, timeout, u) {
      }
      if messages.Some? {
        forall k | 0 <= k < |messages.value|
          ensures messages.value[k].fps == ScheduledFps(history, pinned, readings, times, timeout, MessageKey(messages.value[k]))
        {
          assert Named(messages.value, MessageKey(messages.value[k]));
        }
      }
    }

    /** One message per workload that has a rate or is pinned, with the sum of both, under the two
      * parts of its key; an error if a key does not have two parts. */
    method GenerateMessages(data: map<string, real>) returns (messages: Option<seq<Message>>)
      ensures messages.Some? <==> forall u :: u in data || u in pinned ==> TwoParts(u)
      ensures messages.Some? ==> Distinct(messages.value)
      ensures messages.Some? ==> forall u: string :: Named(messages.value, u) <==> u in data || u in pinned
      ensures messages.Some? ==>
                forall k :: 0 <= k < |messages.value| ==> messages.value[k].fps == RateOf(data, pinned, MessageKey(messages.value[k]))
    {
      hide TwoParts, MessageKey;
      var all := AddPinned(data);
      var made: seq<Message> := [];
      var todo := all.Keys;
      while todo != {}
        invariant todo <= all.Keys && Distinct(made)
        invariant forall u: string :: Named(made, u) <==> u in all && u !in todo
        invariant forall u :: u in all && u !in todo ==> TwoParts(u)
        invariant forall k :: 0 <= k < |made| ==> made[k].fps == RateOf(data, pinned, MessageKey(made[k]))
        decreases |todo|
      {
        var u :| u in todo;
        if !TwoParts(u) {
          return None;
        }
        var m := MakeMessage(u, all[u]);
        NameOneMore(made, m);
        made := made + [m];
        todo := todo - {u};
      }
      return Some(made);
    }

    method MakeMessage(u: string, fps: real) returns (m: Message)
      requires TwoParts(u)
      ensures MessageKey(m) == u && m.fps == fps
    {
      var parts := Split(u);
      m := Message(parts[0], parts[1], fps);
      PartsGiveKey(u);
    }

    method AddPinned(data: map<string, real>) returns (all: map<string, real>)
      ensures all.Keys == data.Keys + pinned.Keys
      ensures forall u :: u in all ==> all[u] == RateOf(data, pinned, u)
    {
      hide Added, RateOf;
      all := data;
      var todo := pinned.Keys;
      StartAdding(data, pinned);
      while todo != {}
        invariant todo <= pinned.Keys
        invariant Added(all, data, pinned, todo)
        decreases |todo|
      {
        var u :| u in todo;
        AddOne(all, data, pinned, todo, u);
        all := all[u := (if u in all then all[u] else 0.0) + pinned[u]];
        todo := todo - {u};
      }
      AllAdded(all, data, pinned);
    }
  }

  /** The rates once all pinned workloads but those still to do have been added. */
  ghost predicate Added(all: map<string, real>, data: map<string, real>, pinned: map<string, real>, todo: set<string>) {
    && (forall u :: u in all <==> u in data || (u in pinned && u !in todo))
    && forall u :: u in all ==> all[u] == if u in todo && u in data then data[u] else RateOf(data, pinned, u)
  }

  lemma StartAdding(data: map<string, real>, pinned: map<string, real>)
    ensures Added(data, data, pinned, pinned.Keys)
  {
  }

  lemma AllAdded(all: map<string, real>, data: map<string, real>, pinned: map<string, real>)
    requires Added(all, data, pinned, {})
    ensures all.Keys == data.Keys + pinned.Keys
    ensures forall u :: u in all ==> all[u] == RateOf(data, pinned, u)
  {
  }

  lemma AddOne(all: map<string, real>, data: map<string, real>, pinned: map<string, real>, todo: set<string>, u: string)
    requires Added(all, data, pinned, todo) && u in todo && u in pinned
    ensures Added(all[u := (if u in all then all[u] else 0.0) + pinned[u]], data, pinned, todo - {u})
  {
  }

  // ---- Pruning, on values ---------------------------------------------------------------------------------

  /** The lists of a workload are its window as it was when the clock read `reading`. */
  predicate PrunedAt(h: seq<Report>, thr: map<string, seq<real>>, ts: map<string, seq<real>>, u: string, reading: real, timeout: real) {
    && Get(thr, u) == Rates(Young(h, reading, timeout))
    && Get(ts, u) == Times(Young(h, reading, timeout))
    && (u in thr <==> Young(h, reading, timeout) != [])
  }

  predicate AllPruned(hs: map<string, seq<Report>>, thr: map<string, seq<real>>, ts: map<string, seq<real>>,
                      readings: map<string, real>, first: real, last: real, timeout: real) {
    forall u :: u in readings ==> first <= readings[u] <= last && PrunedAt(Get(hs, u), thr, ts, u, readings[u], timeout)
  }

  lemma NonePruned(hs: map<string, seq<Report>>, thr: map<string, seq<real>>, ts: map<string, seq<real>>, now: real, timeout: real)
    ensures AllPruned(hs, thr, ts, map[], now, now, timeout)
  {
  }

  lemma OthersStay(a: map<string, seq<real>>, b: map<string, seq<real>>, u: string)
    requires a - {u} == b - {u}
    ensures forall x :: x != u ==> Get(a, x) == Get(b, x) && (x in a <==> x in b)
  {
    forall x | x != u ensures Get(a, x) == Get(b, x) && (x in a <==> x in b) {
      assert x in a <==> x in a - {u};
      assert x in b <==> x in b - {u};
      if x in a {
        assert (a - {u})[x] == a[x] && (b - {u})[x] == b[x];
      }
    }
  }

  lemma OneMorePruned(hs: map<string, seq<Report>>, thr: map<string, seq<real>>, ts: map<string, seq<real>>,
                      thr': map<string, seq<real>>, ts': map<string, seq<real>>,
                      readings: map<string, real>, u: string, reading: real, first: real, at: real, last: real, timeout: real)
    requires AllPruned(hs, thr, ts, readings, first, at, timeout)
    requires first <= at <= reading <= last && thr' - {u} == thr - {u} && ts' - {u} == ts - {u} && u !in readings
    requires PrunedAt(Get(hs, u), thr', ts', u, reading, timeout)
    ensures AllPruned(hs, thr', ts', readings[u := reading], first, last, timeout)
  {
    OthersStay(thr, thr', u);
    OthersStay(ts, ts', u);
    hide Young, Get;
    forall x | x in readings ensures PrunedAt(Get(hs, x), thr', ts', x, readings[x], timeout) {
      assert PrunedAt(Get(hs, x), thr, ts, x, readings[x], timeout);
    }
  }

  /** The rate of a window from its two lists: the sum over the age of the first time, at least one. */
  function ListRate(rates: seq<real>, times: seq<real>, now: real): real
    requires times != []
  {
    RateAt(Total(rates), times[0], now)
  }

  lemma RateOfWindow(h: seq<Report>, thr: map<string, seq<real>>, ts: map<string, seq<real>>, u: string, reading: real,
                     now: real, timeout: real)
    requires PrunedAt(h, thr, ts, u, reading, timeout) && u in thr && u in ts
    ensures Young(h, reading, timeout) != [] && ts[u] != []
    ensures ListRate(thr[u], ts[u], now) == WindowRate(Young(h, reading, timeout), now)
  {
  }

  /** The reported rates of the window add up to something. */
  predicate Live(h: seq<Report>, reading: real, timeout: real) {
    Total(Rates(Young(h, reading, timeout))) > 0.0
  }

  /** The rate of the reports that were young at `reading`, when their age is taken at `now`. */
  function WindowFps(h: seq<Report>, reading: real, now: real, timeout: real): real {
    var window := Young(h, reading, timeout);
    if Live(h, reading, timeout) then WindowRate(window, now) else 0.0
  }

  /** What the rate of a workload is: the young reports are those from some position on, their reported rates add up
    * to the rate times the age of the oldest of them, which counts as at least one second, and there is no rate if
    * they add up to nothing. */
  lemma RateExact(h: seq<Report>, n: nat, reading: real, now: real, timeout: real)
    requires Ordered(h) && n <= |h| && Expired(h, n, reading, timeout)
    requires n < |h| ==> reading - h[n].time < timeout
    ensures var fps := seq(|h| - n, i requires 0 <= i < |h| - n => h[n + i].fps);
            && (Live(h, reading, timeout) <==> Total(fps) > 0.0)
            && (Live(h, reading, timeout) ==> n < |h|)
            && (Live(h, reading, timeout) && now - h[n].time >= 1.0 ==> WindowFps(h, reading, now, timeout) * (now - h[n].time) == Total(fps))
            && (Live(h, reading, timeout) && now - h[n].time <= 1.0 ==> WindowFps(h, reading, now, timeout) == Total(fps))
            && (!Live(h, reading, timeout) ==> WindowFps(h, reading, now, timeout) == 0.0)
  {
    hide RateAt, Young, Total;
    YoungIsSuffix(h, n, reading, timeout);
    var fps := seq(|h| - n, i requires 0 <= i < |h| - n => h[n + i].fps);
    assert Rates(h[n..]) == fps;
    TotalOne(0.0);
    if Live(h, reading, timeout) {
      assert n < |h|;
      assert WindowFps(h, reading, now, timeout) == RateAt(Total(fps), h[n].time, now);
      RateAtExact(Total(fps), h[n].time, now);
    }
  }

  lemma RateAtExact(sum: real, oldest: real, now: real)
    ensures now - oldest >= 1.0 ==> RateAt(sum, oldest, now) * (now - oldest) == sum
    ensures now - oldest <= 1.0 ==> RateAt(sum, oldest, now) == sum
  {
  }

  lemma RateIsWindowFps(h: seq<Report>, thr: map<string, seq<real>>, ts: map<string, seq<real>>, u: string, reading: real,
                        now: real, timeout: real)
    requires PrunedAt(h, thr, ts, u, reading, timeout) && (u in thr <==> u in ts)
    ensures Live(h, reading, timeout) <==> u in thr && Total(thr[u]) > 0.0
    ensures Live(h, reading, timeout) ==> ts[u] != [] && ListRate(thr[u], ts[u], now) == WindowFps(h, reading, now, timeout)
  {
    if u in thr {
      RateOfWindow(h, thr, ts, u, reading, now, timeout);
    } else {
      assert Rates([]) == [];
    }
  }

  ghost function Filled(m: map<string, real>, keys: set<string>, x: real): (r: map<string, real>)
    ensures r.Keys == keys && forall u :: u in keys ==> r[u] == if u in m then m[u] else x
  {
    map u | u in keys :: if u in m then m[u] else x
  }

  lemma NeverThere(h: seq<Report>, thr: map<string, seq<real>>, ts: map<string, seq<real>>, u: string, reading: real, timeout: real)
    requires Young(h, reading, timeout) == [] && u !in thr && u !in ts
    ensures PrunedAt(h, thr, ts, u, reading, timeout)
  {
    assert Rates([]) == [] && Times([]) == [];
  }

  function RateIn(data: map<string, real>, u: string): real {
    if u in data then data[u] else 0.0
  }

  lemma RatesAreWindowFps(hs: map<string, seq<Report>>, thr: map<string, seq<real>>, ts: map<string, seq<real>>,
                          readings: map<string, real>, times: map<string, real>, data: map<string, real>, timeout: real)
    requires readings.Keys == times.Keys == hs.Keys && forall u :: u in thr <==> u in ts
    requires forall u :: u in hs ==> PrunedAt(hs[u], thr, ts, u, readings[u], timeout)
    requires forall u :: u in ts ==> ts[u] != []
    requires forall u :: u in data <==> u in thr && Total(thr[u]) > 0.0
    requires forall u :: u in data ==> u in hs && data[u] == ListRate(thr[u], ts[u], times[u])
    ensures forall u :: u in hs ==> (u in data <==> Live(hs[u], readings[u], timeout))
    ensures forall u :: u in hs ==> RateIn(data, u) == WindowFps(hs[u], readings[u], times[u], timeout)
  {
    forall u | u in hs
      ensures u in data <==> Live(hs[u], readings[u], timeout)
      ensures RateIn(data, u) == WindowFps(hs[u], readings[u], times[u], timeout)
    {
      hide PrunedAt, Total, ListRate, Young;
      RateIsWindowFps(hs[u], thr, ts, u, readings[u], times[u], timeout);
    }
  }

  /** For every workload one moment at which its window was taken and a later one at which its age was
    * taken, both within the call. */
  predicate TakenWithin(readings: map<string, real>, times: map<string, real>, keys: set<string>, first: real, last: real) {
    && readings.Keys == times.Keys == keys
    && forall u :: u in keys ==> first <= readings[u] <= times[u] <= last
  }

  lemma PrunedKnown(hs: map<string, seq<Report>>, thr: map<string, seq<real>>, ts: map<string, seq<real>>,
                    readings: map<string, real>, first: real, last: real, timeout: real)
    requires AllPruned(hs, thr, ts, readings, first, last, timeout) && readings.Keys <= hs.Keys
    ensures forall u :: u in readings ==> first <= readings[u] <= last && PrunedAt(hs[u], thr, ts, u, readings[u], timeout)
  {
  }

  // ---- What is scheduled -------------------------------------------------------------------------------------

  predicate Wanted(hs: map<string, seq<Report>>, pinned: map<string, real>, readings: map<string, real>, timeout: real, u: string)
    requires readings.Keys == hs.Keys
  {
    u in pinned || (u in hs && Live(hs[u], readings[u], timeout))
  }

  function ScheduledFps(hs: map<string, seq<Report>>, pinned: map<string, real>, readings: map<string, real>,
                        times: map<string, real>, timeout: real, u: string): real
    requires readings.Keys == times.Keys == hs.Keys
  {
    (if u in hs then WindowFps(hs[u], readings[u], times[u], timeout) else 0.0) + RateIn(pinned, u)
  }

  ghost predicate Scheduled(messages: seq<Message>, hs: map<string, seq<Report>>, pinned: map<string, real>,
                      readings: map<string, real>, times: map<string, real>, timeout: real)
    requires readings.Keys == times.Keys == hs.Keys
  {
    && Distinct(messages)
    && (forall u: string :: Named(messages, u) <==> Wanted(hs, pinned, readings, timeout, u))
    && forall k :: 0 <= k < |messages| ==>
         messages[k].fps == ScheduledFps(hs, pinned, readings, times, timeout, MessageKey(messages[k]))
  }

  /** A pinned rate comes on top of whatever is reported. */
  lemma PinnedAdds(hs: map<string, seq<Report>>, pinned: map<string, real>, readings: map<string, real>,
                   times: map<string, real>, timeout: real, u: string, fps: real)
    requires readings.Keys == times.Keys == hs.Keys && u !in pinned
    ensures Wanted(hs, pinned[u := fps], readings, timeout, u)
    ensures ScheduledFps(hs, pinned[u := fps], readings, times, timeout, u) ==
            ScheduledFps(hs, pinned, readings, times, timeout, u) + fps
  {
  }

  predicate Named(messages: seq<Message>, u: string) {
    exists k :: 0 <= k < |messages| && MessageKey(messages[k]) == u
  }

  predicate Distinct(messages: seq<Message>) {
    forall j, k :: 0 <= j < k < |messages| ==> MessageKey(messages[j]) != MessageKey(messages[k])
  }

  lemma NameOneMore(messages: seq<Message>, m: Message)
    ensures forall u: string :: Named(messages + [m], u) <==> Named(messages, u) || u == MessageKey(m)
    ensures Distinct(messages) && !Named(messages, MessageKey(m)) ==> Distinct(messages + [m])
  {
    var all := messages + [m];
    forall u: string ensures Named(all, u) <==> Named(messages, u) || u == MessageKey(m) {
      if Named(messages, u) {
        var k :| 0 <= k < |messages| && MessageKey(messages[k]) == u;
        assert all[k] == messages[k];
      }
      assert all[|messages|] == m;
    }
  }

  // ---- Keys of messages ---------------------------------------------------------------------------------------

  function MessageKey(m: Message): string {
    Key(m.pipeline, m.session)
  }

  function RateOf(data: map<string, real>, pinned: map<string, real>, u: string): real {
    RateIn(data, u) + RateIn(pinned, u)
  }

  /** `pipeline, session = uuid.split("_")` succeeds. */
  predicate TwoParts(u: string) {
    |Split(u)| == 2
  }

  /** The key of a workload can be taken apart again exactly if neither id contains an underscore. */
  lemma TwoPartsIff(p: string, s: string)
    ensures TwoParts(Key(p, s)) <==> NoUnderscore(p) && NoUnderscore(s)
  {
    SplitOfKey(p, s);
    SplitIsWhole(p);
    SplitIsWhole(s);
  }

  lemma {:induction false} JoinOfSplit(u: string)
    ensures u == Join(Split(u))
  {
    if u != "" {
      hide Join, Extend;
      var init, c := u[..|u| - 1], u[|u| - 1];
      JoinOfSplit(init);
      JoinExtend(Split(init), c);
      assert u == init + [c];
    } else {
      assert Split(u) == [""];
    }
  }

  /** `"_".join(parts)` */
  function Join(parts: seq<string>): string
    requires parts != []
  {
    if |parts| == 1 then parts[0] else Key(Join(parts[..|parts| - 1]), parts[|parts| - 1])
  }

  lemma JoinExtend(parts: seq<string>, c: char)
    requires parts != []
    ensures Join(Extend(parts, c)) == Join(parts) + [c]
  {
    var r := Extend(parts, c);
    if c == '_' {
      assert r[..|r| - 1] == parts;
      assert Key(Join(parts), "") == Join(parts) + ['_'];
    } else if |parts| == 1 {
      assert r == [parts[0] + [c]];
    } else {
      assert r[..|r| - 1] == parts[..|parts| - 1];
    }
  }

  lemma PartsGiveKey(u: string)
    requires TwoParts(u)
    ensures u == Key(Split(u)[0], Split(u)[1])
  {
    JoinOfSplit(u);
    assert Split(u)[..1] == [Split(u)[0]];
  }
}
