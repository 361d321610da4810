/** The sessions a backend serves: its own table of running models, and the copy of each model's
  * session table that its first input process keeps up to date from a list of commands. */
module BackendSessions {

  /** Where a session's requests come from, all but its own id. */
  type Args = string
  datatype Command = AddSession(session: string, args: Args) | RemoveSession(session: string)

  // ---- One input process -----------------------------------------------------------------------

  /** What the child process makes of one command. */
  function Obey(table: map<string, Args>, c: Command): map<string, Args> {
    match c
    case AddSession(s, args) => if s in table then table else table[s := args]
    case RemoveSession(s) => table - {s}
  }

  function Replay(table: map<string, Args>, commands: seq<Command>): map<string, Args> {
    if commands == [] then table else Obey(Replay(table, commands[..|commands| - 1]), commands[|commands| - 1])
  }

  lemma {:induction false} ReplayFirst(table: map<string, Args>, commands: seq<Command>)
    requires commands != []
    ensures Replay(table, commands) == Replay(Obey(table, commands[0]), commands[1..])
  {
    var init := commands[..|commands| - 1];
    if init == [] {
      assert Replay(table, init) == table;
    } else {
      ReplayFirst(table, init);
      assert commands[1..][..|commands[1..]| - 1] == init[1..];
    }
  }

  /** The parent's table, the list both share, and in the child the commands fetched so far and its
    * own table. Each method is one atomic step of the parent or of the child. */
  class InputProcess {
    var parent: map<string, Args>
    var shared: seq<Command>
    var fetched: seq<Command>
    var child: map<string, Args>

    /** Replaying what is pending on the child's table gives the parent's table. */
    predicate Valid()
      reads this
    {
      Replay(child, fetched + shared) == parent
    }

    constructor (sessions: map<string, Args>)
      ensures Valid() && parent == child == sessions && shared == fetched == []
    {
      parent, child, shared, fetched := sessions, sessions, [], [];
    }

    method Add(session: string, args: Args)
      requires Valid()
      modifies this`parent, this`shared
      ensures Valid()
      ensures parent == if session in old(parent) then old(parent) else old(parent)[session := args]
      ensures shared == old(shared) + if session in old(parent) then [] else [AddSession(session, args)]
    {
      if session in parent {
        return;
      }
      var c := AddSession(session, args);
      assert (fetched + (shared + [c]))[..|fetched + shared|] == fetched + shared;
      shared := shared + [c];
      parent := parent[session := args];
    }

    method Remove(session: string)
      requires Valid()
      modifies this`parent, this`shared
      ensures Valid()
      ensures parent == old(parent) - {session}
      ensures shared == old(shared) + if session in old(parent) then [RemoveSession(session)] else []
    {
      if session in parent {
        var c := RemoveSession(session);
        assert (fetched + (shared + [c]))[..|fetched + shared|] == fetched + shared;
        shared := shared + [c];
        parent := parent - {session};
      } else {
        assert parent - {session} == parent;
      }
    }

    /** The child takes one command off the shared list. */
    method Fetch()
      requires Valid() && shared != []
      modifies this`shared, this`fetched
      ensures Valid() && fetched == old(fetched) + [old(shared)[0]] && shared == old(shared)[1..]
    {
      assert fetched + shared == (fetched + [shared[0]]) + shared[1..];
      fetched, shared := fetched + [shared[0]], shared[1..];
    }

    /** The child carries out the first command it has fetched. */
    method Execute()
      requires Valid() && fetched != []
      modifies this`fetched, this`child
      ensures Valid() && fetched == old(fetched)[1..] && child == Obey(old(child), old(fetched)[0])
    {
      var c := fetched[0];
      ReplayFirst(child, fetched + shared);
      assert (fetched + shared)[1..] == fetched[1..] + shared;
      match c {
        case AddSession(s, args) =>
          if s !in child {
            child := child[s := args];
          }
        case RemoveSession(s) =>
          if s in child {
            child := child - {s};
          } else {
            assert child - {s} == child;
          }
      }
      fetched := fetched[1..];
    }

    /** A whole round of the child: once nothing is pending, its table is the parent's. */
    method Update()
      requires Valid()
      modifies this`shared, this`fetched, this`child
      ensures Valid() && shared == [] && fetched == [] && child == parent
    {
      while shared != []
        invariant Valid()
        decreases |shared|
      {
        Fetch();
      }
      while fetched != []
        invariant Valid() && shared == []
        decreases |fetched|
      {
        Execute();
      }
    }
  }

  // ---- The backend ----------------------------------------------------------------------------------

  /** A message's entries: a model and some of its sessions. */
  type Plan = seq<(string, seq<string>)>

  function Elements(ss: seq<string>): set<string> {
    set s | s in ss
  }

  /** One entry of an unschedule message: sessions go, and a model without any is stopped. */
  function Less(view: map<string, set<string>>, m: string, sessions: set<string>): map<string, set<string>> {
    if m !in view then view
    else if view[m] <= sessions then view - {m}
    else view[m := view[m] - sessions]
  }

  /** One entry of a schedule message; models in `broken` cannot be unpacked. */
  function More(view: map<string, set<string>>, m: string, sessions: set<string>, broken: set<string>): map<string, set<string>> {
    if m in view then view[m := view[m] + sessions]
    else if m in broken then view
    else view[m := sessions]
  }

  function Unscheduled(view: map<string, set<string>>, plan: Plan): map<string, set<string>> {
    if plan == [] then view
    else Less(Unscheduled(view, plan[..|plan| - 1]), plan[|plan| - 1].0, Elements(plan[|plan| - 1].1))
  }

  function Scheduled(view: map<string, set<string>>, plan: Plan, broken: set<string>): map<string, set<string>> {
    if plan == [] then view
    else More(Scheduled(view, plan[..|plan| - 1], broken), plan[|plan| - 1].0, Elements(plan[|plan| - 1].1), broken)
  }

  // ---- The arguments of the sessions ----------------------------------------------------------------------

  /** Of every running model, its sessions with their arguments. */
  type Tables = map<string, map<string, Args>>

  /** No session has gone or changed its arguments, and whoever has joined has those of one that was there. */
  predicate Kept(before: map<string, Args>, after: map<string, Args>) {
    && (forall s :: s in before ==> s in after && after[s] == before[s])
    && after.Values == before.Values
  }

  /** The sessions that a model was launched for have their own arguments, and whoever joined later has those
    * of one of them. */
  predicate Launched(table: map<string, Args>, m: string, sessions: seq<string>, args: (string, string) -> Args) {
    && (forall s :: s in sessions ==> s in table && table[s] == args(m, s))
    && forall v :: v in table.Values ==> exists k :: 0 <= k < |sessions| && v == args(m, sessions[k])
  }

  /** Entry `k` is the first of the plan that names the model. */
  predicate FirstNaming(plan: Plan, k: nat, m: string) {
    k < |plan| && plan[k].0 == m && forall i :: 0 <= i < k ==> plan[i].0 != m
  }

  /** A model that ran before keeps its sessions' arguments; one that did not was launched by the first entry that
    * names it. */
  predicate ArgsOk(before: Tables, after: Tables, plan: Plan, args: (string, string) -> Args) {
    forall m :: m in after ==>
      if m in before then Kept(before[m], after[m])
      else exists k :: 0 <= k < |plan| && FirstNaming(plan, k, m) && Launched(after[m], m, plan[k].1, args)
  }

  /** Sessions may have gone; whoever is left has the arguments it had. */
  predicate OnlyLess(before: Tables, after: Tables) {
    forall m :: m in after ==> m in before && forall s :: s in after[m] ==> s in before[m] && after[m][s] == before[m][s]
  }

  /** One entry of a schedule message. */
  ghost predicate OneScheduled(before: Tables, after: Tables, m: string, sessions: seq<string>, args: (string, string) -> Args) {
    && (forall n :: n != m ==> (n in after <==> n in before) && (n in before ==> after[n] == before[n]))
    && (m in before ==> m in after && Kept(before[m], after[m]))
    && (m !in before && m in after ==> Launched(after[m], m, sessions, args))
  }

  /** After a whole round: a session served throughout has kept its arguments, and who has joined its model has those
    * of a session that was there before; a model that was stopped or did not run was launched by the first entry that
    * names it. `left` is what was served between the two messages. */
  predicate RoundArgs(before: Tables, after: Tables, left: map<string, set<string>>, schedule: Plan, args: (string, string) -> Args) {
    forall m :: m in after ==>
      if m in left then
        && m in before
        && (forall s :: s in left[m] ==> s in before[m] && s in after[m] && after[m][s] == before[m][s])
        && forall s :: s in after[m] ==> exists r :: r in left[m] && r in before[m] && after[m][s] == before[m][r]
      else exists k :: 0 <= k < |schedule| && FirstNaming(schedule, k, m) && Launched(after[m], m, schedule[k].1, args)
  }

  lemma RoundIsOk(before: Tables, mid: Tables, after: Tables, left: map<string, set<string>>, schedule: Plan, args: (string, string) -> Args)
    requires OnlyLess(before, mid) && ArgsOk(mid, after, schedule, args)
    requires left == map m | m in mid :: mid[m].Keys
    ensures RoundArgs(before, after, left, schedule, args)
  {
    hide Launched;
    forall m, s | m in after && m in mid && s in after[m] ensures exists r :: r in left[m] && r in before[m] && after[m][s] == before[m][r] {
      assert after[m][s] in mid[m].Values;
      var r :| r in mid[m] && mid[m][r] == after[m][s];
      assert r in left[m];
    }
  }

  lemma NothingLess(tables: Tables)
    ensures OnlyLess(tables, tables)
  {
  }

  lemma LessTransitive(a: Tables, b: Tables, c: Tables)
    requires OnlyLess(a, b) && OnlyLess(b, c)
    ensures OnlyLess(a, c)
  {
  }

  lemma Lessened(tables: Tables, m: string, sessions: set<string>)
    requires m in tables
    ensures OnlyLess(tables, tables[m := tables[m] - sessions])
    ensures OnlyLess(tables, tables[m := tables[m] - sessions] - {m})
  {
  }

  lemma NothingScheduled(tables: Tables, args: (string, string) -> Args, broken: set<string>)
    ensures ArgsOk(tables, tables, [], args) && AllNamed(tables, [], broken)
  {
  }

  lemma KeptLaunched(a: map<string, Args>, b: map<string, Args>, m: string, sessions: seq<string>, args: (string, string) -> Args)
    requires Launched(a, m, sessions, args) && Kept(a, b)
    ensures Launched(b, m, sessions, args)
  {
  }

  lemma KeptTransitive(a: map<string, Args>, b: map<string, Args>, c: map<string, Args>)
    requires Kept(a, b) && Kept(b, c)
    ensures Kept(a, c)
  {
  }

  /** Whatever an entry has named so far runs or cannot be unpacked. */
  predicate AllNamed(tables: Tables, plan: Plan, broken: set<string>) {
    forall i :: 0 <= i < |plan| ==> plan[i].0 in tables || plan[i].0 in broken
  }

  lemma OneMoreScheduled(start: Tables, before: Tables, after: Tables, plan: Plan, k: nat, args: (string, string) -> Args, broken: set<string>)
    requires k < |plan| && ArgsOk(start, before, plan[..k], args) && start.Keys <= before.Keys && AllNamed(before, plan[..k], broken)
    requires OneScheduled(before, after, plan[k].0, plan[k].1, args)
    requires if plan[k].0 in before then true else plan[k].0 in after <==> plan[k].0 !in broken
    ensures ArgsOk(start, after, plan[..k + 1], args) && start.Keys <= after.Keys && AllNamed(after, plan[..k + 1], broken)
  {
    hide Kept, Launched;
    var less, more, m := plan[..k], plan[..k + 1], plan[k].0;
    assert more[k] == plan[k] && forall i :: 0 <= i < k ==> more[i] == less[i];
    forall n | n in after && n !in start ensures exists i :: 0 <= i < |more| && FirstNaming(more, i, n) && Launched(after[n], n, more[i].1, args) {
      if n in before {
        var i :| 0 <= i < |less| && FirstNaming(less, i, n) && Launched(before[n], n, less[i].1, args);
        assert FirstNaming(more, i, n);
        if n == m {
          KeptLaunched(before[n], after[n], n, less[i].1, args);
        }
      } else {
        assert FirstNaming(more, k, n);
      }
    }
    if m in start {
      KeptTransitive(start[m], before[m], after[m]);
    }
  }

  class Backend {
    var runtime: map<string, InputProcess>

    /** Distinct processes, all in order and none without a session. */
    ghost predicate Valid()
      reads this, runtime.Values
    {
      && (forall m :: m in runtime ==> runtime[m].Valid() && runtime[m].parent != map[])
      && forall m, n :: m in runtime && n in runtime && m != n ==> runtime[m] != runtime[n]
    }

    /** The sessions of every running model. */
    ghost function View(): map<string, set<string>>
      reads this, runtime.Values
    {
      map m | m in runtime :: runtime[m].parent.Keys
    }

    /** With their arguments. */
    ghost function Sessions(): Tables
      reads this, runtime.Values
    {
      map m | m in runtime :: runtime[m].parent
    }

    constructor ()
      ensures Valid() && runtime == map[]
    {
      runtime := map[];
    }

    method RemoveSessions(p: InputProcess, sessions: seq<string>)
      requires p.Valid()
      modifies p
      ensures p.Valid() && p.parent == old(p.parent) - Elements(sessions)
    {
      for k := 0 to |sessions|
        invariant p.Valid() && p.parent == old(p.parent) - Elements(sessions[..k])
      {
        assert sessions[..k + 1] == sessions[..k] + [sessions[k]];
        p.Remove(sessions[k]);
      }
      assert sessions[..|sessions|] == sessions;
    }

    /** Sessions that are new are added with the arguments of one that is there already. */
    method AddSessions(p: InputProcess, sessions: seq<string>)
      requires p.Valid() && p.parent != map[]
      modifies p
      ensures p.Valid() && p.parent.Keys == old(p.parent.Keys) + Elements(sessions)
      ensures forall s :: s in old(p.parent) ==> p.parent[s] == old(p.parent)[s]
      ensures p.parent.Values == old(p.parent.Values)
    {
      hide InputProcess.Valid;
      for k := 0 to |sessions|
        invariant p.Valid() && p.parent != map[]
        invariant p.parent.Keys == old(p.parent.Keys) + Elements(sessions[..k])
        invariant forall s :: s in old(p.parent) ==> p.parent[s] == old(p.parent)[s]
        invariant p.parent.Values == old(p.parent.Values)
      {
        assert sessions[..k + 1] == sessions[..k] + [sessions[k]];
        AddLike(p, sessions[k]);
      }
      assert sessions[..|sessions|] == sessions;
    }

    /** One session with the arguments of another. */
    method AddLike(p: InputProcess, session: string)
      requires p.Valid() && p.parent != map[]
      modifies p
      ensures p.Valid() && p.parent.Keys == old(p.parent.Keys) + {session}
      ensures forall s :: s in old(p.parent) ==> p.parent[s] == old(p.parent)[s]
      ensures p.parent.Values == old(p.parent.Values)
    {
      hide InputProcess.Valid;
      if session !in p.parent {
        NoKeys(p.parent);
        var existing :| existing in p.parent.Keys;
        ghost var before := p.parent;
        p.Add(session, p.parent[existing]);
        SameValues(before, session, existing);
      }
    }

    lemma SameValues(table: map<string, Args>, session: string, existing: string)
      requires session !in table && existing in table
      ensures table[session := table[existing]].Values == table.Values
    {
      var after := table[session := table[existing]];
      forall v ensures v in after.Values <==> v in table.Values {
        if k :| k in table && table[k] == v {
          assert after[k] == v;
        }
      }
    }

    method ProcessUnscheduling(plan: Plan)
      requires Valid()
      modifies this, runtime.Values
      ensures Valid() && View() == Unscheduled(old(View()), plan)
      ensures runtime.Values <= old(runtime.Values) && OnlyLess(old(Sessions()), Sessions())
    {
      hide InputProcess.Valid, Valid, Less, Elements, View, Sessions, OnlyLess;
      ghost var before, start := View(), Sessions();
      NothingLess(start);
      for k := 0 to |plan|
        invariant Valid() && View() == Unscheduled(before, plan[..k])
        invariant runtime.Values <= old(runtime.Values) && OnlyLess(start, Sessions())
      {
        assert plan[..k + 1][..k] == plan[..k];
        ghost var mid := Sessions();
        UnscheduleOne(plan[k].0, plan[k].1);
        LessTransitive(start, mid, Sessions());
      }
      assert plan[..|plan|] == plan;
    }

    method UnscheduleOne(m: string, sessions: seq<string>)
      requires Valid()
      modifies this, runtime.Values
      ensures Valid() && runtime.Values <= old(runtime.Values)
      ensures View() == Less(old(View()), m, Elements(sessions)) && OnlyLess(old(Sessions()), Sessions())
    {
      hide InputProcess.Valid, Elements;
      if m in runtime {
        Reduce(m, sessions);
      }
    }

    method Drop(m: string)
      requires m in runtime && (forall n :: n in runtime ==> runtime[n].Valid() && (n != m ==> runtime[n].parent != map[]))
      requires forall n, o :: n in runtime && o in runtime && n != o ==> runtime[n] != runtime[o]
      modifies this
      ensures Valid() && runtime == old(runtime) - {m}
      ensures View() == old(View()) - {m} && Sessions() == old(Sessions()) - {m}
    {
      hide InputProcess.Valid, View, Sessions;
      runtime := runtime - {m};
      Dropped(m);
    }

    /** Sessions are taken from a running model's table; it may be left with none. */
    method TakeSessions(m: string, sessions: seq<string>)
      requires Valid() && m in runtime
      modifies runtime[m]
      ensures forall n :: n in runtime ==> runtime[n].Valid() && (n != m ==> runtime[n].parent != map[])
      ensures View() == old(View())[m := old(View())[m] - Elements(sessions)]
      ensures Sessions() == old(Sessions())[m := old(Sessions())[m] - Elements(sessions)]
    {
      hide InputProcess.Valid, Elements, View, Sessions;
      Seen(m);
      RemoveSessions(runtime[m], sessions);
      assert runtime[m].parent.Keys == old(runtime[m].parent.Keys) - Elements(sessions);
      OthersSame(m);
    }

    twostate lemma Inserted(m: string, new p: InputProcess)
      requires m !in old(runtime) && runtime == old(runtime)[m := p]
      requires forall n <- old(runtime) :: runtime[n].parent == old(runtime[n].parent)
      ensures View() == old(View())[m := p.parent.Keys] && Sessions() == old(Sessions())[m := p.parent]
    {
    }

    twostate lemma Dropped(m: string)
      requires runtime == old(runtime) - {m} && forall n :: n in runtime ==> runtime[n].parent == old(runtime[n].parent)
      ensures View() == old(View()) - {m} && Sessions() == old(Sessions()) - {m}
    {
    }

    twostate lemma OthersSame(m: string)
      requires m in runtime && runtime == old(runtime) && forall n :: n in runtime && n != m ==> runtime[n].parent == old(runtime[n].parent)
      ensures View() == old(View())[m := runtime[m].parent.Keys] && Sessions() == old(Sessions())[m := runtime[m].parent]
    {
    }

    /** Sessions are taken from a running model, and the model is stopped if none is left. */
    method Reduce(m: string, sessions: seq<string>)
      requires Valid() && m in runtime
      modifies this, runtime[m]
      ensures Valid() && runtime.Values <= old(runtime.Values)
      ensures View() == Less(old(View()), m, Elements(sessions)) && OnlyLess(old(Sessions()), Sessions())
    {
      hide InputProcess.Valid, Elements, View, Sessions, OnlyLess;
      ghost var before, start := View(), Sessions();
      Seen(m);
      TakeSessions(m, sessions);
      Seen(m);
      NoKeys(runtime[m].parent);
      NothingLeft(before[m], Elements(sessions));
      Lessened(start, m, Elements(sessions));
      if runtime[m].parent == map[] {
        Drop(m);
        assert before[m := before[m] - Elements(sessions)] - {m} == before - {m};
      }
    }

    lemma Seen(m: string)
      ensures m in runtime <==> m in View()
      ensures m in runtime <==> m in Sessions()
      ensures m in runtime ==> View()[m] == runtime[m].parent.Keys && Sessions()[m] == runtime[m].parent
    {
    }

    /** A running model only gains sessions. */
    method Extend(m: string, sessions: seq<string>)
      requires Valid() && m in runtime
      modifies runtime[m]
      ensures Valid() && View() == old(View())[m := old(View())[m] + Elements(sessions)]
      ensures Sessions().Keys == old(Sessions()).Keys && Kept(old(Sessions())[m], Sessions()[m])
      ensures forall n :: n in Sessions() && n != m ==> Sessions()[n] == old(Sessions())[n]
    {
      hide InputProcess.Valid, Elements, View, Sessions;
      Seen(m);
      NoKeys(runtime[m].parent);
      AddSessions(runtime[m], sessions);
      NoKeys(runtime[m].parent);
      OthersSame(m);
    }

    method Insert(m: string, p: InputProcess)
      requires Valid() && m !in runtime && p.Valid() && p.parent != map[] && p !in runtime.Values
      modifies this
      ensures Valid() && runtime.Values <= old(runtime.Values) + {p}
      ensures View() == old(View())[m := p.parent.Keys] && Sessions() == old(Sessions())[m := p.parent]
    {
      hide InputProcess.Valid, View, Sessions;
      runtime := runtime[m := p];
      Inserted(m, p);
    }

    /** A model that does not run yet is deployed for the given sessions. */
    method Launch(m: string, sessions: seq<string>, args: (string, string) -> Args)
      requires Valid() && m !in runtime && sessions != []
      modifies this
      ensures Valid() && fresh(runtime.Values - old(runtime.Values))
      ensures View() == old(View())[m := Elements(sessions)]
      ensures m in Sessions() && Sessions() == old(Sessions())[m := Sessions()[m]] && Launched(Sessions()[m], m, sessions, args)
    {
      hide InputProcess.Valid, Valid, Elements, View, Sessions, Launched;
      var p := StartInput(m, sessions, args);
      Insert(m, p);
    }

    /** The input process of a model with each of its sessions under the session's own arguments. */
    method StartInput(m: string, sessions: seq<string>, args: (string, string) -> Args) returns (p: InputProcess)
      requires sessions != []
      ensures fresh(p) && p.Valid() && p.parent.Keys == Elements(sessions) && p.parent != map[]
      ensures (forall s :: s in p.parent ==> p.parent[s] == args(m, s)) && Launched(p.parent, m, sessions, args)
    {
      var table := map s | s in sessions :: args(m, s);
      assert sessions[0] in table && table.Keys == Elements(sessions);
      p := new InputProcess(table);
    }

    method ScheduleOne(m: string, sessions: seq<string>, args: (string, string) -> Args, broken: set<string>)
      requires Valid() && sessions != []
      modifies this, runtime.Values
      ensures Valid() && fresh(runtime.Values - old(runtime.Values))
      ensures View() == More(old(View()), m, Elements(sessions), broken)
      ensures OneScheduled(old(Sessions()), Sessions(), m, sessions, args)
      ensures m !in old(Sessions()) ==> (m in Sessions() <==> m !in broken)
    {
      hide InputProcess.Valid, Valid, Elements, Kept, Launched;
      if m in runtime {
        Extend(m, sessions);
      } else if m !in broken {
        Launch(m, sessions, args);
      }
    }

    method ProcessScheduling(plan: Plan, args: (string, string) -> Args, broken: set<string>)
      requires Valid() && forall k :: 0 <= k < |plan| ==> plan[k].1 != []
      modifies this, runtime.Values
      ensures Valid() && fresh(runtime.Values - old(runtime.Values))
      ensures View() == Scheduled(old(View()), plan, broken)
      ensures ArgsOk(old(Sessions()), Sessions(), plan, args)
    {
      hide InputProcess.Valid, Valid, More, Elements, View, Sessions, ArgsOk, OneScheduled, AllNamed;
      ghost var before, start := View(), Sessions();
      NothingScheduled(start, args, broken);
      for k := 0 to |plan|
        invariant Valid() && fresh(runtime.Values - old(runtime.Values))
        invariant View() == Scheduled(before, plan[..k], broken)
        invariant ArgsOk(start, Sessions(), plan[..k], args) && start.Keys <= Sessions().Keys && AllNamed(Sessions(), plan[..k], broken)
      {
        assert plan[..k + 1][..k] == plan[..k];
        ghost var mid := Sessions();
        ScheduleOne(plan[k].0, plan[k].1, args, broken);
        OneMoreScheduled(start, mid, Sessions(), plan, k, args, broken);
      }
      assert plan[..|plan|] == plan;
    }

    /** A round: what is no longer wanted first, then what is. Afterwards every running model has a
      * session and, unless a model cannot be unpacked, all that is planned is served. */
    method Round(unschedule: Plan, schedule: Plan, args: (string, string) -> Args, broken: set<string>)
      requires Valid() && forall k :: 0 <= k < |schedule| ==> schedule[k].1 != []
      modifies this, runtime.Values
      ensures Valid()
      ensures View() == Scheduled(Unscheduled(old(View()), unschedule), schedule, broken)
      ensures NonEmpty(View())
      ensures forall k, s :: 0 <= k < |schedule| && s in schedule[k].1 && schedule[k].0 !in broken ==> Serves(View(), schedule[k].0, s)
      ensures RoundArgs(old(Sessions()), Sessions(), Unscheduled(old(View()), unschedule), schedule, args)
    {
      hide *;
      ghost var before, start := View(), Sessions();
      NobodyIdle();
      ProcessUnscheduling(unschedule);
      ghost var mid := Sessions();
      ViewOfSessions();
      ProcessScheduling(schedule, args, broken);
      RoundIsOk(start, mid, Sessions(), Unscheduled(before, unschedule), schedule, args);
      UnscheduledNonEmpty(before, unschedule);
      PlannedIsServed(Unscheduled(before, unschedule), schedule, broken);
    }

    lemma ViewOfSessions()
      ensures View() == map m | m in Sessions() :: Sessions()[m].Keys
    {
    }

    lemma NobodyIdle()
      requires Valid()
      ensures NonEmpty(View())
    {
      forall m | m in runtime ensures runtime[m].parent.Keys != {} {
        NoKeys(runtime[m].parent);
      }
    }
  }

  lemma NothingLeft(a: set<string>, b: set<string>)
    ensures a - b == {} <==> a <= b
  {
    assert a <= (a - b) + b;
  }

  lemma NoKeys(t: map<string, Args>)
    ensures t.Keys == {} <==> t == map[]
  {
    if t.Keys == {} {
      assert t == map[];
    }
  }

  // ---- Convergence --------------------------------------------------------------------------------------

  predicate Serves(view: map<string, set<string>>, m: string, s: string) {
    m in view && s in view[m]
  }

  predicate NonEmpty(view: map<string, set<string>>) {
    forall m :: m in view ==> view[m] != {}
  }

  lemma {:induction false} UnscheduledNonEmpty(view: map<string, set<string>>, plan: Plan)
    requires NonEmpty(view)
    ensures NonEmpty(Unscheduled(view, plan))
  {
    if plan != [] {
      UnscheduledNonEmpty(view, plan[..|plan| - 1]);
      var v, last := Unscheduled(view, plan[..|plan| - 1]), plan[|plan| - 1];
      if last.0 in v {
        NothingLeft(v[last.0], Elements(last.1));
      }
    }
  }

  /** Exactly the sessions named for a model stop being served. */
  lemma {:induction false} UnscheduledExact(view: map<string, set<string>>, plan: Plan, m: string, s: string)
    ensures Serves(Unscheduled(view, plan), m, s) <==> Serves(view, m, s) && !Names(plan, m, s)
  {
    if plan != [] {
      var init := plan[..|plan| - 1];
      UnscheduledExact(view, init, m, s);
      NamesSnoc(init, plan[|plan| - 1], m, s);
      assert plan == init + [plan[|plan| - 1]];
    }
  }

  predicate Names(plan: Plan, m: string, s: string) {
    exists k :: 0 <= k < |plan| && plan[k].0 == m && s in plan[k].1
  }

  lemma NamesSnoc(init: Plan, last: (string, seq<string>), m: string, s: string)
    ensures Names(init + [last], m, s) <==> Names(init, m, s) || (last.0 == m && s in last.1)
  {
    var all := init + [last];
    assert all[|init|] == last;
    if k :| 0 <= k < |init| && init[k].0 == m && s in init[k].1 {
      assert all[k] == init[k];
    }
  }

  lemma {:induction false} RunningStays(view: map<string, set<string>>, plan: Plan, broken: set<string>, m: string)
    ensures m in Scheduled(view, plan, broken) <==> m in view || (m !in broken && exists k :: 0 <= k < |plan| && plan[k].0 == m)
  {
    if plan != [] {
      var init := plan[..|plan| - 1];
      RunningStays(view, init, broken, m);
      if k :| 0 <= k < |init| && init[k].0 == m {
        assert plan[k].0 == m;
      }
      assert plan[|plan| - 1].0 == m ==> exists k :: 0 <= k < |plan| && plan[k].0 == m;
    }
  }

  /** Exactly the sessions named for a model that runs or can be unpacked start being served. */
  lemma {:induction false} ScheduledExact(view: map<string, set<string>>, plan: Plan, broken: set<string>, m: string, s: string)
    ensures Serves(Scheduled(view, plan, broken), m, s) <==>
            Serves(view, m, s) || (Names(plan, m, s) && (m in view || m !in broken))
  {
    if plan != [] {
      var init := plan[..|plan| - 1];
      ScheduledExact(view, init, broken, m, s);
      RunningStays(view, init, broken, m);
      NamesSnoc(init, plan[|plan| - 1], m, s);
      assert plan == init + [plan[|plan| - 1]];
    }
  }

  lemma {:induction false} ScheduledNonEmpty(view: map<string, set<string>>, plan: Plan, broken: set<string>)
    requires NonEmpty(view) && forall k :: 0 <= k < |plan| ==> plan[k].1 != []
    ensures NonEmpty(Scheduled(view, plan, broken))
  {
    if plan != [] {
      ScheduledNonEmpty(view, plan[..|plan| - 1], broken);
      assert plan[|plan| - 1].1[0] in Elements(plan[|plan| - 1].1);
    }
  }

  lemma PlannedIsServed(view: map<string, set<string>>, plan: Plan, broken: set<string>)
    requires NonEmpty(view) && forall k :: 0 <= k < |plan| ==> plan[k].1 != []
    ensures NonEmpty(Scheduled(view, plan, broken))
    ensures forall k, s :: 0 <= k < |plan| && s in plan[k].1 && plan[k].0 !in broken ==> Serves(Scheduled(view, plan, broken), plan[k].0, s)
  {
    ScheduledNonEmpty(view, plan, broken);
    forall k, s | 0 <= k < |plan| && s in plan[k].1 && plan[k].0 !in broken
      ensures Serves(Scheduled(view, plan, broken), plan[k].0, s)
    {
      ScheduledExact(view, plan, broken, plan[k].0, s);
    }
  }

  /** Convergence: after a round from any state, a model serves a session exactly if the session is
    * planned for it and the model runs or can be unpacked, or it was served before and not called off. */
  lemma RoundConverges(view: map<string, set<string>>, unschedule: Plan, schedule: Plan, broken: set<string>, m: string, s: string)
    ensures var after := Unscheduled(view, unschedule);
            Serves(Scheduled(after, schedule, broken), m, s) <==>
            (Serves(view, m, s) && !Names(unschedule, m, s)) || (Names(schedule, m, s) && (m in after || m !in broken))
  {
    UnscheduledExact(view, unschedule, m, s);
    ScheduledExact(Unscheduled(view, unschedule), schedule, broken, m, s);
  }

  /** The order of the two messages matters exactly for what is named in both. */
  lemma OrderMattersIff(view: map<string, set<string>>, unschedule: Plan, schedule: Plan, m: string, s: string)
    ensures (Serves(Scheduled(Unscheduled(view, unschedule), schedule, {}), m, s) <==>
             Serves(Unscheduled(Scheduled(view, schedule, {}), unschedule), m, s))
            <==> !(Names(unschedule, m, s) && Names(schedule, m, s))
  {
    RoundConverges(view, unschedule, schedule, {}, m, s);
    ScheduledExact(view, schedule, {}, m, s);
    UnscheduledExact(Scheduled(view, schedule, {}), unschedule, m, s);
  }
}
