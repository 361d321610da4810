/** One request on its way: through the components of a model, on to the next model, or back to the
  * frontend with a result. */
module Routing {
  import opened Options

  datatype Status = Pending | Processing | Failed | Completed
  datatype Component = Pipelined | Custom

  /** What goes wrong with the request in one component; each fault leaves a message. Inputs are
    * decoded one by one, so decoding can leave several. */
  datatype Behaviour = Behaviour(decodeErrors: seq<string>, preprocError: Option<string>, inferError: Option<string>,
                                 postprocError: Option<string>, formatError: Option<string>)

  /** A request between processes: where it still has to go (later models, then the frontend), its
    * status and the messages it carries along. */
  datatype Request = Request(exec: seq<string>, status: Status, errors: seq<string>)

  datatype Emission =
    | ToComponent(request: Request)
    | ToModel(topic: string, request: Request)
    | ToFrontend(topic: string, status: Status, errors: seq<string>)

  function Message(e: Option<string>): seq<string> {
    if e.Some? then [e.value] else []
  }

  // ---- Before the output process ---------------------------------------------------------------

  /** The preprocessor: failed requests pass, and so do those it fails itself. */
  function Preprocessed(b: Behaviour, r: Request): (m: Request) {
    if r.status == Failed then r
    else if b.decodeErrors != [] then r.(status := Failed, errors := b.decodeErrors)
    else if b.preprocError.Some? then r.(status := Failed, errors := [b.preprocError.value])
    else r.(status := Processing, errors := [])
  }

  /** A custom component: it starts from no messages and runs failed requests too. A failed request
    * has no inputs left to decode. */
  function RunCustom(b: Behaviour, r: Request): (m: Request) {
    var decode := if r.status == Failed then [] else b.decodeErrors;
    var failed := r.status == Failed || decode != [] || b.inferError.Some?;
    r.(status := if failed then Failed else Processing, errors := decode + Message(b.inferError))
  }

  function Before(c: Component, b: Behaviour, r: Request): Request {
    match c
    case Pipelined => Preprocessed(b, r)
    case Custom => RunCustom(b, r)
  }

  /** Decoding errors, in the order of the inputs. */
  function DecodeErrors<I>(inputs: seq<I>, decode: I -> Option<string>): seq<string> {
    if inputs == [] then [] else DecodeErrors(inputs[..|inputs| - 1], decode) + Message(decode(inputs[|inputs| - 1]))
  }

  /** Every input that cannot be decoded leaves its own message, in the order of the inputs, and no other leaves any. */
  lemma {:induction false} DecodeErrorsInOrder<I>(a: seq<I>, x: I, b: seq<I>, decode: I -> Option<string>)
    ensures DecodeErrors(a + [x] + b, decode) ==
            DecodeErrors(a, decode) + (if decode(x).Some? then [decode(x).value] else []) + DecodeErrors(b, decode)
    ensures DecodeErrors<I>([], decode) == []
  {
    if b == [] {
      assert a + [x] + b == a + [x] && (a + [x])[..|a|] == a;
    } else {
      var init, last := b[..|b| - 1], b[|b| - 1];
      DecodeErrorsInOrder(a, x, init, decode);
      assert (a + [x] + b)[..|a + [x] + b| - 1] == a + [x] + init;
      assert (a + [x] + b)[|a + [x] + b| - 1] == last;
    }
  }

  lemma {:induction false} NoDecodeErrorsIff<I>(inputs: seq<I>, decode: I -> Option<string>)
    ensures DecodeErrors(inputs, decode) == [] <==> forall x :: x in inputs ==> decode(x).None?
  {
    if inputs != [] {
      NoDecodeErrorsIff(inputs[..|inputs| - 1], decode);
      assert inputs == inputs[..|inputs| - 1] + [inputs[|inputs| - 1]];
    }
  }

  /** The preprocessor's outlets: the shortcut for failed requests and the requests to be batched. */
  class Preprocessor {
    var shortcut: seq<Request>
    var waiting: seq<Request>

    constructor ()
      ensures shortcut == [] && waiting == []
    {
      shortcut, waiting := [], [];
    }

    /** Every request goes exactly one of the two ways, the failed ones by the shortcut. */
    method Handle<I>(r: Request, inputs: seq<I>, decode: I -> Option<string>, preproc: seq<I> -> Option<string>, ghost b: Behaviour)
      requires b.decodeErrors == DecodeErrors(inputs, decode) && b.preprocError == preproc(inputs)
      modifies this
      ensures var m := Preprocessed(b, r);
              && shortcut == old(shortcut) + (if m.status == Failed then [m] else [])
              && waiting == old(waiting) + (if m.status == Failed then [] else [m])
    {
      if r.status == Failed {
        shortcut := shortcut + [r];
        return;
      }
      var errors: seq<string> := [];
      for i := 0 to |inputs|
        invariant errors == DecodeErrors(inputs[..i], decode)
        invariant shortcut == old(shortcut) && waiting == old(waiting)
      {
        assert inputs[..i + 1][..i] == inputs[..i];
        var e := decode(inputs[i]);
        if e.Some? {
          errors := errors + [e.value];
        }
      }
      assert inputs[..|inputs|] == inputs;
      if errors != [] {
        shortcut := shortcut + [r.(status := Failed, errors := errors)];
        return;
      }
      var e := preproc(inputs);
      if e.Some? {
        shortcut := shortcut + [r.(status := Failed, errors := [e.value])];
        return;
      }
      waiting := waiting + [r.(status := Processing, errors := [])];
    }
  }

  // ---- The output process --------------------------------------------------------------------------

  /** Postprocessing, which only pipelined components have. */
  function Postprocessed(c: Component, b: Behaviour, m: Request): Request {
    if c.Pipelined? && b.postprocError.Some? then m.(status := Failed, errors := m.errors + [b.postprocError.value]) else m
  }

  function Output(c: Component, last: bool, b: Behaviour, m: Request): Emission
    requires m.exec != []
  {
    if m.status == Failed then
      if !last then ToComponent(m) else ToFrontend(m.exec[|m.exec| - 1], Failed, m.errors)
    else
      var p := Postprocessed(c, b, m);
      if !last then ToComponent(p)
      else
        var topic, rest := m.exec[0], m.exec[1..];
        if p.status != Failed && rest != [] then ToModel(topic, Request(rest, Pending, []))
        else
          var errors := p.errors + if p.status == Failed then [] else Message(b.formatError);
          if rest == [] then ToFrontend(topic, if p.status == Failed then Failed else Completed, errors)
          else ToFrontend(rest[|rest| - 1], p.status, errors)
  }

  /** The output process, with everything it has put out. */
  class OutputProcess {
    const component: Component
    const last: bool
    var sent: seq<Emission>

    constructor (component: Component, last: bool)
      ensures sent == [] && this.component == component && this.last == last
    {
      this.component, this.last, sent := component, last, [];
    }

    /** Every item leads to exactly one emission, the right one. */
    method Handle(item: Request, b: Behaviour)
      requires item.exec != []
      modifies this`sent
      ensures sent == old(sent) + [Output(component, last, b, item)]
    {
      if item.status == Failed {
        if !last {
          sent := sent + [ToComponent(item)];
        } else {
          sent := sent + [ToFrontend(item.exec[|item.exec| - 1], Failed, item.errors)];
        }
        return;
      }
      var status, errors := item.status, item.errors;
      assert forall xs: seq<string> {:trigger xs + []} :: xs + [] == xs;
      if component.Pipelined? && b.postprocError.Some? {
        status, errors := Failed, errors + [b.postprocError.value];
      }
      if !last {
        sent := sent + [ToComponent(Request(item.exec, status, errors))];
        return;
      }
      var topic, rest := item.exec[0], item.exec[1..];
      if status != Failed && |rest| > 0 {
        sent := sent + [ToModel(topic, Request(rest, Pending, []))];
        return;
      }
      var finalStatus := status;
      if status != Failed && b.formatError.Some? {
        // the status read before formatting is the one that is sent
        errors := errors + [b.formatError.value];
      }
      if |rest| == 0 {
        if status != Failed {
          finalStatus := Completed;
        }
        sent := sent + [ToFrontend(topic, finalStatus, errors)];
      } else {
        sent := sent + [ToFrontend(rest[|rest| - 1], finalStatus, errors)];
      }
    }

    /** A round: one emission per item, in order. */
    method HandleAll(items: seq<Request>, behave: Request -> Behaviour)
      requires forall k :: 0 <= k < |items| ==> items[k].exec != []
      modifies this`sent
      ensures |sent| == old(|sent|) + |items| && sent[..old(|sent|)] == old(sent)
      ensures forall k :: 0 <= k < |items| ==> sent[old(|sent|) + k] == Output(component, last, behave(items[k]), items[k])
    {
      for i := 0 to |items|
        invariant |sent| == old(|sent|) + i && sent[..old(|sent|)] == old(sent)
        invariant forall k :: 0 <= k < i ==> sent[old(|sent|) + k] == Output(component, last, behave(items[k]), items[k])
      {
        Handle(items[i], behave(items[i]));
      }
    }
  }

  // ---- The whole way ----------------------------------------------------------------------------------

  /** A request's way: the models of its pipeline with their components, and what happens to it in
    * component `j` of model `i`. */
  datatype Way = Way(topics: seq<string>, frontend: string, models: seq<seq<Component>>, behave: (nat, nat) -> Behaviour)

  predicate WayOk(w: Way) {
    && |w.topics| == |w.models| > 0
    && forall i :: 0 <= i < |w.models| ==> w.models[i] != []
  }

  /** Where a request that is in model `i` still has to go. */
  function Ahead(w: Way, i: nat): seq<string>
    requires WayOk(w) && i < |w.models|
  {
    w.topics[i + 1..] + [w.frontend]
  }

  /** How it ends: the last model visited, and what reaches which topic. */
  datatype End = End(lastModel: nat, topic: string, status: Status, errors: seq<string>)

  function StepAt(w: Way, i: nat, j: nat, r: Request): Emission
    requires WayOk(w) && i < |w.models| && j < |w.models[i]| && r.exec == Ahead(w, i)
  {
    Output(w.models[i][j], j == |w.models[i]| - 1, w.behave(i, j), Before(w.models[i][j], w.behave(i, j), r))
  }

  /** The step a request takes keeps where it has to go, and leads to the next component, to the
    * first component of the next model, or to the frontend. */
  lemma StepGoesOn(w: Way, i: nat, j: nat, r: Request)
    requires WayOk(w) && i < |w.models| && j < |w.models[i]| && r.exec == Ahead(w, i)
    ensures var e := StepAt(w, i, j, r);
            match e
            case ToComponent(q) => j + 1 < |w.models[i]| && q.exec == Ahead(w, i)
            case ToModel(topic, q) => i + 1 < |w.models| && topic == w.topics[i + 1] && q.exec == Ahead(w, i + 1)
            case ToFrontend(topic, _, _) => topic == w.frontend
  {
    var ahead := Ahead(w, i);
    assert ahead[|ahead| - 1] == w.frontend;
    if i + 1 < |w.models| {
      assert ahead[0] == w.topics[i + 1] && ahead[1..] == Ahead(w, i + 1);
      assert ahead[1..][|ahead[1..]| - 1] == w.frontend;
    } else {
      assert ahead == [w.frontend];
    }
  }

  /** The request's whole way from component `j` of model `i` on. */
  function Follow(w: Way, i: nat, j: nat, r: Request): End
    requires WayOk(w) && i < |w.models| && j < |w.models[i]| && r.exec == Ahead(w, i)
    decreases |r.exec|, |w.models[i]| - j
  {
    StepGoesOn(w, i, j, r);
    match StepAt(w, i, j, r)
    case ToComponent(q) => Follow(w, i, j + 1, q)
    case ToModel(_, q) => Follow(w, i + 1, 0, q)
    case ToFrontend(topic, status, errors) => End(i, topic, status, errors)
  }

  /** The frontend takes the first model off the pipeline and sends the request there. */
  function Submitted(w: Way): Request
    requires WayOk(w)
  {
    Request(w.topics[1..] + [w.frontend], Pending, [])
  }

  // ---- Faults ---------------------------------------------------------------------------------------------

  /** The messages a component adds to a request that reaches it unharmed. */
  function Faults(c: Component, b: Behaviour): seq<string> {
    match c
    case Pipelined =>
      if b.decodeErrors != [] then b.decodeErrors
      else if b.preprocError.Some? then [b.preprocError.value]
      else Message(b.postprocError)
    case Custom => b.decodeErrors + Message(b.inferError)
  }

  /** A component does no harm exactly if nothing it does goes wrong. Messages of inputs that cannot be decoded come first;
    * a pipelined component stops at the first thing that goes wrong, a custom one runs the model all the same. */
  lemma FaultsExact(c: Component, b: Behaviour)
    ensures Faults(c, b) == [] <==>
            b.decodeErrors == [] && if c.Pipelined? then b.preprocError.None? && b.postprocError.None? else b.inferError.None?
    ensures b.decodeErrors <= Faults(c, b)
    ensures c.Pipelined? && b.decodeErrors != [] ==> Faults(c, b) == b.decodeErrors
    ensures forall e <- [if c.Custom? then b.inferError else if b.preprocError.Some? then b.preprocError else b.postprocError] ::
              e.Some? && (c.Custom? || b.decodeErrors == []) ==> Faults(c, b) == b.decodeErrors + [e.value]
  {
    assert [] + Message(b.postprocError) == Message(b.postprocError);
  }

  /** The first component of a model, from `j` on, that fails the request. */
  function FirstFault(w: Way, i: nat, j: nat): (k: nat)
    requires i < |w.models| && j <= |w.models[i]|
    ensures j <= k <= |w.models[i]|
    ensures k < |w.models[i]| ==> Faults(w.models[i][k], w.behave(i, k)) != []
    ensures forall l :: j <= l < k ==> Faults(w.models[i][l], w.behave(i, l)) == []
    decreases |w.models[i]| - j
  {
    if j == |w.models[i]| || Faults(w.models[i][j], w.behave(i, j)) != [] then j else FirstFault(w, i, j + 1)
  }

  predicate FailsIn(w: Way, i: nat)
    requires i < |w.models|
  {
    FirstFault(w, i, 0) < |w.models[i]|
  }

  /** The messages of a failed request after the components from `j` on: pipelined ones pass them
    * along, custom ones put their own in place of them. */
  function Carried(w: Way, i: nat, j: nat, errors: seq<string>): seq<string>
    requires i < |w.models| && j <= |w.models[i]|
    decreases |w.models[i]| - j
  {
    if j == |w.models[i]| then errors
    else Carried(w, i, j + 1, if w.models[i][j].Pipelined? then errors else Message(w.behave(i, j).inferError))
  }

  /** One component on a failed request. */
  lemma FailedStep(w: Way, i: nat, j: nat, r: Request)
    requires WayOk(w) && i < |w.models| && j < |w.models[i]| && r.exec == Ahead(w, i) && r.status == Failed
    ensures var errors := if w.models[i][j].Pipelined? then r.errors else Message(w.behave(i, j).inferError);
            StepAt(w, i, j, r) ==
            if j + 1 < |w.models[i]| then ToComponent(Request(r.exec, Failed, errors)) else ToFrontend(w.frontend, Failed, errors)
  {
    var errors := Message(w.behave(i, j).inferError);
    assert [] + errors == errors;
    assert Ahead(w, i)[|Ahead(w, i)| - 1] == w.frontend;
  }

  /** A failed request passes through the rest of its model and goes to the frontend. */
  lemma {:induction false} FailedGoesHome(w: Way, i: nat, j: nat, r: Request)
    requires WayOk(w) && i < |w.models| && j < |w.models[i]| && r.exec == Ahead(w, i) && r.status == Failed
    ensures Follow(w, i, j, r) == End(i, w.frontend, Failed, Carried(w, i, j, r.errors))
    decreases |w.models[i]| - j
  {
    hide StepAt, Ahead;
    FailedStep(w, i, j, r);
    var errors := if w.models[i][j].Pipelined? then r.errors else Message(w.behave(i, j).inferError);
    assert Carried(w, i, j, r.errors) == Carried(w, i, j + 1, errors);
    if j + 1 < |w.models[i]| {
      FailedGoesHome(w, i, j + 1, Request(r.exec, Failed, errors));
    }
  }

  /** A component's work on an unharmed request, short of sending it on. */
  lemma WorkOnUnharmed(c: Component, b: Behaviour, r: Request)
    requires (r.status == Pending || r.status == Processing) && r.errors == []
    ensures var m, faults := Before(c, b, r), Faults(c, b);
            if m.status == Failed then m == Request(r.exec, Failed, faults) && faults != []
            else Postprocessed(c, b, m) == Request(r.exec, if faults != [] then Failed else Processing, faults)
                 && m.exec == r.exec
  {
    assert forall xs: seq<string> {:trigger [] + xs} :: [] + xs == xs;
  }

  lemma AheadEnds(w: Way, i: nat)
    requires WayOk(w) && i < |w.models|
    ensures var ahead := Ahead(w, i);
            && ahead != [] && ahead[|ahead| - 1] == w.frontend
            && (i + 1 < |w.models| ==> ahead[0] == w.topics[i + 1] && ahead[1..] == Ahead(w, i + 1) && ahead[1..] != []
                                       && ahead[1..][|ahead| - 2] == w.frontend)
            && (i + 1 == |w.models| ==> ahead == [w.frontend] && ahead[1..] == [])
  {
  }

  /** One component on an unharmed request. */
  lemma UnharmedStep(w: Way, i: nat, j: nat, r: Request)
    requires WayOk(w) && i < |w.models| && j < |w.models[i]| && r.exec == Ahead(w, i)
    requires (r.status == Pending || r.status == Processing) && r.errors == []
    ensures var faults, n := Faults(w.models[i][j], w.behave(i, j)), |w.models[i]|;
            StepAt(w, i, j, r) ==
            if j + 1 < n then ToComponent(Request(r.exec, if faults != [] then Failed else Processing, faults))
            else if faults != [] then ToFrontend(w.frontend, Failed, faults)
            else if i + 1 < |w.models| then ToModel(w.topics[i + 1], Request(Ahead(w, i + 1), Pending, []))
            else ToFrontend(w.frontend, Completed, Message(w.behave(i, j).formatError))
  {
    hide Before, Postprocessed, Faults, Ahead, Message;
    AheadEnds(w, i);
    var c, b := w.models[i][j], w.behave(i, j);
    WorkOnUnharmed(c, b, r);
    assert Faults(c, b) + [] == Faults(c, b);
    assert [] + Message(b.formatError) == Message(b.formatError);
  }

  /** What a request that is unharmed when it enters component `j` of model `i` comes to. */
  lemma {:induction false} WayOfUnharmed(w: Way, i: nat, j: nat, r: Request)
    requires WayOk(w) && i < |w.models| && j < |w.models[i]| && r.exec == Ahead(w, i)
    requires (r.status == Pending || r.status == Processing) && r.errors == []
    ensures var k, n := FirstFault(w, i, j), |w.models[i]|;
            Follow(w, i, j, r) ==
            if k < n then End(i, w.frontend, Failed, Carried(w, i, k + 1, Faults(w.models[i][k], w.behave(i, k))))
            else if i + 1 < |w.models| then Follow(w, i + 1, 0, Request(Ahead(w, i + 1), Pending, []))
            else End(i, w.frontend, Completed, Message(w.behave(i, n - 1).formatError))
    decreases |w.models[i]| - j
  {
    hide StepAt, Ahead, Faults, Carried;
    UnharmedStep(w, i, j, r);
    NothingCarried(w, i, Faults(w.models[i][j], w.behave(i, j)));
    var faults := Faults(w.models[i][j], w.behave(i, j));
    if j + 1 < |w.models[i]| {
      if faults == [] {
        WayOfUnharmed(w, i, j + 1, Request(r.exec, Processing, []));
      } else {
        FailedGoesHome(w, i, j + 1, Request(r.exec, Failed, faults));
      }
    }
  }

  lemma NothingCarried(w: Way, i: nat, errors: seq<string>)
    requires i < |w.models|
    ensures Carried(w, i, |w.models[i]|, errors) == errors
  {
  }

  /** Where a request ends that is submitted unharmed to model `i`. */
  ghost predicate Ends(w: Way, i: nat, e: End)
    requires WayOk(w) && i < |w.models|
  {
    && i <= e.lastModel < |w.models|
    && e.topic == w.frontend
    && (forall l :: i <= l < e.lastModel ==> !FailsIn(w, l))
    && if FailsIn(w, e.lastModel) then
         var k := FirstFault(w, e.lastModel, 0);
         && e.status == Failed
         && e.errors == Carried(w, e.lastModel, k + 1, Faults(w.models[e.lastModel][k], w.behave(e.lastModel, k)))
       else
         && e.lastModel == |w.models| - 1
         && e.status == Completed
         && e.errors == Message(w.behave(e.lastModel, |w.models[e.lastModel]| - 1).formatError)
  }

  lemma {:induction false} FromModel(w: Way, i: nat, r: Request)
    requires WayOk(w) && i < |w.models| && r == Request(Ahead(w, i), Pending, [])
    ensures Ends(w, i, Follow(w, i, 0, r))
    decreases |w.models| - i
  {
    hide Carried, Faults, Ahead, Follow;
    WayOfUnharmed(w, i, 0, r);
    if !FailsIn(w, i) && i + 1 < |w.models| {
      FromModel(w, i + 1, Request(Ahead(w, i + 1), Pending, []));
    }
  }

  /** Every request comes back to the frontend exactly once. It visits the models of its pipeline
    * from the first up to the first that fails it, or all of them; it is reported as failed exactly
    * in the first case. */
  lemma EveryRequestComesBack(w: Way)
    requires WayOk(w)
    ensures Ends(w, 0, Follow(w, 0, 0, Submitted(w)))
  {
    FromModel(w, 0, Submitted(w));
  }

  predicate AllPipelined(w: Way, i: nat, j: nat)
    requires i < |w.models| && j <= |w.models[i]|
  {
    forall l :: j <= l < |w.models[i]| ==> w.models[i][l].Pipelined?
  }

  lemma {:induction false} CarriedKeeps(w: Way, i: nat, j: nat, errors: seq<string>)
    requires i < |w.models| && j <= |w.models[i]| && AllPipelined(w, i, j)
    ensures Carried(w, i, j, errors) == errors
    decreases |w.models[i]| - j
  {
    if j < |w.models[i]| {
      CarriedKeeps(w, i, j + 1, errors);
    }
  }

  lemma {:induction false} CarriedForgets(w: Way, i: nat, j: nat, errors: seq<string>, others: seq<string>)
    requires i < |w.models| && j <= |w.models[i]| && !AllPipelined(w, i, j)
    ensures Carried(w, i, j, errors) == Carried(w, i, j, others)
    decreases |w.models[i]| - j
  {
    if w.models[i][j].Pipelined? {
      CarriedForgets(w, i, j + 1, errors, others);
    }
  }

  /** Messages left by component `k` of a model leave the model as they are. */
  predicate Arrive(w: Way, i: nat, k: nat, errors: seq<string>)
    requires i < |w.models| && k < |w.models[i]|
  {
    Carried(w, i, k + 1, errors) == errors
  }

  /** The messages of the component that failed a request are the ones that arrive, whatever they
    * are, if and only if no custom component comes after it in the same model. */
  lemma MessagesArriveIff(w: Way, i: nat, k: nat)
    requires WayOk(w) && i < |w.models| && k < |w.models[i]|
    ensures AllPipelined(w, i, k + 1) <==> forall errors: seq<string> :: Arrive(w, i, k, errors)
  {
    if AllPipelined(w, i, k + 1) {
      forall errors: seq<string> ensures Arrive(w, i, k, errors) {
        CarriedKeeps(w, i, k + 1, errors);
      }
    } else {
      CarriedForgets(w, i, k + 1, [], ["?"]);
      assert !Arrive(w, i, k, []) || !Arrive(w, i, k, ["?"]);
    }
  }

  /** A result that could not be formatted is the one fault reported as completed: messages come with
    * status COMPLETED exactly when no component failed and the last formatting did. */
  lemma CompletedWithMessagesIff(w: Way)
    requires WayOk(w)
    ensures var e, i := Follow(w, 0, 0, Submitted(w)), |w.models| - 1;
            (e.status == Completed && e.errors != []) <==>
            (forall l :: 0 <= l < |w.models| ==> !FailsIn(w, l)) && w.behave(i, |w.models[i]| - 1).formatError.Some?
  {
    hide Follow, Carried, Faults, FirstFault;
    EveryRequestComesBack(w);
    var e := Follow(w, 0, 0, Submitted(w));
    if FailsIn(w, e.lastModel) {
      assert e.status == Failed;
    } else {
      assert forall l :: 0 <= l < |w.models| ==> !FailsIn(w, l);
    }
  }
}
