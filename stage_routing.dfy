/**
 * How a stage passes packets on (DataFilterBase.send_on and the
 * HiddenBranchRoute fork in data_fltr_base.py), how a stage reacts to a
 * message bottle, the order in which _recurse visits a pipeline's stages,
 * the refinery a stage reports to, and the closing sequence run by the
 * `closer` context manager.
 */
module StageRouting {
  import opened Errors
  import opened Values
  import opened Packets

  // =====================================================================
  // send_on and the hidden branch route

  /** What follows a stage: nothing, an ordinary stage, or a HiddenBranchRoute. */
  datatype NextKind = NoNext | PlainNext | BranchRouteNext

  /**
   * send_on(packet, fork_dest): with no next stage nothing is sent; 'main'
   * always goes to the next stage; 'branch' goes there only when it is a
   * HiddenBranchRoute and is dropped otherwise; any other destination is a
   * FilterRoutingError. A packet sent is stamped with its sender and its
   * fork destination.
   */
  function SendOn(sender: Value, next: NextKind, p: Packet, forkDest: string): (r: Result<Option<Packet>>)
    ensures next.NoNext? ==> r == Ok(None)
    ensures !next.NoNext? && forkDest != "main" && forkDest != "branch" ==> r == Err(FilterRoutingError)
    ensures r.Ok? && r.value.Some? <==>
      (forkDest == "main" && !next.NoNext?) || (forkDest == "branch" && next.BranchRouteNext?)
    ensures r.Ok? && r.value.Some? ==>
      r.value.value.fields == p.fields["sent_from" := sender]["fork_dest" := VStr(forkDest)]
  {
    if next.NoNext? then Ok(None)
    else
      var stamped := Packet(p.fields["sent_from" := sender]["fork_dest" := VStr(forkDest)]);
      if forkDest == "main" then Ok(Some(stamped))
      else if forkDest == "branch" then
        if next.BranchRouteNext? then Ok(Some(stamped)) else Ok(None)
      else Err(FilterRoutingError)
  }

  datatype Arm = MainArm | BranchArm

  /**
   * HiddenBranchRoute.filter_data: the packet's fork_dest picks the arm
   * ('main' the next stage, 'branch' the branch stage; anything else is a
   * KeyError), and fork_dest is cleared before the packet goes on.
   */
  function RouteFork(p: Packet): (r: Result<(Arm, Packet)>)
    ensures r.Ok? <==> "fork_dest" in p.fields && p.fields["fork_dest"] in {VStr("main"), VStr("branch")}
    ensures r.Err? ==> r.error == KeyError
    ensures r.Ok? ==> r.value.1.fields == p.fields["fork_dest" := VNone]
    ensures r.Ok? ==> (r.value.0 == MainArm <==> p.fields["fork_dest"] == VStr("main"))
  {
    var dest := if "fork_dest" in p.fields then p.fields["fork_dest"] else VNone;
    var cleared := Packet(p.fields["fork_dest" := VNone]);
    if dest == VStr("main") then Ok((MainArm, cleared))
    else if dest == VStr("branch") then Ok((BranchArm, cleared))
    else Err(KeyError)
  }

  /**
   * A stage followed by a fork: send_on to 'main' or 'branch' reaches the
   * arm of that name, with the packet's data kept and fork_dest cleared.
   */
  lemma SendThroughFork(sender: Value, p: Packet, forkDest: string)
    requires forkDest == "main" || forkDest == "branch"
    ensures SendOn(sender, BranchRouteNext, p, forkDest).Ok?
    ensures var q := SendOn(sender, BranchRouteNext, p, forkDest).value;
      q.Some? && RouteFork(q.value).Ok? &&
      RouteFork(q.value).value.0 == (if forkDest == "main" then MainArm else BranchArm) &&
      Data(RouteFork(q.value).value.1) == Data(p) &&
      RouteFork(q.value).value.1.fields["fork_dest"] == VNone
  {
    var q := SendOn(sender, BranchRouteNext, p, forkDest).value.value;
    assert q.fields["fork_dest"] == VStr(forkDest);
    if "data" in p.fields {
      assert q.fields["data"] == p.fields["data"];
    }
  }

  /** Without a fork after it, a stage's branch output goes nowhere. */
  lemma BranchWithoutForkDropped(sender: Value, p: Packet)
    ensures SendOn(sender, PlainNext, p, "branch") == Ok(None)
  {
  }

  // =====================================================================
  // Message bottles

  /** What a stage does with a message bottle, in order. */
  datatype Action = OpenBottle | SendOnTo(forkDest: string) | FilterDataCall

  function FieldOr(p: Packet, name: string): Value
  {
    if name in p.fields then p.fields[name] else VNone
  }

  /**
   * _process_message_bottle as evidently intended: at the stage whose name
   * is the destination the bottle is opened and goes no further; at a stage
   * whose type is the destination it is opened and, unless single_use, also
   * passed on down the branch and then main; a hidden branch route forks it
   * like data; any other stage passes it on down the branch and then main.
   * Each outcome is a list of actions. Reading `packet.destination` from a
   * bottle that has none raises AttributeError before anything happens; a
   * bottle with no single_use attribute at a matching type raises
   * AttributeError once it has been opened (HandleMessage opens it first).
   */
  function MessageActions(name: string, ftype: string, p: Packet): (r: Result<seq<Action>>)
    ensures "destination" !in p.fields ==> r == Err(AttributeError)
    ensures "destination" in p.fields && PyEq(p.fields["destination"], VStr(ftype)) &&
            !PyEq(p.fields["destination"], VStr(name)) ==>
      (r.Err? <==> "single_use" !in p.fields)
    ensures PyEq(FieldOr(p, "destination"), VStr(name)) ==> r == Ok([OpenBottle])
    ensures r.Ok? && OpenBottle in r.value ==>
      PyEq(FieldOr(p, "destination"), VStr(name)) || PyEq(FieldOr(p, "destination"), VStr(ftype))
    ensures (r.Ok? && !PyEq(FieldOr(p, "destination"), VStr(name)) &&
             !PyEq(FieldOr(p, "destination"), VStr(ftype)) && ftype != "hidden_branch_route") ==>
      r.value == [SendOnTo("branch"), SendOnTo("main")]
    ensures r.Err? ==> r.error == AttributeError
  {
    var dest := FieldOr(p, "destination");
    if "destination" !in p.fields then Err(AttributeError)
    else if PyEq(dest, VStr(name)) then Ok([OpenBottle])
    else if PyEq(dest, VStr(ftype)) then
      if "single_use" !in p.fields then Err(AttributeError)
      else if !Truthy(p.fields["single_use"]) then Ok([OpenBottle, SendOnTo("branch"), SendOnTo("main")])
      else Ok([OpenBottle])
    else if ftype == "hidden_branch_route" then Ok([FilterDataCall])
    else Ok([SendOnTo("branch"), SendOnTo("main")])
  }

  /**
   * _process_message_bottle as written: the pass-on after opening at a
   * matching type calls send_on with an `optional` keyword that send_on does
   * not accept, so a bottle that is not single-use raises TypeError there,
   * after being opened and before anything is passed on.
   */
  function MessageActionsAsWritten(name: string, ftype: string, p: Packet): (r: (seq<Action>, Option<PyError>))
    ensures MessageActions(name, ftype, p).Ok? && r.1.None? ==> r.0 == MessageActions(name, ftype, p).value
  {
    var dest := FieldOr(p, "destination");
    if "destination" !in p.fields then ([], Some(AttributeError))
    else if PyEq(dest, VStr(name)) then ([OpenBottle], None)
    else if PyEq(dest, VStr(ftype)) then
      if "single_use" !in p.fields then ([OpenBottle], Some(AttributeError))
      else if !Truthy(p.fields["single_use"]) then ([OpenBottle], Some(TypeError))
      else ([OpenBottle], None)
    else if ftype == "hidden_branch_route" then ([FilterDataCall], None)
    else ([SendOnTo("branch"), SendOnTo("main")], None)
  }

  /**
   * The defect: a multi-use bottle addressed to a stage type is opened by
   * the first stage of that type and then fails, so other stages of that
   * type never see it.
   */
  lemma MultiUseBottleFails(name: string, ftype: string, p: Packet)
    requires !PyEq(FieldOr(p, "destination"), VStr(name)) && PyEq(FieldOr(p, "destination"), VStr(ftype))
    requires "single_use" in p.fields && p.fields["single_use"] == VBool(false)
    ensures MessageActionsAsWritten(name, ftype, p) == ([OpenBottle], Some(TypeError))
    ensures MessageActions(name, ftype, p) == Ok([OpenBottle, SendOnTo("branch"), SendOnTo("main")])
  {
  }

  /**
   * open_message_bottle: 'reset' sets the attribute named by param_name to
   * new_value (a bottle lacking either is an AttributeError); any other
   * message raises MessageError. The write is to the attribute map only:
   * property setters and read-only properties are not modelled.
   */
  function OpenMessageBottle(attrs: map<string, Value>, p: Packet): (r: Result<map<string, Value>>)
    ensures FieldOr(p, "message") != VStr("reset") ==> r == Err(MessageError)
    ensures r.Ok? ==> FieldOr(p, "param_name").VStr? && r.value.Keys == attrs.Keys + {FieldOr(p, "param_name").s}
    ensures r.Ok? ==> r.value[FieldOr(p, "param_name").s] == FieldOr(p, "new_value") && "new_value" in p.fields
    ensures r.Ok? ==> forall k :: k in attrs && k != FieldOr(p, "param_name").s ==> r.value[k] == attrs[k]
  {
    if FieldOr(p, "message") != VStr("reset") then Err(MessageError)
    else if "param_name" !in p.fields || "new_value" !in p.fields then Err(AttributeError)
    else if !p.fields["param_name"].VStr? then Err(TypeError)
    else Ok(attrs[p.fields["param_name"].s := p.fields["new_value"]])
  }

  /**
   * The coroutine's dispatch on one incoming packet: data goes through
   * filter_data; a message bottle is handled by MessageActions, and opening
   * it is open_message_bottle. The result is the stage's new attributes and
   * the forwards it makes, in order. A bottle addressed to the stage's type
   * is opened before its single_use attribute is read, so an error from
   * opening it comes before the AttributeError of a missing single_use.
   */
  function HandleMessage(name: string, ftype: string, attrs: map<string, Value>, p: Packet)
    : (r: Result<(map<string, Value>, seq<Action>)>)
    requires IsMessage(p)
    ensures "destination" !in p.fields ==> r == Err(AttributeError)
    ensures PyEq(FieldOr(p, "destination"), VStr(name)) && FieldOr(p, "message") != VStr("reset") ==>
      r == Err(MessageError)
    ensures !PyEq(FieldOr(p, "destination"), VStr(name)) && PyEq(FieldOr(p, "destination"), VStr(ftype)) &&
            "single_use" !in p.fields ==>
      r == Err(if OpenMessageBottle(attrs, p).Err? then OpenMessageBottle(attrs, p).error else AttributeError)
    ensures PyEq(FieldOr(p, "destination"), VStr(name)) && r.Ok? ==>
      forall a :: a in r.value.1 ==> !a.SendOnTo?
    ensures (r.Ok? && !PyEq(FieldOr(p, "destination"), VStr(name)) &&
             !PyEq(FieldOr(p, "destination"), VStr(ftype)) && ftype != "hidden_branch_route") ==>
      r.value == (attrs, [SendOnTo("branch"), SendOnTo("main")])
  {
    match MessageActions(name, ftype, p)
    case Err(e) =>
      if "destination" in p.fields then
        match OpenMessageBottle(attrs, p)
        case Err(e2) => Err(e2)
        case Ok(_) => Err(e)
      else Err(e)
    case Ok(actions) =>
      if OpenBottle in actions then
        match OpenMessageBottle(attrs, p)
        case Err(e) => Err(e)
        case Ok(attrs2) => Ok((attrs2, actions[1..]))
      else Ok((attrs, actions))
  }

  // =====================================================================
  // _recurse

  /** A stage and, for a pipeline, its child stages in _ordered_filter_list order. */
  datatype StageTree = Node(name: string, children: seq<StageTree>)

  /** Levels of stages in the tree (a lone stage is 1). */
  function Height(t: StageTree): (h: nat)
    ensures h >= 1
    decreases t
  {
    1 + MaxHeight(t.children)
  }

  function MaxHeight(ts: seq<StageTree>): (h: nat)
    ensures forall i :: 0 <= i < |ts| ==> Height(ts[i]) <= h
    decreases ts
  {
    if ts == [] then 0
    else
      var a := Height(ts[0]);
      var b := MaxHeight(ts[1..]);
      assert forall i :: 1 <= i < |ts| ==> ts[i] == ts[1..][i - 1];
      if a >= b then a else b
  }

  /** The deepest level _recurse allows. */
  const MaxLevel: nat := 50

  /**
   * _recurse(func_names, preorder, level): the (stage, function) calls in the
   * order they happen. A stage at a level above 50 raises
   * PipelineRecursionError.
   */
  function Recurse(t: StageTree, funcs: seq<string>, preorder: bool, level: nat)
    : (r: Result<seq<(string, string)>>)
    decreases t, 1
  {
    if level > MaxLevel then Err(PipelineRecursionError)
    else
      var own := seq(|funcs|, i requires 0 <= i < |funcs| => (t.name, funcs[i]));
      match RecurseAll(t.children, funcs, preorder, level + 1)
      case Err(e) => Err(e)
      case Ok(below) => Ok(if preorder then own + below else below + own)
  }

  function RecurseAll(ts: seq<StageTree>, funcs: seq<string>, preorder: bool, level: nat)
    : (r: Result<seq<(string, string)>>)
    decreases ts, 0
  {
    if ts == [] then Ok([])
    else
      match Recurse(ts[0], funcs, preorder, level)
      case Err(e) => Err(e)
      case Ok(first) =>
        match RecurseAll(ts[1..], funcs, preorder, level)
        case Err(e) => Err(e)
        case Ok(rest) => Ok(first + rest)
  }

  /** _recurse succeeds exactly when the deepest stage sits at level 50 or above it. */
  lemma {:induction false} RecurseDepth(t: StageTree, funcs: seq<string>, preorder: bool, level: nat)
    ensures Recurse(t, funcs, preorder, level).Ok? <==> level + Height(t) <= MaxLevel + 1
    decreases t, 1
  {
    if level <= MaxLevel {
      RecurseAllDepth(t.children, funcs, preorder, level + 1);
    }
  }

  lemma {:induction false} RecurseAllDepth(ts: seq<StageTree>, funcs: seq<string>, preorder: bool, level: nat)
    ensures RecurseAll(ts, funcs, preorder, level).Ok? <==> ts == [] || level + MaxHeight(ts) <= MaxLevel + 1
    decreases ts, 0
  {
    if ts != [] {
      RecurseDepth(ts[0], funcs, preorder, level);
      RecurseAllDepth(ts[1..], funcs, preorder, level);
    }
  }

  /**
   * Preorder calls the stage's own functions before any child's; postorder
   * (used for connecting pipelines) after all of them.
   */
  lemma RecurseOwnFirstOrLast(t: StageTree, funcs: seq<string>, preorder: bool, level: nat)
    requires Recurse(t, funcs, preorder, level).Ok?
    ensures var calls := Recurse(t, funcs, preorder, level).value;
      |calls| >= |funcs| &&
      (preorder ==> forall i :: 0 <= i < |funcs| ==> calls[i] == (t.name, funcs[i])) &&
      (!preorder ==> forall i :: 0 <= i < |funcs| ==> calls[|calls| - |funcs| + i] == (t.name, funcs[i]))
  {
    var own := seq(|funcs|, i requires 0 <= i < |funcs| => (t.name, funcs[i]));
    var below := RecurseAll(t.children, funcs, preorder, level + 1).value;
    assert Recurse(t, funcs, preorder, level).value == if preorder then own + below else below + own;
    assert forall i :: 0 <= i < |funcs| ==> own[i] == (t.name, funcs[i]);
  }

  // =====================================================================
  // The refinery and shut_down

  /**
   * A stage or pipeline as far as the refinery goes: its parent pipeline,
   * the cached refinery, and the shutting-down flag a refinery keeps.
   */
  class StageNode {
    var pipeline: StageNode?
    var cachedRefinery: StageNode?
    var shuttingDownFlag: bool

    constructor(parent: StageNode?)
      ensures pipeline == parent && cachedRefinery == null && !shuttingDownFlag
    {
      pipeline := parent;
      cachedRefinery := null;
      shuttingDownFlag := false;
    }

    /**
     * _get_refinery: the top-level pipeline above this stage (the stage
     * itself when it has no parent), cached on first use. `chain` is this
     * stage and its enclosing pipelines, innermost first.
     */
    method GetRefinery(ghost chain: seq<StageNode>) returns (r: StageNode)
      requires |chain| >= 1 && chain[0] == this && ParentChain(chain)
      modifies chain
      ensures r == chain[|chain| - 1]
      ensures ParentChain(chain) && cachedRefinery == r
      ensures forall n :: n in chain ==> n.pipeline == old(n.pipeline)
      ensures forall n :: n in chain ==> n.shuttingDownFlag == old(n.shuttingDownFlag)
      decreases |chain|
    {
      if cachedRefinery == null {
        if pipeline != null {
          ParentChainTail(chain);
          r := pipeline.GetRefinery(chain[1..]);
        } else {
          r := this;
        }
        cachedRefinery := r;
      } else {
        r := cachedRefinery;
      }
    }

    /**
     * shut_down: the refinery's shutting_down flag is set (closing the
     * coroutines is not modelled); every stage under it then reads the
     * flag as set.
     */
    method ShutDown(ghost chain: seq<StageNode>)
      requires |chain| >= 1 && chain[0] == this && ParentChain(chain)
      modifies chain
      ensures ParentChain(chain)
      ensures ShuttingDown(chain)
      ensures forall n :: n in chain ==> (n.shuttingDownFlag <==> n == chain[|chain| - 1] || old(n.shuttingDownFlag))
    {
      var top := GetRefinery(chain);
      top.shuttingDownFlag := true;
    }
  }

  /**
   * The nodes of `chain` are each the next one's child, the last has no
   * parent, and a cached refinery is always the last.
   */
  ghost predicate ParentChain(chain: seq<StageNode>)
    reads chain
  {
    Linked(chain) &&
    (forall n :: n in chain ==> n.cachedRefinery == null || n.cachedRefinery == chain[|chain| - 1])
  }

  /** Each node's pipeline is the next node, and the last has none. */
  ghost predicate Linked(chain: seq<StageNode>)
    reads chain`pipeline
    decreases |chain|
  {
    |chain| >= 1 &&
    if chain[0].pipeline == null then |chain| == 1
    else |chain| >= 2 && chain[1] == chain[0].pipeline && Linked(chain[1..])
  }

  /** The shutting_down property: the refinery's flag. */
  ghost predicate ShuttingDown(chain: seq<StageNode>)
    requires |chain| >= 1
    reads chain
  {
    chain[|chain| - 1].shuttingDownFlag
  }

  lemma ParentChainTail(chain: seq<StageNode>)
    requires ParentChain(chain) && chain[0].pipeline != null
    ensures |chain| >= 2 && chain[1] == chain[0].pipeline && ParentChain(chain[1..])
  {
    assert forall n :: n in chain[1..] ==> n in chain;
  }
  // =====================================================================
  // Closing: _close, closer and HiddenBranchRoute._close

  /**
   * The chain of stages a close travels along, with pipelines flattened
   * (a pipeline's _close is its first stage's, and its last stage leads on
   * to what follows the pipeline). `started` says whether the stage's
   * coroutine exists; a Fork is a HiddenBranchRoute.
   */
  datatype Link =
    | End
    | Stage(name: string, started: bool, next: Link)
    | Fork(name: string, started: bool, branch: Link, next: Link)

  datatype CloseEvent = Flushed(stage: string) | Closed(stage: string)

  /**
   * What closing a chain does: a started stage's closer flushes its buffer,
   * runs close_filter and then closes the next stage; a HiddenBranchRoute
   * closes its branch before itself; a stage whose coroutine was never made
   * does nothing, so nothing after it is closed either.
   */
  function CloseEvents(l: Link): (ev: seq<CloseEvent>)
  {
    match l
    case End => []
    case Stage(n, started, next) =>
      if !started then [] else [Flushed(n), Closed(n)] + CloseEvents(next)
    case Fork(n, started, branch, next) =>
      var b := CloseEvents(branch);
      if !started then b else b + ([Flushed(n), Closed(n)] + CloseEvents(next))
  }

  /** Each stage's flush comes immediately before its own close_filter. */
  predicate Alternating(ev: seq<CloseEvent>)
    decreases |ev|
  {
    ev == [] || (|ev| >= 2 && ev[0].Flushed? && ev[1] == Closed(ev[0].stage) && Alternating(ev[2..]))
  }

  lemma {:induction false} AlternatingConcat(a: seq<CloseEvent>, b: seq<CloseEvent>)
    requires Alternating(a) && Alternating(b)
    ensures Alternating(a + b)
    decreases |a|
  {
    if a != [] {
      assert (a + b)[2..] == a[2..] + b;
      AlternatingConcat(a[2..], b);
    } else {
      assert a + b == b;
    }
  }

  /** However far it gets, closing flushes and closes stage by stage: the events pair up. */
  lemma {:induction false} CloseEventsAlternate(l: Link)
    ensures Alternating(CloseEvents(l))
  {
    match l
    case End =>
    case Stage(n, started, next) =>
      CloseEventsAlternate(next);
      if started {
        assert ([Flushed(n), Closed(n)] + CloseEvents(next))[2..] == CloseEvents(next);
      }
    case Fork(n, started, branch, next) =>
      CloseEventsAlternate(branch);
      CloseEventsAlternate(next);
      if started {
        assert ([Flushed(n), Closed(n)] + CloseEvents(next))[2..] == CloseEvents(next);
        AlternatingConcat(CloseEvents(branch), [Flushed(n), Closed(n)] + CloseEvents(next));
      }
  }

  /** The stages of a chain in the order closing reaches them, branches first. */
  function Names(l: Link): seq<string>
  {
    match l
    case End => []
    case Stage(n, _, next) => [n] + Names(next)
    case Fork(n, _, branch, next) => Names(branch) + [n] + Names(next)
  }

  predicate AllStarted(l: Link)
  {
    match l
    case End => true
    case Stage(_, started, next) => started && AllStarted(next)
    case Fork(_, started, branch, next) => started && AllStarted(branch) && AllStarted(next)
  }

  function ClosedStages(ev: seq<CloseEvent>): seq<string>
  {
    if ev == [] then []
    else (if ev[0].Closed? then [ev[0].stage] else []) + ClosedStages(ev[1..])
  }

  lemma {:induction false} ClosedStagesAppend(a: seq<CloseEvent>, b: seq<CloseEvent>)
    ensures ClosedStages(a + b) == ClosedStages(a) + ClosedStages(b)
    decreases |a|
  {
    if a != [] {
      assert (a + b)[0] == a[0];
      assert (a + b)[1..] == a[1..] + b;
      ClosedStagesAppend(a[1..], b);
    } else {
      assert a + b == b;
    }
  }

  /**
   * Closing a chain whose coroutines all exist closes every stage exactly
   * once, in chain order with each branch before its fork.
   */
  lemma {:induction false} CloseReachesAll(l: Link)
    requires AllStarted(l)
    ensures ClosedStages(CloseEvents(l)) == Names(l)
  {
    match l
    case End =>
    case Stage(n, _, next) =>
      CloseReachesAll(next);
      ClosedStagesAppend([Flushed(n), Closed(n)], CloseEvents(next));
      assert ClosedStages([Flushed(n), Closed(n)]) == [n] by {
        assert [Flushed(n), Closed(n)][1..] == [Closed(n)];
      }
    case Fork(n, _, branch, next) =>
      CloseReachesAll(branch);
      CloseReachesAll(next);
      var b := CloseEvents(branch);
      var rest := CloseEvents(next);
      ClosedStagesAppend([Flushed(n), Closed(n)], rest);
      ClosedStagesAppend(b, [Flushed(n), Closed(n)] + rest);
      assert ClosedStages([Flushed(n), Closed(n)]) == [n] by {
        assert [Flushed(n), Closed(n)][1..] == [Closed(n)];
      }
  }

  /** A stage never started stops the close there: nothing after it is closed. */
  lemma UnstartedStopsClose(n: string, next: Link)
    ensures CloseEvents(Stage(n, false, next)) == []
  {
  }

  /**
   * closer's handler: an error from the stage's processing escapes unless it
   * is in the FilterError family and the refinery is shutting down.
   */
  function CloserOutcome(raised: Option<PyError>, shuttingDown: bool): (r: Option<PyError>)
    ensures r.None? <==> raised.None? || (shuttingDown && IsFilterError(raised.value))
    ensures r.Some? ==> r == raised
  {
    match raised
    case None => None
    case Some(e) => if IsFilterError(e) && shuttingDown then None else raised
  }

  /** MessageError is not a FilterError: a bad message escapes even while shutting down. */
  lemma MessageErrorEscapes()
    ensures CloserOutcome(Some(MessageError), true) == Some(MessageError)
  {
  }
}
