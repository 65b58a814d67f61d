/** The dispatch rules of the workflow interpreter in app/core/engine.py, as
    functions of the values they read, and the run they add up to. The engine
    classes (engine.dfy) are proved against these functions. */
module Interpreter {
  import opened Wrappers
  import opened Schemas
  import opened Registry

  /** A successor node name. None ends the run, and so does the empty name:
      the main loop runs `while current:`. */
  type Target = Option<string>

  predicate Live(t: Target) {
    t.Some? && t.value != ""
  }

  /** A config reference used as a successor. */
  function AsTarget(v: Value): Target {
    if v.Str? then Some(v.s) else None
  }

  /** `state.get(key)` for a hashable key: the state's keys are strings, so
      any other key misses. A list or dict key raises instead (see Guard). */
  function StateGet(state: State, key: Value): Value {
    if key.Str? && key.s in state then state[key.s] else Null
  }

  // ---------------------------------------------------------------------------
  // _compare

  /** Python's bools are the integers 0 and 1. */
  predicate IsNumeric(v: Value) {
    v.Int? || v.Bool?
  }

  function AsInt(v: Value): int
    requires IsNumeric(v)
  {
    if v.Int? then v.i else if v.b then 1 else 0
  }

  /** Python `==` on values: numbers by value (`1 == True`), lists item by
      item, dicts key by key, anything else structurally. */
  predicate PyEq(a: Value, b: Value)
    decreases a
  {
    if IsNumeric(a) && IsNumeric(b) then AsInt(a) == AsInt(b)
    else if a.List? && b.List? then
      |a.items| == |b.items| && forall i :: 0 <= i < |a.items| ==> PyEq(a.items[i], b.items[i])
    else if a.Dict? && b.Dict? then
      a.fields.Keys == b.fields.Keys && forall k :: k in a.fields ==> PyEq(a.fields[k], b.fields[k])
    else a == b
  }

  datatype Ordering = Less | Same | Greater

  function IntOrder(x: int, y: int): Ordering {
    if x < y then Less else if x > y then Greater else Same
  }

  /** Python's ordering of strings, code point by code point. */
  function StrOrder(a: string, b: string): Ordering {
    if a == [] && b == [] then Same
    else if a == [] then Less
    else if b == [] then Greater
    else if a[0] < b[0] then Less
    else if a[0] > b[0] then Greater
    else StrOrder(a[1..], b[1..])
  }

  /** How Python orders two values: numbers with numbers, strings with strings;
      any other pair raises TypeError. */
  function Order(a: Value, b: Value): Result<Ordering, RunError> {
    if IsNumeric(a) && IsNumeric(b) then Success(IntOrder(AsInt(a), AsInt(b)))
    else if a.Str? && b.Str? then Success(StrOrder(a.s, b.s))
    else Failure(Incomparable(a, b))
  }

  const OrderingOps: set<Value> := {Str(">"), Str(">="), Str("<"), Str("<=")}

  /** One ordering operator: false, without raising, when either side is None. */
  function Ordered(value: Value, target: Value, accepted: set<Ordering>): Result<bool, RunError> {
    if value.Null? || target.Null? then Success(false)
    else
      match Order(value, target)
      case Failure(e) => Failure(e)
      case Success(o) => Success(o in accepted)
  }

  /** `_compare(value, op, target)`. */
  function Compare(value: Value, op: Value, target: Value): (r: Result<bool, RunError>)
    ensures op == Str("==") ==> r == Success(PyEq(value, target))
    ensures op == Str("!=") ==> r == Success(!PyEq(value, target))
    ensures op in OrderingOps && (value.Null? || target.Null?) ==> r == Success(false)
    ensures IsNumeric(value) && IsNumeric(target) ==>
              && (op == Str(">") ==> r == Success(AsInt(value) > AsInt(target)))
              && (op == Str(">=") ==> r == Success(AsInt(value) >= AsInt(target)))
              && (op == Str("<") ==> r == Success(AsInt(value) < AsInt(target)))
              && (op == Str("<=") ==> r == Success(AsInt(value) <= AsInt(target)))
    ensures value.Str? && target.Str? ==>
              && (op == Str(">") ==> r == Success(StrOrder(value.s, target.s) == Greater))
              && (op == Str(">=") ==> r == Success(StrOrder(value.s, target.s) in {Greater, Same}))
              && (op == Str("<") ==> r == Success(StrOrder(value.s, target.s) == Less))
              && (op == Str("<=") ==> r == Success(StrOrder(value.s, target.s) in {Less, Same}))
    ensures op in OrderingOps && !value.Null? && !target.Null?
            && !(IsNumeric(value) && IsNumeric(target)) && !(value.Str? && target.Str?) ==>
              r == Failure(Incomparable(value, target))
    ensures r.Failure? && op in OrderingOps ==> r.error == Incomparable(value, target)
    ensures op !in OrderingOps && op != Str("==") && op != Str("!=") ==>
              r == Failure(UnsupportedOperator(op))
  {
    if op == Str("==") then Success(PyEq(value, target))
    else if op == Str("!=") then Success(!PyEq(value, target))
    else if op == Str(">") then Ordered(value, target, {Greater})
    else if op == Str(">=") then Ordered(value, target, {Greater, Same})
    else if op == Str("<") then Ordered(value, target, {Less})
    else if op == Str("<=") then Ordered(value, target, {Less, Same})
    else Failure(UnsupportedOperator(op))
  }

  /** Two strings order as Same exactly when they are equal. */
  lemma {:induction false} StrOrderSame(a: string, b: string)
    ensures StrOrder(a, b) == Same <==> a == b
  {
    if a != [] && b != [] && a[0] == b[0] {
      StrOrderSame(a[1..], b[1..]);
      assert a == [a[0]] + a[1..] && b == [b[0]] + b[1..];
    }
  }

  /** Swapping the operands of a string comparison mirrors the result. */
  lemma {:induction false} StrOrderFlip(a: string, b: string)
    ensures StrOrder(a, b) == Less <==> StrOrder(b, a) == Greater
  {
    if a != [] && b != [] && a[0] == b[0] {
      StrOrderFlip(a[1..], b[1..]);
    }
  }

  /** `a > b` and `b < a` agree: both succeed or fail together and give the
      same answer. */
  lemma CompareSwap(a: Value, b: Value)
    ensures Compare(a, Str(">"), b).Success? <==> Compare(b, Str("<"), a).Success?
    ensures Compare(a, Str(">"), b).Success? ==>
              Compare(a, Str(">"), b).value == Compare(b, Str("<"), a).value
  {
    if a.Str? && b.Str? {
      StrOrderFlip(a.s, b.s);
      StrOrderFlip(b.s, a.s);
    }
  }

  /** On two non-None values that can be ordered, `>=` is `>` or `==`. None is
      the exception: `None == None` holds while `None >= None` does not. */
  lemma CompareAtLeast(a: Value, b: Value)
    requires !a.Null? && !b.Null? && Order(a, b).Success?
    ensures Compare(a, Str(">="), b) ==
              Success(Compare(a, Str(">"), b).value || Compare(a, Str("=="), b).value)
  {
    if a.Str? && b.Str? {
      StrOrderSame(a.s, b.s);
    }
  }

  // ---------------------------------------------------------------------------
  // node dispatch

  /** What dispatching a node leaves behind: the successor, the state bag and
      the per-loop iteration counters. */
  datatype Step = Step(next: Target, state: State, counts: map<string, nat>)

  /** The condition shared by conditional and loop nodes:
      `_compare(state.get(key), config.get("op", "=="), config.get("value"))`.
      `state.get` raises TypeError on a list or dict key, which is unhashable. */
  function Guard(node: NodeDefinition, state: State): Result<bool, RunError> {
    var key := Get(node.config, "key");
    if key.List? || key.Dict? then Failure(Unhashable(key))
    else
      Compare(StateGet(state, key),
              GetOr(node.config, "op", Str("==")),
              Get(node.config, "value"))
  }

  /** `_evaluate_conditional`. */
  function EvaluateConditional(node: NodeDefinition, state: State): (r: Result<Target, RunError>)
    ensures Get(node.config, "key").Null? ==> r == Failure(MissingConditionalKey(node.name))
    ensures Get(node.config, "key").List? || Get(node.config, "key").Dict? ==>
              r == Failure(Unhashable(Get(node.config, "key")))
    ensures !Get(node.config, "key").Null? && Guard(node, state).Failure? ==>
              r == Failure(Guard(node, state).error)
    ensures !Get(node.config, "key").Null? && Guard(node, state).Success? ==>
              r == Success(if Guard(node, state).value then AsTarget(Get(node.config, "on_true"))
                           else if Truthy(Get(node.config, "on_false"))
                           then AsTarget(Get(node.config, "on_false")) else node.next)
    ensures r.Success? ==> Guard(node, state).Success?
    ensures r.Success? && Guard(node, state).value ==> r.value == AsTarget(Get(node.config, "on_true"))
    ensures r.Success? && !Guard(node, state).value ==>
              r.value == if Truthy(Get(node.config, "on_false"))
                         then AsTarget(Get(node.config, "on_false")) else node.next
  {
    var onTrue := Get(node.config, "on_true");
    var onFalse := Get(node.config, "on_false");
    if Get(node.config, "key").Null? then Failure(MissingConditionalKey(node.name))
    else
      match Guard(node, state)
      case Failure(e) => Failure(e)
      case Success(passed) =>
        Success(if passed then AsTarget(onTrue)
                else if Truthy(onFalse) then AsTarget(onFalse) else node.next)
  }

  const DefaultMaxIterations := 25

  /** `config.get("max_iterations", 25)` */
  function MaxIterations(node: NodeDefinition): Value {
    GetOr(node.config, "max_iterations", Int(DefaultMaxIterations))
  }

  /** `loop_counts.get(name, 0)` */
  function Count(counts: map<string, nat>, name: string): nat {
    if name in counts then counts[name] else 0
  }

  /** `_evaluate_loop`, with the loop counters it reads and writes. */
  function LoopStep(node: NodeDefinition, state: State, counts: map<string, nat>): (r: Result<Step, RunError>)
    ensures Get(node.config, "key").Null? || Get(node.config, "body").Null? ==>
              r == Failure(MissingLoopConfig(node.name))
    ensures !Get(node.config, "body").Null?
            && (Get(node.config, "key").List? || Get(node.config, "key").Dict?) ==>
              r == Failure(Unhashable(Get(node.config, "key")))
    ensures !Get(node.config, "key").Null? && !Get(node.config, "body").Null?
            && Guard(node, state).Failure? ==>
              r == Failure(Guard(node, state).error)
    ensures !Get(node.config, "key").Null? && !Get(node.config, "body").Null?
            && Guard(node, state) == Success(true) && !IsNumeric(MaxIterations(node)) ==>
              r == Failure(Incomparable(Int(Count(counts, node.name)), MaxIterations(node)))
    ensures r.Success? ==> r.value.state == state
    ensures r.Success? && r.value.counts != counts ==>
              && r.value.counts == counts[node.name := Count(counts, node.name) + 1]
              && IsNumeric(MaxIterations(node))
              && Count(counts, node.name) + 1 <= AsInt(MaxIterations(node))
              && r.value.next == AsTarget(Get(node.config, "body"))
  {
    var body := Get(node.config, "body");
    var after := Get(node.config, "after");
    var maxIterations := MaxIterations(node);
    if Get(node.config, "key").Null? || body.Null? then Failure(MissingLoopConfig(node.name))
    else
      var count := Count(counts, node.name);
      match Guard(node, state)
      case Failure(e) => Failure(e)
      case Success(continueLoop) =>
        if continueLoop && !IsNumeric(maxIterations) then
          Failure(Incomparable(Int(count), maxIterations))
        else if continueLoop && count >= AsInt(maxIterations) then
          Success(Step(AsTarget(after), state, counts))
        else if continueLoop then
          Success(Step(AsTarget(body), state, counts[node.name := count + 1]))
        else
          Success(Step(if Truthy(after) then AsTarget(after) else node.next, state, counts))
  }

  /** At the cap the loop is left through `after` (possibly no node at all,
      which ends the run); this is not a failure and no counter moves. */
  lemma LoopCapForcesAfter(node: NodeDefinition, state: State, counts: map<string, nat>)
    requires !Get(node.config, "key").Null? && !Get(node.config, "body").Null?
    requires Guard(node, state) == Success(true)
    requires IsNumeric(MaxIterations(node)) && Count(counts, node.name) >= AsInt(MaxIterations(node))
    ensures LoopStep(node, state, counts) == Success(Step(AsTarget(Get(node.config, "after")), state, counts))
  {
  }

  /** Below the cap a true condition enters the body and raises this node's
      counter by exactly one; the counters are never reset, so a loop entered
      again continues from its old count. */
  lemma LoopBodyIncrements(node: NodeDefinition, state: State, counts: map<string, nat>)
    requires !Get(node.config, "key").Null? && !Get(node.config, "body").Null?
    requires Guard(node, state) == Success(true)
    requires IsNumeric(MaxIterations(node)) && Count(counts, node.name) < AsInt(MaxIterations(node))
    ensures LoopStep(node, state, counts) ==
              Success(Step(AsTarget(Get(node.config, "body")), state,
                           counts[node.name := Count(counts, node.name) + 1]))
  {
  }

  /** A false condition leaves through `after`, or `next` when `after` is empty,
      and no counter moves. */
  lemma LoopExit(node: NodeDefinition, state: State, counts: map<string, nat>)
    requires !Get(node.config, "key").Null? && !Get(node.config, "body").Null?
    requires Guard(node, state) == Success(false)
    ensures LoopStep(node, state, counts) ==
              Success(Step(if Truthy(Get(node.config, "after")) then AsTarget(Get(node.config, "after"))
                           else node.next, state, counts))
  {
  }

  /** `_invoke_tool`: the tool must be registered; its normalised result is
      merged into the state bag, returned keys overwriting existing ones. The
      registry lookup raises TypeError on a list or dict name, which is
      unhashable. */
  function ToolUpdate(toolName: Value, state: State, reg: map<string, ToolFunction>): (r: Result<State, RunError>)
    ensures toolName.List? || toolName.Dict? ==> r == Failure(Unhashable(toolName))
    ensures !(toolName.List? || toolName.Dict?) && !(toolName.Str? && toolName.s in reg) ==>
              r == Failure(ToolNotRegistered(toolName))
    ensures toolName.Str? && toolName.s in reg ==>
              var outcome := Normalize(reg[toolName.s].run(state));
              && (outcome.Failure? ==> r == Failure(outcome.error))
              && (outcome.Success? ==>
                    && r.Success?
                    && r.value.Keys == state.Keys + outcome.value.Keys
                    && (forall k :: k in outcome.value ==> r.value[k] == outcome.value[k])
                    && (forall k :: k in state && k !in outcome.value ==> r.value[k] == state[k]))
  {
    if toolName.List? || toolName.Dict? then Failure(Unhashable(toolName))
    else if !(toolName.Str? && toolName.s in reg) then Failure(ToolNotRegistered(toolName))
    else
      match Normalize(reg[toolName.s].run(state))
      case Failure(e) => Failure(e)
      case Success(update) => Success(if update == map[] then state else state + update)
  }

  /** A tool whose result is empty leaves the state bag as it was. */
  lemma EmptyResultIsNoOp(toolName: Value, state: State, reg: map<string, ToolFunction>)
    requires toolName.Str? && toolName.s in reg
    requires reg[toolName.s].run(state) in {Returned(None), Returned(Some(map[]))}
    ensures ToolUpdate(toolName, state, reg) == Success(state)
  {
  }

  /** The successors a node can produce, whatever the state. */
  function Successors(node: NodeDefinition): set<Target> {
    match node.kind
    case Tool => {node.next}
    case Conditional =>
      var onFalse := Get(node.config, "on_false");
      {AsTarget(Get(node.config, "on_true")),
       if Truthy(onFalse) then AsTarget(onFalse) else node.next}
    case Loop =>
      var after := Get(node.config, "after");
      {AsTarget(Get(node.config, "body")), AsTarget(after),
       if Truthy(after) then AsTarget(after) else node.next}
  }

  /** `_execute_node`: dispatch by node type. Only a tool node changes the state
      bag, only a loop node changes the counters, and the successor is one the
      node's definition names. */
  function Dispatch(node: NodeDefinition, state: State, counts: map<string, nat>,
                    reg: map<string, ToolFunction>): (r: Result<Step, RunError>)
    ensures r.Success? ==> r.value.next in Successors(node)
    ensures r.Success? && node.kind != Tool ==> r.value.state == state
    ensures r.Success? && node.kind != Loop ==> r.value.counts == counts
    ensures node.kind == Tool && !Truthy(Get(node.config, "tool")) ==> r == Failure(MissingTool(node.name))
    ensures node.kind == Tool && r.Success? ==> r.value.next == node.next
    ensures r.Failure? ==> !r.error.UnknownNode?
  {
    match node.kind
    case Tool =>
      var toolName := Get(node.config, "tool");
      if !Truthy(toolName) then Failure(MissingTool(node.name))
      else (
        match ToolUpdate(toolName, state, reg)
        case Failure(e) => Failure(e)
        case Success(updated) => Success(Step(node.next, updated, counts)))
    case Conditional =>
      (match EvaluateConditional(node, state)
       case Failure(e) => Failure(e)
       case Success(next) => Success(Step(next, state, counts)))
    case Loop =>
      LoopStep(node, state, counts)
  }

  /** A successor of a node whose references resolve is empty or a node name. */
  lemma SuccessorsResolve(node: NodeDefinition, names: set<string>)
    requires NodeResolves(node, names)
    ensures forall t :: t in Successors(node) ==> !Live(t) || t.value in names
  {
  }

  // ---------------------------------------------------------------------------
  // node lookup

  /** `{node.name: node for node in graph.nodes}`: a later definition of a
      name replaces an earlier one. */
  function NodeLookup(nodes: seq<NodeDefinition>): (m: map<string, NodeDefinition>)
    ensures m.Keys == Names(nodes)
    ensures forall n :: n in m ==> m[n].name == n && m[n] in nodes
  {
    if nodes == [] then map[]
    else
      var init := nodes[..|nodes| - 1];
      var last := nodes[|nodes| - 1];
      assert Names(nodes) == Names(init) + {last.name} by {
        assert forall i :: 0 <= i < |init| ==> init[i] == nodes[i];
      }
      NodeLookup(init)[last.name := last]
  }

  /** The lookup holds, for each name, its last definition in the node list. */
  lemma {:induction false} LookupTakesLastDefinition(nodes: seq<NodeDefinition>, i: nat)
    requires i < |nodes|
    requires forall j :: i < j < |nodes| ==> nodes[j].name != nodes[i].name
    ensures NodeLookup(nodes)[nodes[i].name] == nodes[i]
  {
    var init := nodes[..|nodes| - 1];
    if i < |nodes| - 1 {
      assert init[i] == nodes[i];
      LookupTakesLastDefinition(init, i);
    }
  }

  predicate KeyedByName(lookup: map<string, NodeDefinition>) {
    forall n :: n in lookup ==> lookup[n].name == n
  }

  // ---------------------------------------------------------------------------
  // the main loop of _execute

  /** The messages `_notify_subscribers` publishes. */
  datatype Event =
    | RunStarted(runId: string)
    | NodeStarted(node: string, state: State)
    | NodeEnded(node: string, state: State)
    | RunCompleted(runId: string, state: State)
    | RunFailed(runId: string, error: RunError)

  predicate Terminal(e: Event) {
    e.RunCompleted? || e.RunFailed?
  }

  /** How the main loop stops: the successor is empty, a dispatch raised, or
      the fuel ran out while the run would have gone on. */
  datatype Ending = Finished | Aborted(error: RunError) | Suspended

  /** What the main loop produces: the log entries it appends, the events it
      publishes after `run_started`, the nodes it enters in order, and the
      state bag and loop counters it leaves. */
  datatype Trace = Trace(
    log: seq<LogEntry>,
    events: seq<Event>,
    visited: seq<string>,
    state: State,
    counts: map<string, nat>,
    ending: Ending)

  /** `log`, `events` and `visited` come before the rest of the run `t`. */
  function Glue(log: seq<LogEntry>, events: seq<Event>, visited: seq<string>, t: Trace): Trace {
    Trace(log + t.log, events + t.events, visited + t.visited, t.state, t.counts, t.ending)
  }

  /** The failing visit: its start entry, then the error entry that the
      exception handler appends, with the state as it was before the visit. */
  function Abort(runId: string, name: string, state: State, counts: map<string, nat>, e: RunError): Trace {
    Trace([LogEntry(name, Start, None, state), LogEntry(name, Error, Some(e), state)],
          [NodeStarted(name, state), RunFailed(runId, e)],
          [name], state, counts, Aborted(e))
  }

  /** The main loop of `_execute` from `current`, for at most `fuel` visits. */
  function Walk(lookup: map<string, NodeDefinition>, reg: map<string, ToolFunction>, runId: string,
                current: Target, state: State, counts: map<string, nat>, fuel: nat): Trace
    decreases fuel, 2
  {
    if !Live(current) then Trace([], [RunCompleted(runId, state)], [], state, counts, Finished)
    else if fuel == 0 then Trace([], [], [], state, counts, Suspended)
    else WalkFrom(lookup, reg, runId, current.value, state, counts, fuel)
  }

  /** The main loop's visit of the node `name`: the lookup, then the rest. */
  function WalkFrom(lookup: map<string, NodeDefinition>, reg: map<string, ToolFunction>, runId: string,
                    name: string, state: State, counts: map<string, nat>, fuel: nat): Trace
    requires fuel > 0
    decreases fuel, 1
  {
    if name !in lookup then Abort(runId, name, state, counts, UnknownNode(name))
    else WalkNode(lookup, reg, runId, name, lookup[name], state, counts, fuel)
  }

  /** The dispatch of the node found for `name`, then the rest of the run. */
  function WalkNode(lookup: map<string, NodeDefinition>, reg: map<string, ToolFunction>, runId: string,
                    name: string, node: NodeDefinition, state: State, counts: map<string, nat>, fuel: nat): Trace
    requires fuel > 0
    decreases fuel, 0
  {
    match Dispatch(node, state, counts, reg)
    case Failure(e) => Abort(runId, name, state, counts, e)
    case Success(step) =>
      Glue([LogEntry(name, Start, None, state), LogEntry(node.name, End, None, step.state)],
           [NodeStarted(name, state), NodeEnded(node.name, step.state)],
           [name],
           Walk(lookup, reg, runId, step.next, step.state, step.counts, fuel - 1))
  }

  /** One visit of the main loop, unfolded. */
  lemma WalkVisit(lookup: map<string, NodeDefinition>, reg: map<string, ToolFunction>, runId: string,
                  current: Target, state: State, counts: map<string, nat>, fuel: nat)
    requires KeyedByName(lookup) && Live(current) && fuel > 0 && current.value in lookup
    ensures var name := current.value;
            var r := Dispatch(lookup[name], state, counts, reg);
            var t := Walk(lookup, reg, runId, current, state, counts, fuel);
            && (r.Failure? ==> t == Abort(runId, name, state, counts, r.error))
            && (r.Success? ==>
                  t == Glue([LogEntry(name, Start, None, state), LogEntry(name, End, None, r.value.state)],
                            [NodeStarted(name, state), NodeEnded(name, r.value.state)],
                            [name],
                            Walk(lookup, reg, runId, r.value.next, r.value.state, r.value.counts, fuel - 1)))
  {
    var name := current.value;
    assert Walk(lookup, reg, runId, current, state, counts, fuel)
        == WalkNode(lookup, reg, runId, name, lookup[name], state, counts, fuel);
  }

  /** One visit of the main loop at `name`, with the outcome `r` of the
      lookup and dispatch named but not spelled out: a failure ends the run
      there; a success logs the visit and continues from the successor, which
      is one of the node's successors, with the counters kept in bounds. */
  lemma WalkOnce(lookup: map<string, NodeDefinition>, reg: map<string, ToolFunction>, runId: string,
                 name: string, state: State, counts: map<string, nat>, fuel: nat)
    returns (r: Result<Step, RunError>)
    requires KeyedByName(lookup) && name != "" && fuel > 0
    ensures r.Failure? ==>
              Walk(lookup, reg, runId, Some(name), state, counts, fuel) == Abort(runId, name, state, counts, r.error)
    ensures r.Failure? && name in lookup ==> !r.error.UnknownNode?
    ensures r.Success? ==>
              && name in lookup
              && Walk(lookup, reg, runId, Some(name), state, counts, fuel) ==
                 Glue([LogEntry(name, Start, None, state), LogEntry(name, End, None, r.value.state)],
                      [NodeStarted(name, state), NodeEnded(name, r.value.state)],
                      [name],
                      Walk(lookup, reg, runId, r.value.next, r.value.state, r.value.counts, fuel - 1))
              && r.value.next in Successors(lookup[name])
    ensures r.Success? && CountsBounded(lookup, counts) ==>
              CountsBounded(lookup, r.value.counts) && NeverReset(counts, r.value.counts)
  {
    if name !in lookup {
      r := Failure(UnknownNode(name));
    } else {
      r := Dispatch(lookup[name], state, counts, reg);
      WalkVisit(lookup, reg, runId, Some(name), state, counts, fuel);
      if CountsBounded(lookup, counts) {
        DispatchCounts(lookup, name, state, counts, reg);
      }
    }
  }

  /** The log of completed visits: per visit a start entry with the state
      before it and an end entry with the state after it, the next visit
      starting from the state the previous one ended with. */
  predicate Visits(log: seq<LogEntry>, visited: seq<string>, first: State, last: State)
    decreases visited
  {
    if visited == [] then log == [] && first == last
    else
      && |log| >= 2
      && log[0] == LogEntry(visited[0], Start, None, first)
      && log[1] == LogEntry(visited[0], End, None, log[1].snapshot)
      && Visits(log[2..], visited[1..], log[1].snapshot, last)
  }

  /** The log of a run: strictly paired start/end entries in visit order; a
      failed run adds one unmatched start and one error entry for the node that
      was being dispatched, carrying the error and the last state. */
  predicate LogShaped(t: Trace, first: State) {
    && (!t.ending.Aborted? ==> Visits(t.log, t.visited, first, t.state))
    && (t.ending.Aborted? ==>
          && |t.visited| >= 1 && |t.log| >= 2
          && Visits(t.log[..|t.log| - 2], t.visited[..|t.visited| - 1], first, t.state)
          && t.log[|t.log| - 2..] ==
               [LogEntry(t.visited[|t.visited| - 1], Start, None, t.state),
                LogEntry(t.visited[|t.visited| - 1], Error, Some(t.ending.error), t.state)])
  }

  lemma AbortIsLogShaped(runId: string, name: string, state: State, counts: map<string, nat>, e: RunError)
    ensures LogShaped(Abort(runId, name, state, counts, e), state)
  {
    var t := Abort(runId, name, state, counts, e);
    assert t.log[..|t.log| - 2] == [] && t.visited[..|t.visited| - 1] == [];
  }

  /** A completed visit in front of a well-shaped rest keeps the shape. */
  lemma {:induction false} VisitKeepsLogShape(name: string, before: State, after: State,
                                              events: seq<Event>, rest: Trace)
    requires LogShaped(rest, after)
    ensures LogShaped(Glue([LogEntry(name, Start, None, before), LogEntry(name, End, None, after)],
                           events, [name], rest), before)
  {
    var head := [LogEntry(name, Start, None, before), LogEntry(name, End, None, after)];
    var t := Glue(head, events, [name], rest);
    assert t.log[2..] == rest.log;
    assert t.visited[1..] == rest.visited;
    if t.ending.Aborted? {
      assert t.log[..|t.log| - 2] == head + rest.log[..|rest.log| - 2];
      assert t.log[..|t.log| - 2][2..] == rest.log[..|rest.log| - 2];
      assert t.visited[..|t.visited| - 1] == [name] + rest.visited[..|rest.visited| - 1];
      assert t.visited[..|t.visited| - 1][1..] == rest.visited[..|rest.visited| - 1];
      assert t.log[|t.log| - 2..] == rest.log[|rest.log| - 2..];
    }
  }

  /** Strictly paired log entries, the start snapshot of each visit being the
      state before dispatch and the end snapshot the state after it. */
  lemma {:induction false} WalkLog(lookup: map<string, NodeDefinition>, reg: map<string, ToolFunction>, runId: string,
                                   current: Target, state: State, counts: map<string, nat>, fuel: nat)
    requires KeyedByName(lookup)
    ensures LogShaped(Walk(lookup, reg, runId, current, state, counts, fuel), state)
    decreases fuel
  {
    if Live(current) && fuel > 0 {
      var name := current.value;
      var r := WalkOnce(lookup, reg, runId, name, state, counts, fuel);
      if r.Success? {
        var step := r.value;
        var rest := Walk(lookup, reg, runId, step.next, step.state, step.counts, fuel - 1);
        WalkLog(lookup, reg, runId, step.next, step.state, step.counts, fuel - 1);
        VisitKeepsLogShape(name, state, step.state, [NodeStarted(name, state), NodeEnded(name, step.state)], rest);
      } else {
        AbortIsLogShaped(runId, name, state, counts, r.error);
      }
    }
  }

  /** Each log entry is announced by the matching event. */
  predicate Announces(runId: string, entry: LogEntry, e: Event) {
    match entry.phase
    case Start => e == NodeStarted(entry.node, entry.snapshot)
    case End => e == NodeEnded(entry.node, entry.snapshot)
    case Error => e.RunFailed? && e.runId == runId && entry.detail == Some(e.error)
  }

  /** The events of a run follow its log one for one; `run_completed` or
      `run_failed` comes last and nowhere else, and a run cut short by the fuel
      has published neither. */
  predicate EventsShaped(runId: string, t: Trace) {
    && |t.events| == |t.log| + (if t.ending.Finished? then 1 else 0)
    && (forall k :: 0 <= k < |t.log| ==> Announces(runId, t.log[k], t.events[k]))
    && (forall k :: 0 <= k < |t.events| - 1 ==> !Terminal(t.events[k]))
    && (t.ending.Finished? ==> |t.events| > 0 && t.events[|t.events| - 1] == RunCompleted(runId, t.state))
    && (t.ending.Aborted? ==> |t.events| > 0 && t.events[|t.events| - 1] == RunFailed(runId, t.ending.error))
    && (t.ending.Suspended? ==> forall k :: 0 <= k < |t.events| ==> !Terminal(t.events[k]))
  }

  lemma {:induction false} VisitKeepsEventsShape(runId: string, name: string, before: State, after: State, rest: Trace)
    requires EventsShaped(runId, rest)
    ensures EventsShaped(runId, Glue([LogEntry(name, Start, None, before), LogEntry(name, End, None, after)],
                                     [NodeStarted(name, before), NodeEnded(name, after)], [name], rest))
  {
    var t := Glue([LogEntry(name, Start, None, before), LogEntry(name, End, None, after)],
                  [NodeStarted(name, before), NodeEnded(name, after)], [name], rest);
    forall k | 2 <= k < |t.log|
      ensures Announces(runId, t.log[k], t.events[k])
    {
      assert t.log[k] == rest.log[k - 2] && t.events[k] == rest.events[k - 2];
    }
    forall k | 2 <= k < |t.events|
      ensures t.events[k] == rest.events[k - 2]
    {
    }
  }

  lemma AbortIsEventsShaped(runId: string, name: string, state: State, counts: map<string, nat>, e: RunError)
    ensures EventsShaped(runId, Abort(runId, name, state, counts, e))
  {
  }

  /** Events mirror the log and the terminal event is last. */
  lemma {:induction false} WalkEvents(lookup: map<string, NodeDefinition>, reg: map<string, ToolFunction>, runId: string,
                                      current: Target, state: State, counts: map<string, nat>, fuel: nat)
    requires KeyedByName(lookup)
    ensures EventsShaped(runId, Walk(lookup, reg, runId, current, state, counts, fuel))
    decreases fuel
  {
    if Live(current) && fuel > 0 {
      var name := current.value;
      var r := WalkOnce(lookup, reg, runId, name, state, counts, fuel);
      if r.Success? {
        var step := r.value;
        var rest := Walk(lookup, reg, runId, step.next, step.state, step.counts, fuel - 1);
        WalkEvents(lookup, reg, runId, step.next, step.state, step.counts, fuel - 1);
        VisitKeepsEventsShape(runId, name, state, step.state, rest);
      } else {
        AbortIsEventsShaped(runId, name, state, counts, r.error);
      }
    }
  }

  /** Every stored loop counter belongs to a loop node with a numeric cap, and
      lies between 1 and that cap. */
  predicate CountsBounded(lookup: map<string, NodeDefinition>, counts: map<string, nat>) {
    forall n :: n in counts ==>
      && n in lookup
      && lookup[n].kind == Loop
      && IsNumeric(MaxIterations(lookup[n]))
      && 1 <= counts[n] <= AsInt(MaxIterations(lookup[n]))
  }

  /** Counters only grow: no entry is removed or lowered. */
  predicate NeverReset(before: map<string, nat>, after: map<string, nat>) {
    forall n :: n in before ==> n in after && after[n] >= before[n]
  }

  /** Counters that never went down between `a` and `b`, and between `b`
      and `c`, never went down between `a` and `c`. */
  lemma NeverResetChains(a: map<string, nat>, b: map<string, nat>, c: map<string, nat>)
    requires NeverReset(a, b) && NeverReset(b, c)
    ensures NeverReset(a, c)
  {
  }

  /** One visit keeps the counters bounded and never lowers one. */
  lemma DispatchCounts(lookup: map<string, NodeDefinition>, name: string, state: State,
                       counts: map<string, nat>, reg: map<string, ToolFunction>)
    requires KeyedByName(lookup) && name in lookup && CountsBounded(lookup, counts)
    ensures var r := Dispatch(lookup[name], state, counts, reg);
            r.Success? ==> CountsBounded(lookup, r.value.counts) && NeverReset(counts, r.value.counts)
  {
  }

  /** A run keeps every loop counter within its node's `max_iterations`, and
      never resets a counter. */
  lemma {:induction false} WalkCounts(lookup: map<string, NodeDefinition>, reg: map<string, ToolFunction>, runId: string,
                                      current: Target, state: State, counts: map<string, nat>, fuel: nat)
    requires KeyedByName(lookup) && CountsBounded(lookup, counts)
    ensures var t := Walk(lookup, reg, runId, current, state, counts, fuel);
            CountsBounded(lookup, t.counts) && NeverReset(counts, t.counts)
    decreases fuel
  {
    var t := Walk(lookup, reg, runId, current, state, counts, fuel);
    if Live(current) && fuel > 0 {
      var r := WalkOnce(lookup, reg, runId, current.value, state, counts, fuel);
      if r.Success? {
        var step := r.value;
        var rest := Walk(lookup, reg, runId, step.next, step.state, step.counts, fuel - 1);
        WalkCounts(lookup, reg, runId, step.next, step.state, step.counts, fuel - 1);
        assert t.counts == rest.counts;
        NeverResetChains(counts, step.counts, rest.counts);
      } else {
        assert t.counts == counts;
      }
    } else {
      assert t.counts == counts;
    }
  }

  /** On a well-formed graph the lookup `node_lookup[current]` never fails:
      every successor a visit produces is empty or the name of a node. */
  lemma {:induction false} WalkFindsEveryNode(g: GraphDefinition, reg: map<string, ToolFunction>, runId: string,
                                              current: Target, state: State, counts: map<string, nat>, fuel: nat)
    requires WellFormed(g)
    requires !Live(current) || current.value in Names(g.nodes)
    ensures var t := Walk(NodeLookup(g.nodes), reg, runId, current, state, counts, fuel);
            !(t.ending.Aborted? && t.ending.error.UnknownNode?)
    decreases fuel
  {
    var lookup := NodeLookup(g.nodes);
    if Live(current) && fuel > 0 {
      var name := current.value;
      var r := WalkOnce(lookup, reg, runId, name, state, counts, fuel);
      if r.Success? {
        ResolvesInGraph(g, lookup[name]);
        SuccessorsResolve(lookup[name], Names(g.nodes));
        WalkFindsEveryNode(g, reg, runId, r.value.next, r.value.state, r.value.counts, fuel - 1);
      }
    }
  }

  /** Every node of a well-formed graph passes its own checks. */
  lemma ResolvesInGraph(g: GraphDefinition, node: NodeDefinition)
    requires WellFormed(g) && node in g.nodes
    ensures NodeResolves(node, Names(g.nodes))
  {
    var i :| 0 <= i < |g.nodes| && g.nodes[i] == node;
  }

  /** A tool node naming an unregistered tool fails the run at that node; the
      last log entry is the error entry naming the missing tool. */
  lemma UnregisteredToolFailsRun(lookup: map<string, NodeDefinition>, reg: map<string, ToolFunction>, runId: string,
                                 name: string, state: State, counts: map<string, nat>, fuel: nat)
    requires name != "" && name in lookup && fuel > 0
    requires lookup[name].kind == Tool
    requires var tool := Get(lookup[name].config, "tool");
             Truthy(tool) && !(tool.List? || tool.Dict?) && !(tool.Str? && tool.s in reg)
    ensures var tool := Get(lookup[name].config, "tool");
            var t := Walk(lookup, reg, runId, Some(name), state, counts, fuel);
            && t.ending == Aborted(ToolNotRegistered(tool))
            && |t.log| > 0 && t.log[|t.log| - 1] == LogEntry(name, Error, Some(ToolNotRegistered(tool)), state)
  {
    var tool := Get(lookup[name].config, "tool");
    assert Dispatch(lookup[name], state, counts, reg) == Failure(ToolNotRegistered(tool));
    assert Walk(lookup, reg, runId, Some(name), state, counts, fuel)
        == WalkNode(lookup, reg, runId, name, lookup[name], state, counts, fuel);
  }

  /** The doubling tool of the worked example: `x` becomes `x * 2`. */
  function DoubleX(state: State): (r: ToolResult)
    ensures "x" in state && state["x"].Int? ==> r == Returned(Some(map["x" := Int(state["x"].i * 2)]))
  {
    if "x" in state && state["x"].Int? then Returned(Some(map["x" := Int(state["x"].i * 2)]))
    else Raised("x")
  }

  /** `A` doubles `x` and moves to `B`; `B` ends the run once `x >= 10` and
      otherwise goes back to `A`. */
  function DoublingGraph(): (g: GraphDefinition)
    ensures WellFormed(g)
  {
    var nodes := [
      NodeDefinition("A", Tool, Some("B"), map["tool" := Str("double")]),
      NodeDefinition("B", Conditional, None,
                     map["key" := Str("x"), "op" := Str(">="), "value" := Int(10), "on_true" := Null, "on_false" := Str("A")])];
    assert nodes[0].name == "A" && nodes[1].name == "B";
    assert "A" in Names(nodes) && "B" in Names(nodes);
    GraphDefinition("doubling", "A", nodes)
  }

  const DoublingTools: map<string, ToolFunction> := map["double" := ToolFunction(DoubleX, None)]

  const DoublingLookup: map<string, NodeDefinition> := NodeLookup(DoublingGraph().nodes)

  lemma DoublingToolStep(x: int)
    ensures "A" in DoublingLookup
    ensures Dispatch(DoublingLookup["A"], map["x" := Int(x)], map[], DoublingTools)
         == Success(Step(Some("B"), map["x" := Int(2 * x)], map[]))
  {
    var g := DoublingGraph();
    assert DoublingLookup == map["A" := g.nodes[0], "B" := g.nodes[1]];
    var s: State := map["x" := Int(x)];
    assert DoublingTools["double"].run(s) == DoubleX(s);
    assert s + map["x" := Int(x * 2)] == map["x" := Int(2 * x)];
  }

  lemma DoublingGateStep(x: int)
    ensures "B" in DoublingLookup
    ensures Dispatch(DoublingLookup["B"], map["x" := Int(x)], map[], DoublingTools)
         == Success(Step(if x >= 10 then None else Some("A"), map["x" := Int(x)], map[]))
  {
    var g := DoublingGraph();
    assert DoublingLookup == map["A" := g.nodes[0], "B" := g.nodes[1]];
    var node := g.nodes[1];
    var s: State := map["x" := Int(x)];
    assert StateGet(s, Str("x")) == Int(x);
    assert Guard(node, s) == Success(x >= 10);
    assert EvaluateConditional(node, s) == Success(if x >= 10 then None else Some("A"));
  }

  /** The run completes with final state `{x: x}` after visiting `visited`. */
  predicate CompletesWith(t: Trace, runId: string, visited: seq<string>, x: int) {
    && t.ending == Finished
    && t.visited == visited
    && t.state == map["x" := Int(x)]
    && |t.events| > 0 && t.events[|t.events| - 1] == RunCompleted(runId, map["x" := Int(x)])
  }

  /** One visit in front of a run that completes keeps it completing. */
  lemma DoublingVisit(runId: string, name: string, x: int, fuel: nat, next: Target, y: int,
                      rest: seq<string>, final: int)
    requires name in DoublingLookup && name != "" && fuel > 0
    requires Dispatch(DoublingLookup[name], map["x" := Int(x)], map[], DoublingTools)
             == Success(Step(next, map["x" := Int(y)], map[]))
    requires CompletesWith(Walk(DoublingLookup, DoublingTools, runId, next, map["x" := Int(y)], map[], fuel - 1),
                           runId, rest, final)
    ensures CompletesWith(Walk(DoublingLookup, DoublingTools, runId, Some(name), map["x" := Int(x)], map[], fuel),
                          runId, [name] + rest, final)
  {
    WalkVisit(DoublingLookup, DoublingTools, runId, Some(name), map["x" := Int(x)], map[], fuel);
    var t := Walk(DoublingLookup, DoublingTools, runId, next, map["x" := Int(y)], map[], fuel - 1);
    GlueCompletes(t, runId, rest, final,
                  [LogEntry(name, Start, None, map["x" := Int(x)]), LogEntry(name, End, None, map["x" := Int(y)])],
                  [NodeStarted(name, map["x" := Int(x)]), NodeEnded(name, map["x" := Int(y)])], name);
  }

  /** Putting a visit in front of a completing run keeps it completing. */
  lemma GlueCompletes(t: Trace, runId: string, rest: seq<string>, final: int,
                      log: seq<LogEntry>, events: seq<Event>, name: string)
    requires CompletesWith(t, runId, rest, final)
    ensures CompletesWith(Glue(log, events, [name], t), runId, [name] + rest, final)
  {
    var e := events + t.events;
    assert e[|e| - 1] == t.events[|t.events| - 1];
  }

  /** A visit of `A` in front of a run from `B` that completes. */
  lemma DoublingVisitA(runId: string, x: int, fuel: nat, rest: seq<string>, final: int)
    requires fuel > 0
    requires CompletesWith(Walk(DoublingLookup, DoublingTools, runId, Some("B"), map["x" := Int(2 * x)], map[], fuel - 1),
                           runId, rest, final)
    ensures CompletesWith(Walk(DoublingLookup, DoublingTools, runId, Some("A"), map["x" := Int(x)], map[], fuel),
                          runId, ["A"] + rest, final)
  {
    DoublingToolStep(x);
    DoublingVisit(runId, "A", x, fuel, Some("B"), 2 * x, rest, final);
  }

  /** A visit of `B` in front of the run from where the gate sends `x`. */
  lemma DoublingVisitB(runId: string, x: int, fuel: nat, rest: seq<string>, final: int)
    requires fuel > 0
    requires CompletesWith(Walk(DoublingLookup, DoublingTools, runId, if x >= 10 then None else Some("A"),
                                map["x" := Int(x)], map[], fuel - 1),
                           runId, rest, final)
    ensures CompletesWith(Walk(DoublingLookup, DoublingTools, runId, Some("B"), map["x" := Int(x)], map[], fuel),
                          runId, ["B"] + rest, final)
  {
    DoublingGateStep(x);
    DoublingVisit(runId, "B", x, fuel, if x >= 10 then None else Some("A"), x, rest, final);
  }

  /** Once doubling reaches the threshold, A then B end the run. */
  lemma DoublingLastRound(runId: string, x: int, fuel: nat)
    requires 2 * x >= 10 && fuel >= 2
    ensures CompletesWith(Walk(DoublingLookup, DoublingTools, runId, Some("A"), map["x" := Int(x)], map[], fuel),
                          runId, ["A", "B"], 2 * x)
  {
    var x2 := 2 * x;
    assert CompletesWith(Walk(DoublingLookup, DoublingTools, runId, None, map["x" := Int(x2)], map[], fuel - 2), runId, [], x2);
    DoublingVisitB(runId, x2, fuel - 1, [], x2);
    DoublingVisitA(runId, x, fuel, ["B"], x2);
  }

  /** From `{x: 3}` (or `{x: 4}`) the run visits A, B, A, B, sees `x` double
      twice and completes with `x` four times its start (12 from 3): the body of
      the cycle runs twice. */
  lemma DoublingScenario(runId: string, x: int, fuel: nat)
    requires 2 * x < 10 <= 4 * x && fuel >= 4
    ensures CompletesWith(Walk(DoublingLookup, DoublingTools, runId, Some(DoublingGraph().startAt),
                               map["x" := Int(x)], map[], fuel),
                          runId, ["A", "B", "A", "B"], 4 * x)
  {
    var x2 := 2 * x;
    DoublingLastRound(runId, x2, fuel - 2);
    assert 2 * x2 == 4 * x;
    DoublingVisitB(runId, x2, fuel - 1, ["A", "B"], 4 * x);
    DoublingVisitA(runId, x, fuel, ["B", "A", "B"], 4 * x);
    assert DoublingGraph().startAt == "A";
    assert ["A"] + ["B", "A", "B"] == ["A", "B", "A", "B"];
  }
}
