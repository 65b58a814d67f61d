/** The stateful half of app/core/engine.py: per-run records, bounded
    subscriber queues, and the `WorkflowEngine` that stores graphs and runs and
    drives the main loop. Each method is proved against the pure semantics of
    module Interpreter. */
module Engine {
  import opened Wrappers
  import opened Schemas
  import opened Registry
  import opened Interpreter

  // ---------------------------------------------------------------------------
  // subscriber queues

  /** Every subscriber queue is created with `maxsize=100`. */
  const QueueCapacity: nat := 100

  /** `put_nowait` on a queue holding `items` with bound `capacity`: the message
      joins the queue when there is room, and is dropped (the `QueueFull` the
      engine swallows) when there is not. */
  function Deliver(items: seq<Event>, capacity: nat, e: Event): seq<Event> {
    if |items| < capacity then items + [e] else items
  }

  /** A queue after the messages `es` were published to it one by one. */
  function Fill(items: seq<Event>, capacity: nat, es: seq<Event>): seq<Event>
    decreases |es|
  {
    if es == [] then items
    else Deliver(Fill(items, capacity, es[..|es| - 1]), capacity, es[|es| - 1])
  }

  function Min(a: int, b: int): int {
    if a <= b then a else b
  }

  /** Publishing is at-most-once and order-preserving: a queue that was within
      its bound receives exactly the longest prefix of the messages that fits,
      and nothing after the first dropped message. */
  lemma {:induction false} FillKeepsPrefix(items: seq<Event>, capacity: nat, es: seq<Event>)
    requires |items| <= capacity
    ensures Fill(items, capacity, es) == items + es[..Min(|es|, capacity - |items|)]
    ensures |Fill(items, capacity, es)| <= capacity
    decreases |es|
  {
    if es != [] {
      var init := es[..|es| - 1];
      FillKeepsPrefix(items, capacity, init);
      assert init[..Min(|init|, capacity - |items|)] == es[..Min(|init|, capacity - |items|)];
      if |items| + |init| < capacity {
        assert es[..Min(|init|, capacity - |items|)] + [es[|es| - 1]] == es[..Min(|es|, capacity - |items|)];
      }
    }
  }

  /** Publishing one more message extends the fold by one delivery. */
  lemma FillSnoc(items: seq<Event>, capacity: nat, es: seq<Event>, e: Event)
    ensures Fill(items, capacity, es + [e]) == Deliver(Fill(items, capacity, es), capacity, e)
  {
    assert (es + [e])[..|es + [e]| - 1] == es;
  }

  /** An `asyncio.Queue(maxsize=capacity)` as seen by the publisher. */
  class Channel {
    const capacity: nat
    var items: seq<Event>

    constructor(capacity: nat)
      ensures this.capacity == capacity && items == []
    {
      this.capacity := capacity;
      items := [];
    }

    /** `put_nowait`; a full queue refuses the message instead of raising. */
    method PutNowait(e: Event) returns (accepted: bool)
      modifies this
      ensures accepted <==> |old(items)| < capacity
      ensures items == Deliver(old(items), capacity, e)
    {
      accepted := |items| < capacity;
      if accepted {
        items := items + [e];
      }
    }
  }

  // ---------------------------------------------------------------------------
  // runs

  /** The record of one run. The asyncio task handle is not part of the model. */
  class RunState {
    const runId: string
    const graphId: string
    var state: State
    var currentNode: Option<string>
    var status: RunStatus
    var log: seq<LogEntry>
    var loopCounts: map<string, nat>
    var subscribers: seq<Channel>

    /** No queue is subscribed twice: `subscribe` always creates a new one. */
    predicate Distinct()
      reads this
    {
      forall i, j :: 0 <= i < j < |subscribers| ==> subscribers[i] != subscribers[j]
    }

    constructor(runId: string, graphId: string, state: State, currentNode: Option<string>)
      ensures this.runId == runId && this.graphId == graphId
      ensures this.state == state && this.currentNode == currentNode
      ensures status == Pending && log == [] && loopCounts == map[] && subscribers == []
    {
      this.runId := runId;
      this.graphId := graphId;
      this.state := state;
      this.currentNode := currentNode;
      status := Pending;
      log := [];
      loopCounts := map[];
      subscribers := [];
    }
  }

  /** `_notify_subscribers`: every queue of the run is offered the message;
      full queues keep what they had, and the list of queues is not touched. */
  method NotifySubscribers(rs: RunState, e: Event)
    requires rs.Distinct()
    modifies rs.subscribers
    ensures Contents(rs.subscribers) == Offer(old(Contents(rs.subscribers)), Capacities(rs.subscribers), e)
  {
    for k := 0 to |rs.subscribers|
      invariant forall i :: 0 <= i < k ==>
                  rs.subscribers[i].items == Deliver(old(rs.subscribers[i].items), rs.subscribers[i].capacity, e)
      invariant forall i :: k <= i < |rs.subscribers| ==> rs.subscribers[i].items == old(rs.subscribers[i].items)
    {
      var _ := rs.subscribers[k].PutNowait(e);
    }
  }

  /** What a run's status becomes when the main loop stops. */
  function StatusAfter(ending: Ending): RunStatus {
    match ending
    case Finished => Completed
    case Aborted(_) => Failed
    case Suspended => Running
  }

  /** `get_run`'s response: the run's identifiers, status, state and log. */
  datatype RunResponse = RunResponse(runId: string, graphId: string, status: RunStatus, state: State, log: seq<LogEntry>)

  /** `RunState.__init__` as `run_graph` calls it: a copy of the initial state,
      or the empty state when there is none. */
  function InitialState(initialState: Option<State>): (s: State)
    ensures initialState.None? ==> s == map[]
    ensures initialState.Some? ==> s == initialState.value
  {
    if initialState.Some? then initialState.value else map[]
  }

  /** The contents of each queue, in subscription order. */
  ghost function Contents(subs: seq<Channel>): seq<seq<Event>>
    reads set c | c in subs
  {
    seq(|subs|, i requires 0 <= i < |subs| reads set c | c in subs => subs[i].items)
  }

  /** The bound of each queue, in subscription order. */
  function Capacities(subs: seq<Channel>): seq<nat> {
    seq(|subs|, i requires 0 <= i < |subs| => subs[i].capacity)
  }

  /** Every queue offered the message `e`. */
  function Offer(queues: seq<seq<Event>>, caps: seq<nat>, e: Event): seq<seq<Event>>
    requires |queues| == |caps|
  {
    seq(|queues|, i requires 0 <= i < |queues| => Deliver(queues[i], caps[i], e))
  }

  /** Every queue after the messages `es` were published one by one. */
  function FillAll(queues: seq<seq<Event>>, caps: seq<nat>, es: seq<Event>): seq<seq<Event>>
    requires |queues| == |caps|
  {
    seq(|queues|, i requires 0 <= i < |queues| => Fill(queues[i], caps[i], es))
  }

  /** One more publication extends every queue's share by that message. */
  lemma OfferFills(queues: seq<seq<Event>>, caps: seq<nat>, es: seq<Event>, e: Event)
    requires |queues| == |caps|
    ensures Offer(FillAll(queues, caps, es), caps, e) == FillAll(queues, caps, es + [e])
  {
    forall i | 0 <= i < |queues|
      ensures Deliver(Fill(queues[i], caps[i], es), caps[i], e) == Fill(queues[i], caps[i], es + [e])
    {
      FillSnoc(queues[i], caps[i], es, e);
    }
  }

  /** What one turn of the main loop does at node `name`: the lookup, then
      the dispatch of the node found. */
  function Outcome(lookup: map<string, NodeDefinition>, reg: map<string, ToolFunction>, name: string,
                   state: State, counts: map<string, nat>): Result<Step, RunError>
  {
    if name in lookup then Dispatch(lookup[name], state, counts, reg) else Failure(UnknownNode(name))
  }

  /** The main loop's bookkeeping for one turn at node `name`: if the whole
      run `goal` is what was logged and published so far followed by the walk
      from `name`, then after a successful turn it is what was logged and
      published including that turn followed by the walk from the successor;
      after a failed turn the run ends there, with the start and error
      entries and `run_failed`. */
  lemma Advance(goal: Trace, lookup: map<string, NodeDefinition>, reg: map<string, ToolFunction>,
                runId: string, name: string, state: State, counts: map<string, nat>, steps: nat,
                log: seq<LogEntry>, events: seq<Event>, visited: seq<string>)
    requires KeyedByName(lookup) && name != "" && steps > 0
    requires goal == Glue(log, events, visited, Walk(lookup, reg, runId, Some(name), state, counts, steps))
    ensures var r := Outcome(lookup, reg, name, state, counts);
            && (r.Success? ==>
                  goal == Glue(log + [LogEntry(name, Start, None, state)] + [LogEntry(name, End, None, r.value.state)],
                               events + [NodeStarted(name, state)] + [NodeEnded(name, r.value.state)],
                               visited + [name],
                               Walk(lookup, reg, runId, r.value.next, r.value.state, r.value.counts, steps - 1)))
            && (r.Failure? ==>
                  && goal.log == log + [LogEntry(name, Start, None, state)] + [LogEntry(name, Error, Some(r.error), state)]
                  && goal.events == events + [NodeStarted(name, state)] + [RunFailed(runId, r.error)]
                  && goal.state == state && goal.counts == counts && goal.ending == Aborted(r.error))
  {
    var r := Outcome(lookup, reg, name, state, counts);
    if r.Success? {
      AdvanceOnSuccess(goal, lookup, reg, runId, name, state, counts, steps, log, events, visited, r.value);
    } else {
      AdvanceOnFailure(goal, lookup, reg, runId, name, state, counts, steps, log, events, visited, r.error);
    }
  }

  lemma AdvanceOnSuccess(goal: Trace, lookup: map<string, NodeDefinition>, reg: map<string, ToolFunction>,
                         runId: string, name: string, state: State, counts: map<string, nat>, steps: nat,
                         log: seq<LogEntry>, events: seq<Event>, visited: seq<string>, step: Step)
    requires KeyedByName(lookup) && name != "" && steps > 0
    requires goal == Glue(log, events, visited, Walk(lookup, reg, runId, Some(name), state, counts, steps))
    requires Outcome(lookup, reg, name, state, counts) == Success(step)
    ensures goal == Glue(log + [LogEntry(name, Start, None, state)] + [LogEntry(name, End, None, step.state)],
                         events + [NodeStarted(name, state)] + [NodeEnded(name, step.state)],
                         visited + [name],
                         Walk(lookup, reg, runId, step.next, step.state, step.counts, steps - 1))
  {
    var rest := Walk(lookup, reg, runId, step.next, step.state, step.counts, steps - 1);
    var head := [LogEntry(name, Start, None, state), LogEntry(name, End, None, step.state)];
    var heard := [NodeStarted(name, state), NodeEnded(name, step.state)];
    WalkVisit(lookup, reg, runId, Some(name), state, counts, steps);
    assert log + (head + rest.log) == log + [LogEntry(name, Start, None, state)] + [LogEntry(name, End, None, step.state)] + rest.log;
    assert events + (heard + rest.events) == events + [NodeStarted(name, state)] + [NodeEnded(name, step.state)] + rest.events;
    assert visited + ([name] + rest.visited) == visited + [name] + rest.visited;
  }

  lemma AdvanceOnFailure(goal: Trace, lookup: map<string, NodeDefinition>, reg: map<string, ToolFunction>,
                         runId: string, name: string, state: State, counts: map<string, nat>, steps: nat,
                         log: seq<LogEntry>, events: seq<Event>, visited: seq<string>, e: RunError)
    requires KeyedByName(lookup) && name != "" && steps > 0
    requires goal == Glue(log, events, visited, Walk(lookup, reg, runId, Some(name), state, counts, steps))
    requires Outcome(lookup, reg, name, state, counts) == Failure(e)
    ensures goal.log == log + [LogEntry(name, Start, None, state)] + [LogEntry(name, Error, Some(e), state)]
    ensures goal.events == events + [NodeStarted(name, state)] + [RunFailed(runId, e)]
    ensures goal.state == state && goal.counts == counts && goal.ending == Aborted(e)
  {
    var a := Abort(runId, name, state, counts, e);
    if name in lookup {
      WalkVisit(lookup, reg, runId, Some(name), state, counts, steps);
    }
    assert log + a.log == log + [LogEntry(name, Start, None, state)] + [LogEntry(name, Error, Some(e), state)];
    assert events + a.events == events + [NodeStarted(name, state)] + [RunFailed(runId, e)];
  }

  /** Where the main loop stops without a failure: at a missing successor the
      run is completed and `run_completed` closes its events; out of fuel it
      is suspended and nothing more is logged or published. */
  lemma Halt(goal: Trace, lookup: map<string, NodeDefinition>, reg: map<string, ToolFunction>,
             runId: string, current: Target, state: State, counts: map<string, nat>, steps: nat,
             log: seq<LogEntry>, events: seq<Event>, visited: seq<string>)
    requires !Live(current) || steps == 0
    requires goal == Glue(log, events, visited, Walk(lookup, reg, runId, current, state, counts, steps))
    ensures goal.log == log && goal.state == state && goal.counts == counts
    ensures !Live(current) ==> goal.ending == Finished && goal.events == events + [RunCompleted(runId, state)]
    ensures Live(current) ==> goal.ending == Suspended && goal.events == events
  {
  }

  /** The position of the first occurrence of `x`. */
  function IndexOf<T(==)>(s: seq<T>, x: T): (i: nat)
    requires x in s
    ensures i < |s| && s[i] == x
    ensures forall j :: 0 <= j < i ==> s[j] != x
  {
    if s[0] == x then 0 else 1 + IndexOf(s[1..], x)
  }

  /** `list.remove`: the first occurrence of `x` is taken out, or nothing
      happens when `x` is absent (`unsubscribe` checks membership first). */
  function RemoveFirst<T(==)>(s: seq<T>, x: T): (r: seq<T>)
    ensures x !in s ==> r == s
    ensures x in s ==> exists i :: 0 <= i < |s| && s[i] == x && x !in s[..i] && r == s[..i] + s[i + 1..]
    ensures x in s ==> |r| == |s| - 1 && multiset(r) == multiset(s) - multiset{x}
  {
    if x in s then
      var i := IndexOf(s, x);
      assert s == s[..i] + [x] + s[i + 1..];
      assert x !in s[..i];
      s[..i] + s[i + 1..]
    else s
  }

  /** No element occurs twice. */
  predicate NoDuplicates<T(==)>(s: seq<T>) {
    forall i, j :: 0 <= i < j < |s| ==> s[i] != s[j]
  }

  /** Removing from a list without duplicates removes every occurrence, keeps
      the list free of duplicates, and a second removal changes nothing:
      `unsubscribe` is idempotent. */
  lemma RemoveFirstIdempotent<T>(s: seq<T>, x: T)
    requires NoDuplicates(s)
    ensures x !in RemoveFirst(s, x)
    ensures NoDuplicates(RemoveFirst(s, x))
    ensures RemoveFirst(RemoveFirst(s, x), x) == RemoveFirst(s, x)
  {
    if x in s {
      var i := IndexOf(s, x);
      assert RemoveFirst(s, x) == s[..i] + s[i + 1..];
      DropKeepsDistinct(s, i);
    }
  }

  /** Taking the element at `i` out of a list without duplicates leaves a
      list without duplicates in which that element no longer occurs. */
  lemma DropKeepsDistinct<T>(s: seq<T>, i: nat)
    requires i < |s| && NoDuplicates(s)
    ensures s[i] !in s[..i] + s[i + 1..]
    ensures NoDuplicates(s[..i] + s[i + 1..])
  {
    var r := s[..i] + s[i + 1..];
    forall j | 0 <= j < |r| ensures r[j] == s[Skip(j, i)] {
      if j < i {
        assert r[j] == s[..i][j];
      } else {
        assert r[j] == s[i + 1..][j - i];
      }
    }
    forall j, k | 0 <= j < k < |r| ensures r[j] != r[k] {
      assert Skip(j, i) < Skip(k, i);
    }
  }

  /** The position in a list of an element of the list with position `i`
      taken out. */
  function Skip(j: nat, i: nat): (k: nat)
    ensures k != i && (j < k <==> i <= j)
  {
    if j < i then j else j + 1
  }

  // ---------------------------------------------------------------------------
  // the engine

  class WorkflowEngine {
    const tools: ToolRegistry
    var graphs: map<string, GraphDefinition>
    var runs: map<string, RunState>
    /** Runs started without waiting whose task has not begun yet, with the
        graph that execution will use. */
    var scheduled: map<string, GraphDefinition>

    /** Stored graphs passed validation and are filed under their id; runs
        are filed under their id and subscribe each queue once; a scheduled
        task belongs to a run that is still pending. */
    ghost predicate Valid()
      reads this, runs.Values
    {
      && (forall id :: id in graphs ==> graphs[id].graphId == id && WellFormed(graphs[id]))
      && (forall id :: id in runs ==> runs[id].runId == id && runs[id].Distinct())
      && (forall id :: id in scheduled ==> id in runs && runs[id].status == Pending)
    }

    /** `WorkflowEngine(tools)`: the given registry, or a new empty one. */
    constructor(tools: Option<ToolRegistry>)
      ensures Valid()
      ensures tools.Some? ==> this.tools == tools.value
      ensures tools.None? ==> fresh(this.tools) && this.tools.tools == map[]
      ensures graphs == map[] && runs == map[] && scheduled == map[]
    {
      if tools.Some? {
        this.tools := tools.value;
      } else {
        this.tools := new ToolRegistry();
      }
      graphs := map[];
      runs := map[];
      scheduled := map[];
    }

    /** `register_graph`: files the graph under its id, replacing an earlier
        graph with the same id. A graph value has passed `validate_graph`. */
    method RegisterGraph(graph: GraphDefinition)
      requires Valid() && WellFormed(graph)
      modifies this
      ensures Valid()
      ensures graphs == old(graphs)[graph.graphId := graph]
      ensures GetGraph(graph.graphId) == Success(graph)
      ensures runs == old(runs) && scheduled == old(scheduled)
    {
      graphs := graphs[graph.graphId := graph];
    }

    /** `get_graph`: the stored graph, or the `KeyError` for an unknown id. */
    function GetGraph(graphId: string): (r: Result<GraphDefinition, RunError>)
      reads this
      ensures r.Failure? <==> graphId !in graphs
      ensures r.Failure? ==> r.error == UnknownGraph(graphId)
      ensures r.Success? ==> r.value == graphs[graphId]
    {
      if graphId in graphs then Success(graphs[graphId]) else Failure(UnknownGraph(graphId))
    }

    /** `get_run`: a snapshot of the run's record, or the `KeyError` for an
        unknown id. */
    function GetRun(runId: string): (r: Result<RunResponse, RunError>)
      reads this, runs.Values
      ensures r.Failure? <==> runId !in runs
      ensures r.Failure? ==> r.error == UnknownRun(runId)
      ensures r.Success? ==>
                var rs := runs[runId];
                r.value == RunResponse(rs.runId, rs.graphId, rs.status, rs.state, rs.log)
    {
      if runId in runs then
        var rs := runs[runId];
        Success(RunResponse(rs.runId, rs.graphId, rs.status, rs.state, rs.log))
      else Failure(UnknownRun(runId))
    }

    /** `_invoke_tool`: the tool must be registered, and a list or dict name
        is unhashable; a truthy result is merged into the run's state. */
    method InvokeTool(toolName: Value, rs: RunState) returns (err: Option<RunError>)
      modifies rs`state
      ensures var r := ToolUpdate(toolName, old(rs.state), tools.tools);
              && (r.Success? ==> err.None? && rs.state == r.value)
              && (r.Failure? ==> err == Some(r.error) && rs.state == old(rs.state))
    {
      if toolName.List? || toolName.Dict? {
        return Some(Unhashable(toolName));
      }
      if !toolName.Str? || tools.Get(toolName.s).None? {
        return Some(ToolNotRegistered(toolName));
      }
      var result := tools.Invoke(toolName.s, rs.state);
      if result.Failure? {
        return Some(result.error);
      }
      if result.value != map[] {
        rs.state := rs.state + result.value;
      }
      return None;
    }

    /** `_evaluate_loop`, writing the run's loop counter. */
    method EvaluateLoop(node: NodeDefinition, rs: RunState) returns (next: Target, err: Option<RunError>)
      modifies rs`loopCounts
      ensures var r := LoopStep(node, rs.state, old(rs.loopCounts));
              && (r.Success? ==> err.None? && next == r.value.next && rs.loopCounts == r.value.counts)
              && (r.Failure? ==> err == Some(r.error) && rs.loopCounts == old(rs.loopCounts))
    {
      var key := Get(node.config, "key");
      var body := Get(node.config, "body");
      var after := Get(node.config, "after");
      var maxIterations := MaxIterations(node);
      next := None;
      if key.Null? || body.Null? {
        return None, Some(MissingLoopConfig(node.name));
      }
      var count := Count(rs.loopCounts, node.name);
      var continueLoop := Guard(node, rs.state);
      if continueLoop.Failure? {
        return None, Some(continueLoop.error);
      }
      if continueLoop.value && !IsNumeric(maxIterations) {
        return None, Some(Incomparable(Int(count), maxIterations));
      }
      if continueLoop.value && count >= AsInt(maxIterations) {
        return AsTarget(after), None;
      }
      if continueLoop.value {
        rs.loopCounts := rs.loopCounts[node.name := count + 1];
        return AsTarget(body), None;
      }
      return (if Truthy(after) then AsTarget(after) else node.next), None;
    }

    /** `_execute_node`: dispatch on the node type. */
    method ExecuteNode(node: NodeDefinition, rs: RunState) returns (next: Target, err: Option<RunError>)
      modifies rs`state, rs`loopCounts
      ensures var r := Dispatch(node, old(rs.state), old(rs.loopCounts), tools.tools);
              && (r.Success? ==> err.None? && next == r.value.next
                                 && rs.state == r.value.state && rs.loopCounts == r.value.counts)
              && (r.Failure? ==> err == Some(r.error)
                                 && rs.state == old(rs.state) && rs.loopCounts == old(rs.loopCounts))
    {
      next := None;
      match node.kind
      case Tool =>
        var toolName := Get(node.config, "tool");
        if !Truthy(toolName) {
          return None, Some(MissingTool(node.name));
        }
        err := InvokeTool(toolName, rs);
        next := node.next;
      case Conditional =>
        var r := EvaluateConditional(node, rs.state);
        if r.Failure? {
          err := Some(r.error);
        } else {
          next, err := r.value, None;
        }
      case Loop =>
        next, err := EvaluateLoop(node, rs);
    }
  
    /** The start of a turn: the current node, its start entry and
        `node_start` offered to every queue. */
    method Enter(rs: RunState, name: string, ghost orig: seq<seq<Event>>, ghost published: seq<Event>)
      requires rs.Distinct() && |orig| == |rs.subscribers|
      requires Contents(rs.subscribers) == FillAll(orig, Capacities(rs.subscribers), published)
      modifies rs`currentNode, rs`log, rs.subscribers
      ensures rs.currentNode == Some(name)
      ensures rs.log == old(rs.log) + [LogEntry(name, Start, None, rs.state)]
      ensures Contents(rs.subscribers) ==
              FillAll(orig, Capacities(rs.subscribers), published + [NodeStarted(name, rs.state)])
    {
      rs.currentNode := Some(name);
      rs.log := rs.log + [LogEntry(name, Start, None, rs.state)];
      NotifySubscribers(rs, NodeStarted(name, rs.state));
      OfferFills(orig, Capacities(rs.subscribers), published, NodeStarted(name, rs.state));
    }

    /** The end of a successful turn: the end entry and `node_end`. */
    method Leave(rs: RunState, name: string, ghost orig: seq<seq<Event>>, ghost published: seq<Event>)
      requires rs.Distinct() && |orig| == |rs.subscribers|
      requires Contents(rs.subscribers) == FillAll(orig, Capacities(rs.subscribers), published)
      modifies rs`log, rs.subscribers
      ensures rs.log == old(rs.log) + [LogEntry(name, End, None, rs.state)]
      ensures Contents(rs.subscribers) ==
              FillAll(orig, Capacities(rs.subscribers), published + [NodeEnded(name, rs.state)])
    {
      rs.log := rs.log + [LogEntry(name, End, None, rs.state)];
      NotifySubscribers(rs, NodeEnded(name, rs.state));
      OfferFills(orig, Capacities(rs.subscribers), published, NodeEnded(name, rs.state));
    }

    /** The `except` handler of `_execute`: the failed status, the error
        entry, no current node, and `run_failed`. */
    method Fail(rs: RunState, name: string, e: RunError, ghost orig: seq<seq<Event>>, ghost published: seq<Event>)
      requires rs.Distinct() && |orig| == |rs.subscribers|
      requires Contents(rs.subscribers) == FillAll(orig, Capacities(rs.subscribers), published)
      modifies rs`status, rs`log, rs`currentNode, rs.subscribers
      ensures rs.status == Failed && rs.currentNode.None?
      ensures rs.log == old(rs.log) + [LogEntry(name, Error, Some(e), rs.state)]
      ensures Contents(rs.subscribers) ==
              FillAll(orig, Capacities(rs.subscribers), published + [RunFailed(rs.runId, e)])
    {
      rs.status := Failed;
      rs.log := rs.log + [LogEntry(name, Error, Some(e), rs.state)];
      rs.currentNode := None;
      NotifySubscribers(rs, RunFailed(rs.runId, e));
      OfferFills(orig, Capacities(rs.subscribers), published, RunFailed(rs.runId, e));
    }

    /** One turn of the `while current:` loop of `_execute` at node `name`,
        together with the `except` handler when the turn raises. The queues
        held `orig` and then `published`. */
    method Visit(lookup: map<string, NodeDefinition>, rs: RunState, name: string,
                 ghost orig: seq<seq<Event>>, ghost published: seq<Event>) returns (next: Target, err: Option<RunError>)
      requires KeyedByName(lookup) && rs.Distinct() && |orig| == |rs.subscribers|
      requires Contents(rs.subscribers) == FillAll(orig, Capacities(rs.subscribers), published)
      modifies rs, rs.subscribers
      ensures rs.subscribers == old(rs.subscribers)
      ensures var r := Outcome(lookup, tools.tools, name, old(rs.state), old(rs.loopCounts));
              && (r.Success? ==>
                    && err.None? && next == r.value.next
                    && rs.state == r.value.state && rs.loopCounts == r.value.counts
                    && rs.status == old(rs.status)
                    && rs.log == old(rs.log) + [LogEntry(name, Start, None, old(rs.state))]
                                             + [LogEntry(name, End, None, rs.state)]
                    && Contents(rs.subscribers) ==
                       FillAll(orig, Capacities(rs.subscribers),
                               published + [NodeStarted(name, old(rs.state))] + [NodeEnded(name, rs.state)]))
              && (r.Failure? ==>
                    && err == Some(r.error)
                    && rs.state == old(rs.state) && rs.loopCounts == old(rs.loopCounts)
                    && rs.status == Failed && rs.currentNode.None?
                    && rs.log == old(rs.log) + [LogEntry(name, Start, None, old(rs.state))]
                                             + [LogEntry(name, Error, Some(r.error), rs.state)]
                    && Contents(rs.subscribers) ==
                       FillAll(orig, Capacities(rs.subscribers),
                               published + [NodeStarted(name, old(rs.state))] + [RunFailed(rs.runId, r.error)]))
    {
      Enter(rs, name, orig, published);
      ghost var entered := published + [NodeStarted(name, rs.state)];
      if name !in lookup {
        err := Some(UnknownNode(name));
        next := None;
      } else {
        next, err := ExecuteNode(lookup[name], rs);
      }
      if err.None? {
        Leave(rs, name, orig, entered);
      } else {
        Fail(rs, name, err.value, orig, entered);
      }
    }

    /** One turn of the main loop at `current`, with the bookkeeping of
        `Advance`: the run `goal` is what was logged and published so far
        followed by the walk from `current`; after a successful turn it is the
        same with the turn moved into what was logged and published, and
        after a failed one the record holds the end of `goal`. */
    method Turn(lookup: map<string, NodeDefinition>, rs: RunState, current: Target, steps: nat,
                ghost reg: map<string, ToolFunction>, ghost goal: Trace, ghost orig: seq<seq<Event>>, ghost published: seq<Event>, ghost visited: seq<string>)
      returns (next: Target, failure: Option<RunError>, ghost published': seq<Event>, ghost visited': seq<string>)
      requires KeyedByName(lookup) && Live(current) && steps > 0 && reg == tools.tools
      requires rs.Distinct() && |orig| == |rs.subscribers|
      requires goal == Glue(rs.log, published, visited,
                            Walk(lookup, reg, rs.runId, current, rs.state, rs.loopCounts, steps))
      requires Contents(rs.subscribers) == FillAll(orig, Capacities(rs.subscribers), published)
      modifies rs, rs.subscribers
      ensures rs.subscribers == old(rs.subscribers)
      ensures failure.None? ==>
                && goal == Glue(rs.log, published', visited',
                                Walk(lookup, reg, rs.runId, next, rs.state, rs.loopCounts, steps - 1))
                && rs.status == old(rs.status)
                && Contents(rs.subscribers) == FillAll(orig, Capacities(rs.subscribers), published')
      ensures failure.Some? ==>
                && goal.ending == Aborted(failure.value)
                && rs.log == goal.log && rs.state == goal.state && rs.loopCounts == goal.counts
                && rs.status == Failed && rs.currentNode.None?
                && Contents(rs.subscribers) == FillAll(orig, Capacities(rs.subscribers), goal.events)
    {
      var name := current.value;
      ghost var before := rs.state;
      Advance(goal, lookup, reg, rs.runId, name, rs.state, rs.loopCounts, steps, rs.log, published, visited);
      next, failure := Visit(lookup, rs, name, orig, published);
      published' := published + [NodeStarted(name, before)] + [NodeEnded(name, rs.state)];
      visited' := visited + [name];
    }

    /** The `while current:` loop of `_execute`, for at most `fuel` turns,
        with the bookkeeping of `Turn`. It stops at a failure, at a missing
        successor, or out of fuel. */
    method Drive(lookup: map<string, NodeDefinition>, rs: RunState, start: Target, fuel: nat,
                 ghost reg: map<string, ToolFunction>, ghost goal: Trace, ghost orig: seq<seq<Event>>,
                 ghost start': seq<Event>)
      returns (failure: Option<RunError>, current: Target, steps: nat, ghost published: seq<Event>, ghost visited: seq<string>)
      requires KeyedByName(lookup) && reg == tools.tools && rs.Distinct() && |orig| == |rs.subscribers|
      requires goal == Glue(rs.log, start', [], Walk(lookup, reg, rs.runId, start, rs.state, rs.loopCounts, fuel))
      requires rs.status == Running
      requires Contents(rs.subscribers) == FillAll(orig, Capacities(rs.subscribers), start')
      modifies rs, rs.subscribers
      ensures rs.subscribers == old(rs.subscribers)
      ensures failure.None? ==>
                && (!Live(current) || steps == 0)
                && goal == Glue(rs.log, published, visited,
                                Walk(lookup, reg, rs.runId, current, rs.state, rs.loopCounts, steps))
                && rs.status == Running
                && Contents(rs.subscribers) == FillAll(orig, Capacities(rs.subscribers), published)
      ensures failure.Some? ==>
                && goal.ending == Aborted(failure.value)
                && rs.log == goal.log && rs.state == goal.state && rs.loopCounts == goal.counts
                && rs.status == Failed && rs.currentNode.None?
                && Contents(rs.subscribers) == FillAll(orig, Capacities(rs.subscribers), goal.events)
    {
      ghost var caps := Capacities(rs.subscribers);
      current, steps, published, visited := start, fuel, start', [];
      failure := None;
      while failure.None? && Live(current) && steps > 0
        invariant rs.subscribers == old(rs.subscribers) && rs.Distinct()
        invariant failure.None? ==>
                    && goal == Glue(rs.log, published, visited,
                                    Walk(lookup, reg, rs.runId, current, rs.state, rs.loopCounts, steps))
                    && rs.status == Running
                    && Contents(rs.subscribers) == FillAll(orig, caps, published)
        invariant failure.Some? ==>
                    && goal.ending == Aborted(failure.value)
                    && rs.log == goal.log && rs.state == goal.state && rs.loopCounts == goal.counts
                    && rs.status == Failed && rs.currentNode.None?
                    && Contents(rs.subscribers) == FillAll(orig, caps, goal.events)
        decreases steps + (if failure.None? then 1 else 0)
      {
        var next;
        next, failure, published, visited := Turn(lookup, rs, current, steps, reg, goal, orig, published, visited);
        if failure.None? {
          current := next;
          steps := steps - 1;
        }
      }
    }

    /** The end of `_execute` once the loop stopped: the run that `goal`
        describes is written out. At a missing successor the record is
        completed and `run_completed` is offered to every queue; out of fuel
        nothing changes; after a failure the handler has already run. */
    method Conclude(lookup: map<string, NodeDefinition>, rs: RunState, failure: Option<RunError>,
                    current: Target, steps: nat, ghost reg: map<string, ToolFunction>, ghost goal: Trace,
                    ghost orig: seq<seq<Event>>, ghost published: seq<Event>, ghost visited: seq<string>)
      requires rs.Distinct() && |orig| == |rs.subscribers|
      requires failure.None? ==>
                 && (!Live(current) || steps == 0)
                 && goal == Glue(rs.log, published, visited,
                                 Walk(lookup, reg, rs.runId, current, rs.state, rs.loopCounts, steps))
                 && rs.status == Running
                 && Contents(rs.subscribers) == FillAll(orig, Capacities(rs.subscribers), published)
      requires failure.Some? ==>
                 && goal.ending == Aborted(failure.value)
                 && rs.log == goal.log && rs.state == goal.state && rs.loopCounts == goal.counts
                 && rs.status == Failed && rs.currentNode.None?
                 && Contents(rs.subscribers) == FillAll(orig, Capacities(rs.subscribers), goal.events)
      modifies rs`currentNode, rs`status, rs.subscribers
      ensures rs.log == goal.log && rs.state == goal.state && rs.loopCounts == goal.counts
      ensures rs.status == StatusAfter(goal.ending)
      ensures !goal.ending.Suspended? ==> rs.currentNode.None?
      ensures failure == (if goal.ending.Aborted? then Some(goal.ending.error) else None)
      ensures Contents(rs.subscribers) == FillAll(orig, Capacities(rs.subscribers), goal.events)
    {
      if failure.None? {
        Halt(goal, lookup, reg, rs.runId, current, rs.state, rs.loopCounts, steps, rs.log, published, visited);
        if !Live(current) {
          rs.currentNode := None;
          rs.status := Completed;
          NotifySubscribers(rs, RunCompleted(rs.runId, rs.state));
          OfferFills(orig, Capacities(rs.subscribers), published, RunCompleted(rs.runId, rs.state));
        }
      }
    }

    /** `_execute` for at most `fuel` visits: the run's log, state, counters,
        status and queues end up as the main loop `Walk` prescribes, starting
        from the record's state and counters; every queue is offered
        `run_started` and then the run's events. Out of fuel, the status stays
        `running`. The failure it returns is the exception `_execute`
        re-raises. */
    method Execute(graph: GraphDefinition, rs: RunState, fuel: nat) returns (failure: Option<RunError>)
      requires rs.Distinct()
      modifies rs, rs.subscribers
      ensures rs.subscribers == old(rs.subscribers)
      ensures var t := Walk(NodeLookup(graph.nodes), tools.tools, rs.runId, Some(graph.startAt),
                            old(rs.state), old(rs.loopCounts), fuel);
              && rs.log == old(rs.log) + t.log
              && rs.state == t.state
              && rs.loopCounts == t.counts
              && rs.status == StatusAfter(t.ending)
              && (!t.ending.Suspended? ==> rs.currentNode.None?)
              && failure == (if t.ending.Aborted? then Some(t.ending.error) else None)
              && Contents(rs.subscribers) ==
                 FillAll(old(Contents(rs.subscribers)), Capacities(rs.subscribers), [RunStarted(rs.runId)] + t.events)
    {
      var lookup := NodeLookup(graph.nodes);
      ghost var reg := tools.tools;
      ghost var orig := Contents(rs.subscribers);
      ghost var caps := Capacities(rs.subscribers);
      rs.status := Running;
      assert FillAll(orig, caps, []) == orig;
      NotifySubscribers(rs, RunStarted(rs.runId));
      OfferFills(orig, caps, [], RunStarted(rs.runId));
      ghost var goal := Glue(rs.log, [RunStarted(rs.runId)], [],
                             Walk(lookup, reg, rs.runId, Some(graph.startAt), rs.state, rs.loopCounts, fuel));
      var current, steps;
      ghost var published, visited;
      failure, current, steps, published, visited :=
        Drive(lookup, rs, Some(graph.startAt), fuel, reg, goal, orig, [RunStarted(rs.runId)]);
      Conclude(lookup, rs, failure, current, steps, reg, goal, orig, published, visited);
    }

    /** `run_graph` for a fresh run id (the `uuid4` the source draws): an
        unknown graph fails before any run is recorded; otherwise a new
        pending record with a copy of the initial state, or the empty state,
        and `current_node = start_at` is filed under the id. Waiting runs the
        graph to its end and re-raises its failure; otherwise the `asyncio` task is
        scheduled and has not started when the call returns, so the record
        is still pending. A run on a stored graph never fails a node lookup,
        and its loop counters stay within their caps. */
    method RunGraph(graphId: string, initialState: Option<State>, wait: bool, runId: string, fuel: nat)
      returns (r: Result<string, RunError>)
      requires Valid() && runId !in runs
      modifies this
      ensures Valid()
      ensures graphId !in old(graphs) ==>
                r == Failure(UnknownGraph(graphId)) && runs == old(runs) && scheduled == old(scheduled)
      ensures graphs == old(graphs)
      ensures graphId in old(graphs) ==>
                && runId in runs && fresh(runs[runId]) && runs == old(runs)[runId := runs[runId]]
                && runs[runId].runId == runId && runs[runId].graphId == graphId
                && runs[runId].subscribers == []
      ensures graphId in old(graphs) && !wait ==>
                && r == Success(runId)
                && scheduled == old(scheduled)[runId := graphs[graphId]]
                && runs[runId].status == Pending && runs[runId].log == [] && runs[runId].loopCounts == map[]
                && runs[runId].state == InitialState(initialState)
                && runs[runId].currentNode == Some(graphs[graphId].startAt)
      ensures graphId in old(graphs) && wait ==>
                var g := graphs[graphId];
                var t := Walk(NodeLookup(g.nodes), tools.tools, runId, Some(g.startAt),
                              InitialState(initialState), map[], fuel);
                && scheduled == old(scheduled)
                && runs[runId].log == t.log && runs[runId].state == t.state
                && runs[runId].loopCounts == t.counts && runs[runId].status == StatusAfter(t.ending)
                && (!t.ending.Suspended? ==> runs[runId].currentNode.None?)
                && r == (if t.ending.Aborted? then Failure(t.ending.error) else Success(runId))
                && !(r.Failure? && r.error.UnknownNode?)
                && CountsBounded(NodeLookup(g.nodes), runs[runId].loopCounts)
    {
      var found := GetGraph(graphId);
      if found.Failure? {
        return Failure(found.error);
      }
      var graph := found.value;
      var rs := Enroll(graphId, graph.startAt, initialState, runId);
      if !wait {
        scheduled := scheduled[runId := graph];
        return Success(runId);
      }
      r := Await(graph, rs, fuel);
    }

    /** The record `run_graph` files before starting its `asyncio` task. */
    method Enroll(graphId: string, startAt: string, initialState: Option<State>, runId: string) returns (rs: RunState)
      requires Valid() && runId !in runs
      modifies this
      ensures Valid() && fresh(rs)
      ensures runs == old(runs)[runId := rs] && graphs == old(graphs) && scheduled == old(scheduled)
      ensures rs.runId == runId && rs.graphId == graphId && rs.currentNode == Some(startAt)
      ensures rs.state == InitialState(initialState) && rs.status == Pending
      ensures rs.log == [] && rs.loopCounts == map[] && rs.subscribers == []
    {
      rs := new RunState(runId, graphId, InitialState(initialState), Some(startAt));
      runs := runs[runId := rs];
    }

    /** `await task` in `run_graph`: the new run executes to its end, and its
        failure reaches the caller. */
    method Await(graph: GraphDefinition, rs: RunState, fuel: nat) returns (r: Result<string, RunError>)
      requires Valid() && WellFormed(graph) && rs.runId in runs && runs[rs.runId] == rs && rs.runId !in scheduled
      requires rs.subscribers == [] && rs.loopCounts == map[] && rs.log == []
      modifies rs
      ensures Valid() && rs.subscribers == []
      ensures var t := Walk(NodeLookup(graph.nodes), tools.tools, rs.runId, Some(graph.startAt),
                            old(rs.state), map[], fuel);
              && rs.log == t.log && rs.state == t.state
              && rs.loopCounts == t.counts && rs.status == StatusAfter(t.ending)
              && (!t.ending.Suspended? ==> rs.currentNode.None?)
              && r == (if t.ending.Aborted? then Failure(t.ending.error) else Success(rs.runId))
              && !(r.Failure? && r.error.UnknownNode?)
              && CountsBounded(NodeLookup(graph.nodes), rs.loopCounts)
    {
      ghost var start := rs.state;
      var failure := Execute(graph, rs, fuel);
      WalkFindsEveryNode(graph, tools.tools, rs.runId, Some(graph.startAt), start, map[], fuel);
      WalkCounts(NodeLookup(graph.nodes), tools.tools, rs.runId, Some(graph.startAt), start, map[], fuel);
      r := if failure.Some? then Failure(failure.value) else Success(rs.runId);
    }

    /** The `asyncio` task that `run_graph` scheduled without waiting, when the event loop
        gets to it: `_execute` on the stored record, from its initial state,
        with whatever queues were subscribed in the meantime. */
    method RunScheduled(runId: string, fuel: nat) returns (failure: Option<RunError>)
      requires Valid() && runId in scheduled
      modifies this, runs[runId], runs[runId].subscribers
      ensures Valid()
      ensures graphs == old(graphs) && runs == old(runs)
      ensures scheduled == old(scheduled) - {runId}
      ensures var rs := runs[runId];
              var t := Walk(NodeLookup(old(scheduled[runId]).nodes), tools.tools, runId,
                            Some(old(scheduled[runId]).startAt), old(rs.state), old(rs.loopCounts), fuel);
              && rs.log == old(rs.log) + t.log && rs.state == t.state && rs.loopCounts == t.counts
              && rs.status == StatusAfter(t.ending)
              && failure == (if t.ending.Aborted? then Some(t.ending.error) else None)
              && rs.subscribers == old(rs.subscribers)
              && Contents(rs.subscribers) ==
                 FillAll(old(Contents(rs.subscribers)), Capacities(rs.subscribers), [RunStarted(runId)] + t.events)
    {
      var graph := scheduled[runId];
      var rs := runs[runId];
      scheduled := scheduled - {runId};
      failure := Execute(graph, rs, fuel);
    }

    /** `subscribe`: a new empty queue of capacity 100 joins the run's
        subscribers, or the `KeyError` for an unknown run. */
    method Subscribe(runId: string) returns (r: Result<Channel, RunError>)
      requires Valid()
      modifies (if runId in runs then {runs[runId]} else {})`subscribers
      ensures Valid()
      ensures runId !in runs ==> r == Failure(UnknownRun(runId))
      ensures runId in runs ==>
                && r.Success? && fresh(r.value)
                && r.value.capacity == QueueCapacity && r.value.items == []
                && runs[runId].subscribers == old(runs[runId].subscribers) + [r.value]
    {
      if runId !in runs {
        return Failure(UnknownRun(runId));
      }
      var rs := runs[runId];
      var queue := new Channel(QueueCapacity);
      rs.subscribers := rs.subscribers + [queue];
      return Success(queue);
    }

    /** `unsubscribe`: the queue leaves the run's subscribers when it is one
        of them; an unknown run or queue changes nothing. */
    method Unsubscribe(runId: string, queue: Channel)
      requires Valid()
      modifies (if runId in runs then {runs[runId]} else {})`subscribers
      ensures Valid()
      ensures runId in runs ==>
                && runs[runId].subscribers == RemoveFirst(old(runs[runId].subscribers), queue)
                && queue !in runs[runId].subscribers
    {
      if runId in runs && queue in runs[runId].subscribers {
        var rs := runs[runId];
        RemoveFirstIdempotent(rs.subscribers, queue);
        rs.subscribers := RemoveFirst(rs.subscribers, queue);
      }
    }
  }
}
