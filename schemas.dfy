/** The records of app/models/schemas.py and the graph validator
    `GraphDefinition.validate_graph`. */
module Schemas {
  import opened Wrappers

  /** The dynamically typed values a state bag or a node configuration holds:
      None, integers, strings, booleans, lists and string-keyed dicts. */
  datatype Value =
    | Null
    | Int(i: int)
    | Str(s: string)
    | Bool(b: bool)
    | List(items: seq<Value>)
    | Dict(fields: map<string, Value>)

  /** Python truthiness of a value. */
  predicate Truthy(v: Value) {
    match v
    case Null => false
    case Int(i) => i != 0
    case Str(s) => s != ""
    case Bool(b) => b
    case List(items) => items != []
    case Dict(fields) => fields != map[]
  }

  /** The state bag ("blackboard") of a run. */
  type State = map<string, Value>

  /** `config.get(key)`: a missing key reads as None. */
  function Get(config: map<string, Value>, key: string): Value {
    if key in config then config[key] else Null
  }

  /** `config.get(key, default)`: only a missing key takes the default. */
  function GetOr(config: map<string, Value>, key: string, default: Value): Value {
    if key in config then config[key] else default
  }

  datatype NodeType = Tool | Conditional | Loop

  datatype NodeDefinition = NodeDefinition(
    name: string,
    kind: NodeType,
    next: Option<string>,
    config: map<string, Value>)

  datatype GraphDefinition = GraphDefinition(
    graphId: string,
    startAt: string,
    nodes: seq<NodeDefinition>)

  datatype RunStatus = Pending | Running | Completed | Failed

  /** The exceptions a run, a lookup or a tool can raise. The model keeps the
      kind and the offending value, not the text of the message. */
  datatype RunError =
    | MissingTool(node: string)
    | ToolNotRegistered(tool: Value)
    | ToolFailed(message: string)
    | MissingConditionalKey(node: string)
    | MissingLoopConfig(node: string)
    | UnsupportedOperator(op: Value)
    | Incomparable(left: Value, right: Value)
    | Unhashable(key: Value)
    | UnknownNode(name: string)
    | UnknownGraph(graphId: string)
    | UnknownRun(runId: string)

  datatype Phase = Start | End | Error

  datatype LogEntry = LogEntry(node: string, phase: Phase, detail: Option<RunError>, snapshot: State)

  /** The first violation `validate_graph` reports. */
  datatype GraphError =
    | UnknownStart(start: string)
    | UnknownNext(node: string, nextNode: string)
    | UnknownConditionalTarget(node: string, target: Value)
    | UnknownLoopTarget(node: string, target: Value)

  /** `{n.name for n in self.nodes}` */
  function Names(nodes: seq<NodeDefinition>): set<string> {
    set i | 0 <= i < |nodes| :: nodes[i].name
  }

  /** A `next` field passes when it is empty or names a node. */
  predicate NextResolves(next: Option<string>, names: set<string>) {
    next.None? || next.value == "" || next.value in names
  }

  /** A config reference passes when it is falsy or names a node. */
  predicate TargetResolves(target: Value, names: set<string>) {
    !Truthy(target) || (target.Str? && target.s in names)
  }

  /** Every reference of one node resolves against `names`. */
  predicate NodeResolves(node: NodeDefinition, names: set<string>) {
    && NextResolves(node.next, names)
    && (node.kind == Conditional ==>
          TargetResolves(Get(node.config, "on_true"), names) &&
          TargetResolves(Get(node.config, "on_false"), names))
    && (node.kind == Loop ==>
          TargetResolves(Get(node.config, "body"), names) &&
          TargetResolves(Get(node.config, "after"), names))
  }

  /** The declarative well-formedness of a graph: the start node exists and every
      reference resolves. Other node types' config keys are not checked. */
  predicate WellFormed(g: GraphDefinition) {
    var names := Names(g.nodes);
    && g.startAt in names
    && forall i :: 0 <= i < |g.nodes| ==> NodeResolves(g.nodes[i], names)
  }

  /** The checks of one node, in the order the validator makes them. */
  function CheckNode(node: NodeDefinition, names: set<string>): (r: Option<GraphError>)
    ensures r.None? <==> NodeResolves(node, names)
  {
    var onTrue := Get(node.config, "on_true");
    var onFalse := Get(node.config, "on_false");
    var body := Get(node.config, "body");
    var after := Get(node.config, "after");
    if node.next.Some? && node.next.value != "" && node.next.value !in names then
      Some(UnknownNext(node.name, node.next.value))
    else if node.kind == Conditional && !TargetResolves(onTrue, names) then
      Some(UnknownConditionalTarget(node.name, onTrue))
    else if node.kind == Conditional && !TargetResolves(onFalse, names) then
      Some(UnknownConditionalTarget(node.name, onFalse))
    else if node.kind == Loop && !TargetResolves(body, names) then
      Some(UnknownLoopTarget(node.name, body))
    else if node.kind == Loop && !TargetResolves(after, names) then
      Some(UnknownLoopTarget(node.name, after))
    else
      None
  }

  /** The loop over the nodes: the first node that fails decides the error. */
  function CheckNodes(nodes: seq<NodeDefinition>, names: set<string>): (r: Option<GraphError>)
    ensures r.None? <==> forall i :: 0 <= i < |nodes| ==> NodeResolves(nodes[i], names)
    ensures r.Some? ==> exists i :: 0 <= i < |nodes| && CheckNode(nodes[i], names) == r &&
                                    forall j :: 0 <= j < i ==> NodeResolves(nodes[j], names)
  {
    if nodes == [] then None
    else
      var first := CheckNode(nodes[0], names);
      if first.Some? then first
      else
        var rest := CheckNodes(nodes[1..], names);
        if rest.Some? then
          var k :| 0 <= k < |nodes| - 1 && CheckNode(nodes[1..][k], names) == rest &&
                   forall j :: 0 <= j < k ==> NodeResolves(nodes[1..][j], names);
          assert CheckNode(nodes[k + 1], names) == rest;
          rest
        else
          assert forall i :: 1 <= i < |nodes| ==> nodes[i] == nodes[1..][i - 1];
          None
  }

  /** `validate_graph`: the graph itself when it is well-formed, else the first
      violation in the validator's order. */
  function ValidateGraph(g: GraphDefinition): (r: Result<GraphDefinition, GraphError>)
    ensures r.Success? <==> WellFormed(g)
    ensures r.Success? ==> r.value == g
    ensures r.Failure? && r.error.UnknownStart? ==> g.startAt !in Names(g.nodes)
    ensures r.Failure? && !r.error.UnknownStart? ==>
              g.startAt in Names(g.nodes) &&
              exists i :: 0 <= i < |g.nodes| && CheckNode(g.nodes[i], Names(g.nodes)) == Some(r.error)
  {
    var names := Names(g.nodes);
    if g.startAt !in names then Failure(UnknownStart(g.startAt))
    else
      match CheckNodes(g.nodes, names)
      case Some(e) => Failure(e)
      case None => Success(g)
  }
}
