/** The tool registry of app/tools/registry.py: a name-to-callable map. */
module Registry {
  import opened Wrappers
  import opened Schemas

  /** What calling a tool yields: the exception it raised, or its return value,
      where `None` stands for Python's None. */
  datatype ToolResult = Raised(message: string) | Returned(result: Option<State>)

  /** A registered callable and its docstring. */
  datatype ToolFunction = ToolFunction(run: State -> ToolResult, doc: Option<string>)

  /** The tail of `invoke`: `result or {}`; an exception propagates unchanged. */
  function Normalize(r: ToolResult): (u: Result<State, RunError>)
    ensures u.Failure? <==> r.Raised?
    ensures u.Failure? ==> u.error == ToolFailed(r.message)
    ensures r.Returned? ==> u.Success? && u.value == (if r.result.Some? then r.result.value else map[])
  {
    match r
    case Raised(message) => Failure(ToolFailed(message))
    case Returned(result) =>
      match result
      case None => Success(map[])
      case Some(update) => Success(update)
  }

  class ToolRegistry {
    var tools: map<string, ToolFunction>

    constructor()
      ensures tools == map[]
    {
      tools := map[];
    }

    /** Binds `name` to `fn`, replacing an earlier binding of the same name. */
    method Register(name: string, fn: ToolFunction)
      modifies this
      ensures tools == old(tools)[name := fn]
      ensures Get(name) == Some(fn)
      ensures forall other :: other != name ==> Get(other) == old(Get(other))
    {
      tools := tools[name := fn];
    }

    /** The callable bound to `name`, or None. */
    function Get(name: string): (r: Option<ToolFunction>)
      reads this
      ensures r.None? <==> name !in tools
      ensures r.Some? ==> r.value == tools[name]
    {
      if name in tools then Some(tools[name]) else None
    }

    /** Runs the tool bound to `name` on `state`; an unregistered name fails
        before anything runs, and a falsy return becomes the empty update. */
    function Invoke(name: string, state: State): (r: Result<State, RunError>)
      reads this
      ensures name !in tools ==> r == Failure(ToolNotRegistered(Str(name)))
      ensures name in tools ==> r == Normalize(tools[name].run(state))
      ensures name in tools && tools[name].run(state) == Returned(None) ==> r == Success(map[])
    {
      var fn := Get(name);
      if fn.None? then Failure(ToolNotRegistered(Str(name)))
      else Normalize(fn.value.run(state))
    }

    /** Every registered name with its docstring, or "" when it has none. */
    function ListTools(): (r: map<string, string>)
      reads this
      ensures r.Keys == tools.Keys
      ensures forall n :: n in r ==> r[n] == (if tools[n].doc.Some? then tools[n].doc.value else "")
    {
      map n | n in tools :: if tools[n].doc.Some? then tools[n].doc.value else ""
    }
  }
}
