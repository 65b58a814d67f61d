# GraphExec workflow engine, modelled in Dafny

GraphExec runs workflows described as graphs. Each node of a graph is one of three kinds:

- a **tool** node calls a registered Python function on the run's state bag and merges the dict it returns;
- a **conditional** node compares one state value with a constant and picks `on_true` or `on_false`;
- a **loop** node sends the run back to its `body` while a comparison holds, up to `max_iterations` times, and then on to `after`.

The `WorkflowEngine` keeps the registered graphs and the runs. It executes a run node by node, appending `start`/`end`/`error` entries to the run's log. It publishes `run_started`, `node_start`, `node_end`, `run_completed` and `run_failed` messages to bounded subscriber queues, dropping a message when a queue is full. The built-in code-review workflow chains five text analyses (function names, complexity, long lines and TODOs, suggestions, refinement) with a quality gate that loops through refinement until the score reaches 0.8.

The project has these files:

- `wrappers.dfy`: `Option` and `Result`.
- `schemas.dfy`: the value, node, graph, status and log-entry records, and `validate_graph`.
- `registry.dfy`: the `ToolRegistry` class.
- `interpreter.dfy`: the engine's node semantics as functions (`_compare`, `_evaluate_conditional`, `_evaluate_loop`, tool invocation, node dispatch). It also holds `Walk`, the run that the main loop of `_execute` produces, as a fuel-bounded function, with lemmas about the log, the events and the loop counters that every run satisfies.
- `engine.dfy`: the `Channel`, `RunState` and `WorkflowEngine` classes. Their methods change fields in place, as the Python does, and are proved against `Walk`.
- `code_review.dfy`: the code-review tools and their line-oriented analyses, the workflow graph, and its registration.

Python values are the datatype `Value`:

- `None`, integers, strings, booleans, lists and dicts;
- Python's `1 == True` is kept;
- list and dict equality is element-wise.

Scores are integers counting hundredths, so 0.8 is `80`. A tool is a function from the state to `Raised(message)` or `Returned(optional dict)`.

## Model

| member | source | states |
|---|---|---|
| Registry.Normalize | app/tools/registry.py:16-24 | a raising tool is a `ToolFailed` error; a `None` result becomes the empty dict; a returned dict is passed on unchanged |
| Registry.ToolRegistry.constructor | app/tools/registry.py:7-8 | a new registry has no tools |
| Registry.ToolRegistry.Register | app/tools/registry.py:10-11 | the name is bound to the function, replacing any earlier binding; every other name's lookup is unchanged |
| Registry.ToolRegistry.Get | app/tools/registry.py:13-14 | `None` exactly when the name is unregistered, otherwise the bound function |
| Registry.ToolRegistry.Invoke | app/tools/registry.py:16-24 | an unregistered name fails with `ToolNotRegistered`; otherwise the tool's outcome, normalised, with `None` read as `{}` |
| Registry.ToolRegistry.ListTools | app/tools/registry.py:26-27 | one entry per registered tool, holding its doc string or `""` when it has none |
| Schemas.CheckNode | app/models/schemas.py:35-47 | a node passes exactly when its `next` and, by kind, its `on_true`/`on_false` or `body`/`after` references are falsy or name a node |
| Schemas.CheckNodes | app/models/schemas.py:35-47 | no error exactly when every node resolves; an error is the first failing node's own error, and every node before it resolves |
| Schemas.ValidateGraph | app/models/schemas.py:30-48 | succeeds, returning the graph unchanged, exactly when the graph is well formed; an unknown start node is reported first, otherwise the error of some failing node |
| Interpreter.Compare | app/core/engine.py:179-193 | `==` and `!=` are Python equality and its negation; an ordering operator with `None` on either side is false without raising; between two numbers (bools as 0 and 1) each ordering operator is the integer comparison, and between two strings it is the code-point order; on any other pair of non-`None` values an ordering operator raises `TypeError` (`Incomparable`); any other operator raises |
| Interpreter.StrOrderSame | app/core/engine.py:185-192 | two strings compare as equal exactly when they are the same string |
| Interpreter.StrOrderFlip | app/core/engine.py:185-192 | `a < b` exactly when `b > a` for strings |
| Interpreter.CompareSwap | app/core/engine.py:185-190 | `a > b` and `b < a` raise together and agree when they do not |
| Interpreter.CompareAtLeast | app/core/engine.py:185-188 | on orderable non-`None` values, `>=` is `>` or `==` |
| Interpreter.EvaluateConditional | app/core/engine.py:148-158 | a missing `key` raises; a list or dict `key` raises as unhashable; a raising comparison raises; otherwise it succeeds, going to `on_true` on a true comparison and on a false one to `on_false` when truthy, else to `next` |
| Interpreter.LoopStep | app/core/engine.py:160-177 | a missing `key` or `body` raises; otherwise a list or dict `key` raises as unhashable, and so does a raising comparison; a true condition with a non-numeric `max_iterations` raises `TypeError` (`Incomparable`); the state never changes; the counter changes only by one increment on entering the body, staying within `max_iterations` |
| Interpreter.LoopCapForcesAfter | app/core/engine.py:172-173 | with the condition true and the counter at the limit, the loop goes to `after`, counters unchanged |
| Interpreter.LoopBodyIncrements | app/core/engine.py:174-176 | with the condition true below the limit, the loop enters `body` and the node's counter goes up by one |
| Interpreter.LoopExit | app/core/engine.py:177 | with the condition false, the loop goes to `after` when truthy, else to `next`, counters unchanged |
| Interpreter.ToolUpdate | app/core/engine.py:140-146 | a list or dict tool name raises as unhashable; any other unregistered tool fails as not registered; a raising tool fails with its error; otherwise the state's keys and the result's keys are merged, the result's values win, and every other key keeps its value |
| Interpreter.EmptyResultIsNoOp | app/core/engine.py:144-146 | a tool returning `None` or `{}` leaves the state unchanged |
| Interpreter.Dispatch | app/core/engine.py:127-138 | the successor is one of the node's declared successors; only tool nodes change the state and only loop nodes the counters; a tool node without a truthy `tool` raises; a tool node goes to `next` |
| Interpreter.SuccessorsResolve | app/models/schemas.py:35-47 | every successor of a node that passed validation ends the run or names a node |
| Interpreter.NodeLookup | app/core/engine.py:84 | the lookup's keys are the node names, and each key maps to a node of the graph with that name |
| Interpreter.LookupTakesLastDefinition | app/core/engine.py:84 | when two nodes share a name, the later definition is the one looked up |
| Interpreter.WalkVisit | app/core/engine.py:87-96 | a visit appends start and end entries and `node_start`/`node_end` events, then continues from the successor; a failing visit ends the run with the start entry, an error entry and `run_failed` |
| Interpreter.WalkOnce | app/core/engine.py:87-96 | the same visit for a name that may be missing from the lookup; a found node's successor is one of its declared successors and its counters stay bounded and never go down |
| Interpreter.AbortIsLogShaped | app/core/engine.py:100-105 | a failing visit leaves a start entry and then an error entry, both carrying the state from before the visit |
| Interpreter.VisitKeepsLogShape | app/core/engine.py:88-95 | a visit in front of a well-shaped run keeps the log one start/end pair per visited node, in order |
| Interpreter.WalkLog | app/core/engine.py:86-105 | every run's log holds one start/end pair per visited node, each carrying the state before and after; a failed run's log ends with a start and an error entry for the last node |
| Interpreter.VisitKeepsEventsShape | app/core/engine.py:91-96 | a visit in front of a well-shaped run keeps the events matching the log entry for entry |
| Interpreter.AbortIsEventsShaped | app/core/engine.py:100-104 | a failing visit publishes `node_start` and then `run_failed` with the error |
| Interpreter.WalkEvents | app/core/engine.py:83-104 | the events follow the log one for one; `run_completed` (with the final state) or `run_failed` comes last and nowhere else; a run cut short publishes neither |
| Interpreter.NeverResetChains | app/core/engine.py:169-176 | counters that never went down over two stretches never went down over both |
| Interpreter.DispatchCounts | app/core/engine.py:169-176 | a visit keeps every loop counter between 1 and its node's `max_iterations`, and never lowers one |
| Interpreter.WalkCounts | app/core/engine.py:160-177 | over a whole run, every loop counter stays between 1 and its node's `max_iterations` and never goes down |
| Interpreter.WalkFindsEveryNode | app/core/engine.py:84-93 | a run of a validated graph never fails with an unknown node |
| Interpreter.ResolvesInGraph | app/models/schemas.py:35-47 | every node of a validated graph has resolving references |
| Interpreter.UnregisteredToolFailsRun | app/core/engine.py:140-143 | visiting a tool node whose hashable tool name is not registered fails the run with `ToolNotRegistered`, and the log ends with that error |
| Interpreter.DoublingScenario | app/core/engine.py:81-99 | for a graph where A doubles `x` and B loops back to A until `x >= 10`, a start from 3 or 4 visits A, B, A, B and completes with `x` four times its start |
| Engine.FillKeepsPrefix | app/core/engine.py:107-112 | publishing to a queue within its bound delivers the longest prefix of the messages that fits, and nothing after the first dropped message |
| Engine.Channel.PutNowait | app/core/engine.py:109-112 | a message is accepted exactly when the queue is below capacity; a full queue drops it |
| Engine.NotifySubscribers | app/core/engine.py:107-112 | every subscriber queue is offered the message once, in order, and each keeps or drops it by its own capacity |
| Engine.RunState.constructor | app/core/engine.py:19-29 | a new run is pending, with the given ids, state and current node, an empty log, no counters and no subscribers |
| Engine.Halt | app/core/engine.py:97-99 | an empty successor ends the run as completed with `run_completed`; running out of fuel leaves it unfinished with nothing more published |
| Engine.RemoveFirst | app/core/engine.py:125 | removes the first occurrence of the element and nothing else; a list without it is unchanged |
| Engine.RemoveFirstIdempotent | app/core/engine.py:122-125 | on a list without duplicates, removal leaves no occurrence, keeps the list free of duplicates, and a second removal changes nothing |
| Engine.WorkflowEngine.constructor | app/core/engine.py:33-37 | uses the given registry or a fresh empty one; no graphs and no runs |
| Engine.WorkflowEngine.RegisterGraph | app/core/engine.py:39-40 | the graph is filed under its id, replacing an earlier one, and is then returned by `GetGraph`; runs are untouched |
| Engine.WorkflowEngine.GetGraph | app/core/engine.py:42-45 | fails with `UnknownGraph` exactly when the id is not registered, otherwise returns the graph |
| Engine.WorkflowEngine.GetRun | app/core/engine.py:69-79 | fails with `UnknownRun` exactly when the run is unknown, otherwise returns its ids, status, state and log |
| Engine.WorkflowEngine.InvokeTool | app/core/engine.py:140-146 | the run's state becomes the merged state on success and is unchanged on failure |
| Engine.WorkflowEngine.EvaluateLoop | app/core/engine.py:160-177 | returns the loop step's successor and stores its counters, or reports its error with the counters unchanged |
| Engine.WorkflowEngine.ExecuteNode | app/core/engine.py:127-138 | updates the run's state and counters as the node's dispatch says, or reports the error with both unchanged |
| Engine.WorkflowEngine.Enter | app/core/engine.py:88-91 | sets the current node, appends a start entry and publishes `node_start` |
| Engine.WorkflowEngine.Leave | app/core/engine.py:94-96 | appends an end entry and publishes `node_end` |
| Engine.WorkflowEngine.Fail | app/core/engine.py:100-104 | marks the run failed, clears the current node, appends the error entry and publishes `run_failed` |
| Engine.WorkflowEngine.Visit | app/core/engine.py:87-105 | one iteration of the main loop: the log, state, counters, status and published events change exactly as one visit of `Walk` says |
| Engine.WorkflowEngine.Turn | app/core/engine.py:87-96 | after one iteration, what is left of the run is `Walk` from the successor, or the run has failed as `Walk` says |
| Engine.WorkflowEngine.Drive | app/core/engine.py:87-96 | the loop runs until the successor is empty, the fuel is used up, or a visit fails, keeping the rest of the run equal to `Walk` |
| Engine.WorkflowEngine.Conclude | app/core/engine.py:97-105 | sets the final status from how the run ended, clears the current node when it ended, and publishes `run_completed` on completion |
| Engine.WorkflowEngine.Execute | app/core/engine.py:81-105 | the run's log, state, counters, status and every subscriber's queue are exactly those of `Walk` from the start node, preceded by `run_started`; a failure is reported |
| Engine.WorkflowEngine.RunGraph | app/core/engine.py:47-59 | an unknown graph fails with no new run; otherwise a fresh pending run is filed under the new id with a copy of the initial state, then either completed as `Walk` says, with `current_node` cleared once the run has ended (waiting), or scheduled; a run of a validated graph never fails with an unknown node, and its counters stay bounded |
| Engine.WorkflowEngine.Enroll | app/core/engine.py:50-54 | files a fresh pending run with the copied initial state at the graph's start node |
| Engine.WorkflowEngine.Await | app/core/engine.py:55-58 | executes a just-filed run to the end that `Walk` gives, clears `current_node` once it has ended, and reports its failure |
| Engine.WorkflowEngine.RunScheduled | app/core/engine.py:55 | executes a scheduled run as `Execute` does and removes it from the schedule; graphs and the run table are unchanged |
| Engine.WorkflowEngine.Subscribe | app/core/engine.py:114-120 | an unknown run fails; otherwise a fresh empty queue of capacity 100 is appended to the run's subscribers, and no other field of any run changes |
| Engine.WorkflowEngine.Unsubscribe | app/core/engine.py:122-125 | removes the queue from a known run's subscribers, if present, and leaves it absent; no other field of any run changes, and an unknown run or queue changes nothing |
| CodeReview.StripLeading | app/workflows/code_review.py:19 | the result is a suffix of the text after an all-whitespace margin, and does not start with whitespace |
| CodeReview.StripTrailing | app/workflows/code_review.py:19 | the result is a prefix of the text before an all-whitespace margin, and does not end with whitespace |
| CodeReview.Strip | app/workflows/code_review.py:19 | the result is a slice of the text between two all-whitespace margins, and neither starts nor ends with whitespace |
| CodeReview.LinesHaveNoNewline | app/workflows/code_review.py:19 | no line of the split holds a newline |
| CodeReview.UnlinesLines | app/workflows/code_review.py:19 | joining the lines with newlines gives back the text, with a final newline added when it had none |
| CodeReview.LinesUnlines | app/workflows/code_review.py:19 | splitting lines joined with newlines gives back the lines when none holds a newline |
| CodeReview.SpaceRun | app/workflows/code_review.py:13 | the longest run of whitespace from a position |
| CodeReview.IdentRun | app/workflows/code_review.py:13 | the longest run of identifier characters from a position |
| CodeReview.MatchDef | app/workflows/code_review.py:13 | the pattern matches at the start of a text exactly when the text opens with `def`, at least one whitespace character and an identifier; the name is that whole identifier run and the match ends right after it |
| CodeReview.DeclaredMatch | app/workflows/code_review.py:13 | in a declaration the whitespace is the whole run after `def` and the name the whole identifier run after it, so the greedy `\s+` cannot give a different match |
| CodeReview.LineDef | app/workflows/code_review.py:13 | a line declares a name exactly when it opens with `def`, whitespace and that name as a whole identifier |
| CodeReview.ExtractFunctions | app/workflows/code_review.py:11-14 | every name found is a Python identifier; a text that opens with a declaration yields its name first |
| CodeReview.FoundAreDeclared | app/workflows/code_review.py:11-14 | every name found is declared, with `def`, whitespace and the name, at the start of some line of the text |
| CodeReview.MatchInFirstLine | app/workflows/code_review.py:13 | unless the first line is a bare `def`, the pattern matches within the first line exactly as on that line alone |
| CodeReview.ExtractFunctionsByLine | app/workflows/code_review.py:11-14 | when no line is a bare `def`, the names found are, in source order, those of the lines that start at column 0 with `def`, whitespace and an identifier; indented `def`s are not found |
| CodeReview.BareDefReadsNextLine | app/workflows/code_review.py:13 | on `def` followed by a line `def f`, the pattern's `\s+` crosses the newline and the name found is `def` |
| CodeReview.BareDefLineByLine | app/workflows/code_review.py:13 | the same text read line by line declares `f`, so the line-by-line reading needs the no-bare-`def` condition |
| CodeReview.Significant | app/workflows/code_review.py:19 | no kept line is empty |
| CodeReview.TallyFacts | app/workflows/code_review.py:21-29 | the loop closes one entry per `def ` line; every count is at least 1; the counts add up to one per entry plus one per branching line |
| CodeReview.ComplexitiesFacts | app/workflows/code_review.py:21-29 | the complexity list has one entry per `def ` line plus one; every entry is at least 1; the sum is the length plus the number of branching lines |
| CodeReview.DefBranchCountsBeforeSplit | app/workflows/code_review.py:24-28 | a `def` line that branches adds its branch to the entry it closes, and the next entry starts at 1 |
| CodeReview.CheckComplexity | app/workflows/code_review.py:17-29 | the loop computes the complexity list: one entry per `def ` line plus one, each at least 1 |
| CodeReview.RoundHalfEvenNearest | app/workflows/code_review.py:30-31 | the rounded average is within half a unit of the exact one, and an exact tie rounds to even |
| CodeReview.Marked | app/workflows/code_review.py:36-37 | a 1-based index is listed exactly when its line has the property, and the indices strictly increase |
| CodeReview.Issues | app/workflows/code_review.py:38-43 | at most two issues; a `long_lines` issue exactly when some line is longer than 100, a `todo_comments` one exactly when some line holds `TODO`; each carries its line list; long lines come first |
| CodeReview.Suggestions | app/workflows/code_review.py:48-54 | at most three suggestions; each is present exactly when its trigger holds; no others; in fixed order |
| CodeReview.SuggestImprovements | app/workflows/code_review.py:46-54 | the appending code yields exactly the suggestions the triggers call for |
| CodeReview.QualityScore | app/workflows/code_review.py:55 | between 0.1 and 1.0, and 1.0 minus 0.1 per suggestion above the floor |
| CodeReview.FirstGate | app/workflows/code_review.py:55 | the first score passes the 0.8 gate exactly when not all three triggers hold |
| CodeReview.Refined | app/workflows/code_review.py:61 | the previous suggestions unchanged, followed by exactly one fixed suggestion |
| CodeReview.RaiseScore | app/workflows/code_review.py:62 | at most 1.0; either 1.0 or the score plus 0.1; a score below 1.0 goes up |
| CodeReview.RaiseTimesValue | app/workflows/code_review.py:62 | `k` refinements raise the score by 0.1 each, up to 1.0 |
| CodeReview.OneRefinementPasses | app/workflows/code_review.py:62 | one refinement after `suggest_improvements` always reaches the 0.8 gate |
| CodeReview.ExtractFunctionsTool | app/workflows/code_review.py:11-14 | raises exactly when `code` is not a string; otherwise returns the extracted names |
| CodeReview.CheckComplexityTool | app/workflows/code_review.py:17-31 | raises exactly when `code` is not a string; otherwise returns the rounded average complexity |
| CodeReview.DetectBasicIssuesTool | app/workflows/code_review.py:34-43 | raises exactly when `code` is not a string; otherwise returns the issues and `issue_count` equal to their number |
| CodeReview.AnyOfType | app/workflows/code_review.py:51-54 | true exactly when an issue of the kind comes before any non-dict; raises exactly when a non-dict comes before any match |
| CodeReview.SuggestImprovementsTool | app/workflows/code_review.py:46-56 | raises exactly when the average is not a number, the issues value cannot be iterated, or either `any` scan reaches an item without `.get` before it stops; otherwise returns exactly `suggestions`, the suggestions the average and the issue kinds call for, and `quality_score`, scored from their number |
| CodeReview.RefineSuggestionsTool | app/workflows/code_review.py:59-63 | raises exactly when `suggestions` is not a list or the score is truthy but not a number; otherwise returns the refined list and the old score (0.5 when missing or falsy) raised by 0.1 and capped at 1.0 |
| CodeReview.AnyOfIssues | app/workflows/code_review.py:51-53 | on the issues `detect_basic_issues` writes, the test is true exactly when an issue of that kind is present |
| CodeReview.SuggestionsFromCode | app/workflows/code_review.py:46-56 | the three analyses, then `suggest_improvements`, each merged into the state, suggest exactly what the code's average complexity, long lines and TODOs call for |
| CodeReview.CodeReviewGraphValid | app/workflows/code_review.py:73-86 | the workflow graph passes `validate_graph` |
| CodeReview.CodeReviewToolsCover | app/workflows/code_review.py:67-84 | every tool node names one of the five registered tools |
| CodeReview.OnlyGateEnds | app/workflows/code_review.py:73-84 | the only successor that ends a run is the gate's `on_true` |
| CodeReview.RegisterCodeReviewWorkflow | app/workflows/code_review.py:66-87 | the five tools are bound, the graph is filed under `code_review`, and runs are untouched |
| CodeReview.RegisterTools | app/workflows/code_review.py:67-71 | the registry afterwards is the earlier one with the five tools bound |

## Left out

- Concurrency is not modelled: `asyncio`, the engine lock, `asyncio.to_thread`, and the interleaving of tasks. `run_graph` without waiting files the run as scheduled, and `RunScheduled` executes it later, in one piece.
- `wait_for_run` is left out: it only awaits a task.
- Run ids come from `uuid.uuid4()`, which the model cannot generate. `RunGraph` takes the id as a parameter, with a precondition that it is fresh.
- The main loop of `_execute` carries a fuel bound. A run still going when the fuel runs out keeps status `running` and publishes nothing more, so runs that never end are not modelled.
- `_execute` re-raises after recording a failure. The model reports the error as a result instead of raising.
- Event messages carry a copy of the state. The Python passes the live dict, which later visits may still change.
- Tools are pure functions of the state. A tool that mutates the state dict it is given is not modelled.
- Registering a tool stores a `ToolFunction` value whose `doc` stands for `__doc__`. Coroutine versus plain functions are not distinguished, and neither is `register_tool`, which only forwards.
- Queue consumers are not modelled: queues only fill up. The websocket routes are not part of this model.
- Pydantic's field and type checking is not modelled, and neither are the `extra = "forbid"` rule, `GraphCreateRequest`, `RunRecord` or the route layer.
- Engine.WorkflowEngine.RegisterGraph: requires a graph that passes validation. In the Python, every `GraphDefinition` has passed `validate_graph` on construction.
- Validation accepts truthy references that are not strings only when they name a node, so they never reach the engine. A non-string successor is read as the end of the run.
- The `Unsupported node type` branch of `_execute_node` is left out: node kinds are exhausted by the datatype.
- Error messages are reduced to their kind and the offending value.
- Numbers are integers. `avg_complexity` and `quality_score` count hundredths, and the workflow's tools read any number in the state in hundredths, `True` and `False` as 1.0 and 0.0.
- Interpreter.Compare: the engine's comparison cannot know a value's unit, so it reads a bool as 0 or 1. The `quality_gate` compares against 80 hundredths, so a `quality_score` of `True` fails the gate in the model while Python (`True >= 0.8`) passes it. In the `code_review` graph the score the gate reads is always written by `suggest_improvements` or `refine_suggestions` as an integer.
- CodeReview.RoundHalfEvenNearest: rounds the exact average half-to-even at two places. Python rounds the float nearest the average, which can differ on averages that are not exact in binary: 37 functions of complexity 1 and 3 of complexity 2 average 43/40 = 1.075, which Python rounds to 1.07 (the float lies just below 1.075) and the model to 108 hundredths.
- Interpreter.Compare: ordering two lists, which Python does lexicographically, raises `Incomparable` in the model. Ordering two dicts raises `TypeError` in Python as in the model.
- `code.splitlines()` is modelled as splitting on `\n` only. Other line breaks (`\r`, `\r\n`, `\v`, `\f`, `\x1c`–`\x1e`, `\x85`, `\u2028`, `\u2029`) are not treated as line ends.
- `str.isspace` is modelled by a fixed character list.
- In `suggest_improvements`, iterating a non-empty string or dict as the issue list fails at once. This matches what Python does, since their items are strings without `.get`.
- The gate-and-refine cycle is proved at the level of the scores: `FirstGate`, `OneRefinementPasses`, `RaiseTimesValue`. It is not proved as a whole run of the `code_review` graph through `Walk`.
