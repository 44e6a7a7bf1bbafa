# Verified model of rust-p2w

A Dafny model of the parts of the Python-to-WebAssembly compiler where a mistake would
be silent: the activity diagrams, the lowering of function bodies and the choice of their
slots, the rule about missing returns, the emitted runtime, float layout, and lists across
the component boundary. `dafny verify dfyconfig.toml` checks everything.

## What is proved

**Activity diagrams** (`src/activity.rs`). Pass 1 builds nested graphs with symbolic
jumps, pass 2 splices them into one flat graph by rewriting an edge list, and the layout
gives every node a position. The `Builder`, `Flattener` and `Search` classes work in place
as the source does. `ActivityLayout.FlattenAndLayout` is the end-to-end result: the flat
graph is a legal activity, what its initial-to-final paths say (each action by its text and
line, each decision by the text its guard shows) is exactly the control-flow traces of the
statements, rows are longest-path lengths 70 apart, and boxes of one row never come closer
than 40. `LayoutReading` reads the picture off guards and edges: `[cond]` to the left,
`[else]` to the right, meeting ways half way between (`LayoutReading.BranchesSplit`,
`LayoutReading.MeetsHalfWay`), and no other placement would do
(`LayoutReading.OnlyLayout`). The layout is right for every program,
also for one with a break outside any loop, whose edge is skipped. The traces are defined
on statements alone (`ActivityTraces`), legality on graphs alone (`ActivityLegal`).

**Lowering** (`src/codegen.rs`). `PythonSemantics` runs a function body under three sets
of rules. `Python` is the language. `Compiled` says in the same terms what the compiled
code does where it differs: null for an unassigned boxed name, counters that wrap, another
order of evaluation. `Watched` is Python that stops where the two might part. Every
function a body calls is an oracle, and so are the list operations of the runtime but
length, indexing and append: it may change lists, print, fail or never come back, and the
theorems hold for every oracle. All of it runs on fuel, so a run that does not end exhausts every fuel on both sides.

- `Simulation.BlockSim`: the emitted code (`Lowering`, and in the compiler's own form the
  class `FunctionEmitter.FuncCx`), run by `Machine`, does exactly what the `Compiled` rules
  say. `CompiledFunction.FunctionExact` is the same for a whole call, with no exception.
- `Compilable.CompilesExactly`: which functions compile, said about their text alone, both
  ways; `RawSlots.RawSlotsExactly` does the same for raw slots and raw results.
- `Departures.WatchedRun`: a watched run that does not stop is the run of Python and of
  compiled code; one that stops has printed no more than either.
- Together, `CompiledFunction.FunctionPreserved`: a call does what Python does unless the
  watched run departs, and then both have printed what was printed until then.
- Which departures can happen is a matter of the text. `Risks.BlockRisks` reads them off any
  body, with bounds for every number (`ValueShapes.ExtentOf`), and
  `CompiledFunction.DeparturesForeseen` says that calls depart nowhere else, if every name is
  assigned in time. A body without risks does exactly what Python does
  (`CompiledFunction.ExactPreserved`); where the only risks are that both sides stop, with
  another error or a line cut short, both do (`CompiledFunction.BenignPreserved`); without
  fuel, `CompiledFunction.CallsEndAlike`: both end or neither does.
- Names read too early: `CompiledFunction.AssignedInTime` (none, by a check of the text) and
  `CompiledFunction.UnassignedStops` (Python reports the name, and code that
  `UnassignedReads.Alert` recognises stops as well).
- Raw slots: `DefiniteAssignment.DefinitelyAssigned` (no run reads one before storing it),
  `SlotInference.SettledExactly` with `WholeSlots.NeverMistyped` (none is ever given
  anything but a whole number, exactly when the search for whole numbers came to rest),
  `CompiledFunction.WholeNeverMistyped` (nor any annotated name, if its bindings are whole),
  `ExpressionSimulation.ScalarExact` (checked arithmetic is exact or traps), and for module
  variables `TopLevel.KeptNeverMissed`, over programs whose functions call each other.

**What reaches the code generator** (`src/check.rs`). `Gate` is the type checker whose
findings are compile errors. `Gate.BlatantRefused`: a truth value annotated `int` is refused
wherever it stands; `Gate.UnremarkableReaches`: bodies without annotations, calls and loops
over items never are. Without loops its facts are true of every run
(`Findings.FactsTrue`), and a `len` or a loop it objects to fails when it is reached
(`Findings.LenFails`, `FindingCases.ForFails`); which pairs of types it objects to is
`FindingCases.OperatorJudged` and its neighbours. `LoweringLimits.BothAccepted`,
`LoweringLimits.TooEarlyAccepted`, `TrustedAnnotations.UntypedAccepted` and
`DepartureCases.CasesAccepted`: it lets the programs named below through.

**Missing returns** (`src/check.rs`). `MissingReturn.TotalOrProcedure`: when the rule says
nothing, either no run returns a value or every run that ends normally does, whatever the
body calls. When it says something there is a reason: without dead code, exactly if some run
with free tests gives back a value and some run gives back none (`FreeRuns.OwesExactly`);
these runs are those of the diagrams (`FreeRuns.WalkIsTrace`). `MissingReturn.TailUnreachable` and `CompiledFunction.RawResult` carry that to
the emitted `(unreachable)`.

**The emitted runtime** (`src/codegen.rs`). Growable lists, insertion-ordered sets and
dicts, insertion sorts, shuffle, slices, `==` on nested lists, text helpers, integer print
and parse. Those that work in place are classes and array loops with their capacities;
each is tied to a function on sequences, says exactly when it runs out of room and what it
has done by then, and the laws are proved about that function.

**Float layout** (`src/floatfmt.rs`) and **lists across the component boundary**
(`src/component.rs`): no digit is lost and the text is one CPython would write
(`FloatShape.LayoutIsPythons`); lists lie in linear memory where the Canonical ABI puts them,
byte by byte (`CanonicalLayout.LoweredAsLaidOut`, `CanonicalLayout.BuiltAsLaidOut`), and what
is written is read back as the same value.

## Where the code and the promise part ways

- The type checker is to report "the confident mistakes" only (`src/check.rs:3-10`), and a
  name that changes its type is not one. It judges the body of a loop once, by what is known
  before the first pass: `x = 1`, then a loop with `if i: len(x)` and `x = xs` in it, is
  refused and correct (`FindingCases.CorrectButRefused`). In functions of this form, whatever
  the condition, the finding is right exactly if the first pass reaches the call
  (`FindingCases.FindingRightExactly`).
- Of a missing return it is enough that something stands behind the last one:
  `return e` followed by `pass` is refused (`FreeRuns.DeadCodeBlamed`). Without such dead code
  the rule is exact.
- The boxed unary minus does not check for overflow: it is right exactly when its operand
  is not -2^31 (`Machine.NegRefExact`). The raw one traps (`MachineIntegers.INegExact`).
- An unassigned boxed name on its own is copied as null by `y = x`, `return x`,
  `xs.append(x)` and a boxed parameter, and `x == y` answers when `y` is None or a list,
  where Python reports the name; other uses stop.
  `UnassignedReads.AlertExactly`, `UnassignedReads.BareNames` and
  `UnassignedReads.BareOperands` say which, form by form.
- A range loop steps its counter without a check. It is right exactly when the counter's
  final value fits 32 bits (`RangeCounters.OverflowsExactly`). Otherwise it goes round, and
  ends exactly if the number closest to the end of the range that it can take is past the
  end (`RangeCounters.CodeEndsExactly`), which every odd step makes sure of: in
  `range(0, 2147483647, 2)` Python ends and the compiled function runs for ever
  (`LoweringLimits.CounterWraps`).
- The search for whole-number names is said to run to a fixpoint and never to change what
  can be observed (`src/repr.rs:135-141`). It stops after eight rounds, each of which passes
  a correction on by one name: with nine names in a row it keeps a raw slot for a name that
  holds `True`, and the compiled function prints `1` (`LoweringLimits.RelayMisprints`).
  Eight names are never too many (`SlotInference.EightNamesSettle`), and the verdict is
  right exactly when one more round would change nothing (`SlotInference.SettledExactly`).
- The same comment gives `t = 0; t = t + 1` as an example of what is inferred; it is not
  (`InferenceLimits.StraightLineForgets`). Of straight-line code exactly the names are
  inferred of which every binding is a whole number by what is given or annotated alone
  (`InferenceLimits.StraightExactly`).
- A module variable is kept raw when it is bound in the leading assignments, "nothing else
  has run yet" (`src/codegen.rs:254-258`); but a right-hand side among them may already
  call a function that reads it (`TopLevel.PrefixRuleTooWeak`). `TopLevel.KeptNeverMissed`
  says when the rule protects, `TopLevel.PrefixRuleExact` that the condition is exact.
- The code prints each argument of `print` before it computes the next: in
  `print(1, 1 // 0)` it prints `1`, Python nothing (`DepartureCases.PrintCutShort`). With
  quiet later arguments the two agree exactly if the first fails or no later one does
  (`DepartureCases.PrintsAgreeExactly`).
- The code computes the end of a range before its start: `range(1 // 0, 2147483647 + 1)`
  reports the other error (`DepartureCases.RangeMisreports`), `range(f(), g())` prints in the
  other order (`DepartureCases.RangeReorders`). Quiet bounds agree exactly unless both fail,
  differently (`DepartureCases.BoundsAgreeExactly`).
- The code computes the argument of `append` before it looks at the receiver: `x.append(f())`
  with x a number lets f print (`DepartureCases.AppendTalks`,
  `DepartureCases.LookupsAgreeExactly`).
- The code repeats no list by a truth value and orders no lists, and on all other values its
  operators are Python's (`DepartureCases.OperatorsAgreeExactly`,
  `DepartureCases.ListsRefused`).
- A comment calls annotated assignments plain ones outside the native back end
  (`src/ast.rs:33-35`); the slots depend on them, and they are not checked:
  `def f(b): n: int = b; t = n; print(t)` called with `True` prints `1`
  (`TrustedAnnotations.AnnotationBelieved`). With any expression in the place of `b` it goes
  wrong exactly when that gives no whole number (`TrustedAnnotations.AnnotationsExactly`);
  nothing goes wrong if every binding of a name that counts as whole is a whole number
  (`CompiledFunction.WholeNeverMistyped`).
- A comment says a lying `-> int` traps at the call (`src/repr.rs:70-73`);
  `def f(b) -> int: return b` called with `True` gives back 1
  (`TrustedAnnotations.EchoGivesOne`); a returned truth value never traps
  (`TrustedAnnotations.ResultsExactly`). A raw result, parameter or slot keeps exactly whole
  numbers (`DepartureCases.SlotsAgreeExactly`), and on expressions of one operator the text
  says exactly which those are (`DepartureCases.WholeExactly`).
- `len` counts as a whole number for the inference even when the program defines its own: if
  that answers `True`, the code binds 1 (`TrustedAnnotations.OwnLenBelieved`,
  `TrustedAnnotations.OwnLenMisbinds`).
- A list that holds itself, however deep inside, is compared with itself for ever
  (`RuntimeEquality.CyclicNeverAnswers`), where Python answers by identity. Comparisons among
  some values all end exactly if each of them can be written out
  (`RuntimeEquality.EndsExactly`).
- The integer parser reports an overflow as soon as the digits pass 2^31, before it looks
  at what follows them; the text is refused either way.
- A comment in `src/component.rs` (line 569) calls nested list returns refused; the code
  under it lowers them, and so does the model.

## Model

| member | source | states |
|---|---|---|
| ActivityBuilder.Builder.Block | src/activity.rs:197-224 | pushing nodes and edges in place leaves exactly the graph and the way of ending that the recursive construction gives; a jump ends the block and nothing after it is drawn |
| ActivityBuilder.Builder.Stmt | src/activity.rs:229-285 | one statement: at most one node is added, entered and left by the ids returned; what it must be is said apart, by NodeWired and the traces |
| ActivityWiring.NodeWired | src/activity.rs:229-353 | what stands for a statement: an action, or a structured node of the right kind around a wired body, on the statement's line; a range loop's says which variable runs from where to where by what |
| ActivityBuilder.Builder.BuildLoop | src/activity.rs:287-306 | a loop becomes one structured node around decision, guarded body, edge back and edge out |
| ActivityBuilder.Builder.BuildIf | src/activity.rs:308-335 | an if/elif/else becomes one structured node around a chain of decisions that share a merge |
| ActivityBuilder.Builder.WireBranch | src/activity.rs:355-363 | a branch hangs off one guarded edge and either joins the merge or keeps its jump |
| ActivityBuilder.BuildActivity | src/activity.rs:99-110 | the whole of pass 1 |
| ActivityWiring.BlockWired | src/activity.rs:197-224 | whatever graph and open end it continues, building a block leaves nodes that perform those statements one after another and then whatever follows, and touches no earlier node but the open end |
| ActivityWiring.ArmsWired | src/activity.rs:308-335 | each elif decision hangs off the else edge of the one before; the last else edge leads into the else block or the merge |
| ActivityWiring.BuildWires | src/activity.rs:99-110 | from the initial node the nested graph performs exactly the statements and then reaches the final node |
| ActivityTidy.BuildTidy | src/activity.rs:99-363 | what the second pass relies on: a structured node has one in-edge, the initial node none, the exit no out-edge, edges join existing nodes, at every depth |
| ActivityFlatten.Flattener.GlobalId | src/activity.rs:643-667 | an id is handed out once per local node and its flat node is drawn at that moment |
| ActivityFlatten.Flattener.EmitEdges | src/activity.rs:694-710 | the loop over the edges out of a node: the walk invariant holds after every edge, and no edge is lost, doubled or drawn to a node it does not name |
| ActivityFlatten.Flattener.WalkNode | src/activity.rs:670-711 | a structured node is met through its only edge, which is already drawn, so redirecting splices it out completely; plain nodes are walked once |
| ActivityFlatten.Flattener.RedirectEdges | src/activity.rs:687-691 | every edge into the stand-in id, and no other, is moved to the spliced body |
| ActivityFlatten.Flattener.WalkActivity | src/activity.rs:625-641 | the whole activity, all nested bodies spliced in and all jumps resolved, lies in the flat graph; everything flattened before is as it was |
| FlatGraphs.FlatFrame | src/activity.rs:604-641 | later edges leave a finished body alone as long as they touch only its exit |
| FlatPaths.Prune | src/activity.rs:447-459 | the worklist and the two retain calls keep exactly the nodes the start reaches and the edges that leave them |
| FlatPaths.PrunedPaths | src/activity.rs:447-459 | dropping what is unreachable changes no path from the start |
| ActivityTraces.BlockChoices | src/activity.rs:197-224 | the reference semantics, written per kind of statement: assignments, expressions and returned values report their text up to the end of the value and their line, unless desugared; decisions their condition or header, line and outcome; a run uses its choices in order and reports exactly those it used |
| ActivityMeaning.BlockFollows | src/activity.rs:197-363 | for any choices, the flat graph has the path of the run of a block, ending where falling through, break, continue and return each belong |
| ActivityLegal.BlockCover | src/activity.rs:197-363 | every node of a block is legal, leads only inside the block or to its ways out, and can get out |
| ActivityLegal.DiagramLegal | src/activity.rs:443-460 | the flat graph is a legal activity: unique ids, no dangling edge, one in-edge-free initial node, one final node, one out-edge per action and merge, one Cond and one Else edge per decision, everything on a path from initial to final |
| ActivityLegal.SamePath | src/activity.rs:587-711 | the flat graph is deterministic: the guards taken fix the path |
| ActivityLegal.ControlFlowPreserved | src/activity.rs:443-711 | what initial-to-final paths say, each action with its text and line and each decision with the text its guard shows, is exactly the control-flow traces of the statements, both ways |
| ActivitySpan.SpansClosed | src/activity.rs:670-711 | at every depth, an edge leads to a node of the same activity that was drawn, or to the target of a jump |
| ActivitySpan.FlattenedLayable | src/activity.rs:443-460 | every flattened activity, stray jumps or not, has unique ids and no dangling edge, and its start reaches all of it: no lookup of the layout can fail |
| ActivityDiagram.Flatten | src/activity.rs:443-460 | pass 2 on any activity pass 1 can build |
| ActivityDiagram.Diagram | src/activity.rs:99-460 | both passes, for every program: a diagram that can be laid out; with every jump inside a loop, a legal one of exactly the program's control flow |
| ForwardEdges.Search.Visit | src/activity.rs:544-563 | the depth-first visit finishes the node and everything it can still reach, and keeps an edge exactly when its target is not on the stack |
| ForwardEdges.ForwardOf | src/activity.rs:543-573 | the search from the start of any graph; a kept edge is kept as often as the graph has it |
| ForwardEdges.Acyclic | src/activity.rs:543-573 | the kept edges form no cycle |
| ForwardEdges.CoversReachable | src/activity.rs:543-573 | the search finishes exactly the nodes the start reaches in the whole graph |
| ForwardEdges.DroppedIffBack | src/activity.rs:543-573 | an edge is dropped exactly when the kept edges lead from its target back to its source |
| LayoutRows.CountIncoming | src/activity.rs:478-481 | in-degrees over the kept edges |
| LayoutRows.Rows | src/activity.rs:482-495 | every finished node gets a row, the length of its longest path from the start; no counter lookup fails or goes below zero |
| LayoutRows.RowsRise | src/activity.rs:482-495 | rows rise along every path of kept edges |
| LayoutColumns.IdsOfRow | src/activity.rs:497-500 | a row holds exactly the nodes of that row, once each, in the order of the nodes |
| LayoutColumns.WantOf | src/activity.rs:507-515 | a node wants the average of what its edges ask: the parent's column, 90 to its left under a condition, 90 to its right under [else]; every parent is already placed |
| LayoutColumns.SortOk | src/activity.rs:517 | sorting by wanted position loses and doubles no box, and boxes that want the same stay in node order |
| LayoutColumns.PlaceRow | src/activity.rs:518-524 | the left-to-right loop that pushes boxes apart |
| LayoutColumns.SpreadOk | src/activity.rs:518-524 | after it no box is left of where it wants to be, or further right than its left neighbour pushes it, and any two boxes of the row are 40 apart, in order |
| LayoutColumns.PlaceNext | src/activity.rs:504-525 | placing the next row keeps every earlier row valid |
| LayoutColumns.Layout | src/activity.rs:472-532 | the whole layout: longest-path rows 70 apart, gaps, averages, a position for exactly the graph's nodes |
| LayoutColumns.EdgeDirections | src/activity.rs:472-573 | an edge was kept exactly when it goes strictly down; a dropped one goes up, or is level when it joins a node to itself |
| LayoutReading.BelowItsParent | src/activity.rs:464-471 | a node that one edge leads down to wants to stand 90 left of, 90 right of or straight below where that edge comes from, by its guard; it does, or a box 40 to its left keeps it from it |
| LayoutReading.BranchesSplit | src/activity.rs:464-471 | in every layout the [cond] child of a decision wants x - 90 and its [else] child x + 90, and in one row the first is to the left of the second |
| LayoutReading.MeetsHalfWay | src/activity.rs:507-515 | where two plain edges meet, the node wants to stand half way between them |
| LayoutReading.StartAtZero | src/activity.rs:507-524 | the start is alone in row 0, at column 0 |
| LayoutReading.NeverOverlap | src/activity.rs:469-471 | any two boxes of one row have 40 between them |
| LayoutReading.OnlyLayout | src/activity.rs:472-532 | given which edges are kept, no other rows and columns meet these conditions |
| ActivityLayout.FindInitial | src/activity.rs:473-475 | the first initial node |
| ActivityLayout.FlattenAndLayout | src/activity.rs:427-435 | end to end, for every program: each node gets its place of the layered layout, kept edges go down by at least 70, boxes of width 140 are 40 apart; with every jump inside a loop the diagram is legal and trace-exact |
| MissingReturn.FirstValueReturn | src/check.rs:879-897 | the first `return <value>` in document order, in all child blocks |
| MissingReturn.FirstBareReturn | src/check.rs:900-918 | the first bare `return` in document order |
| MissingReturn.Checker.TotalFunction | src/check.rs:478-499 | one finding, with both lines, exactly when a value is given back somewhere and the end or a bare return can be reached |
| MissingReturn.NoSuchReturn | src/check.rs:879-918 | when a search finds nothing, no run of any length returns that way |
| MissingReturn.OwnBreakOnly | src/check.rs:967-984 | without a break of its own, no run breaks out of a block |
| MissingReturn.LoopNeverBreaks | src/check.rs:967-984 | a loop consumes the breaks and continues of its body |
| MissingReturn.NeverFallsOff | src/check.rs:932-965 | no run passes the end of statements judged not to fall off, `while True` included |
| MissingReturn.TotalOrProcedure | src/check.rs:472-499 | silence is sound: either no run returns a value, or every run that ends normally does |
| MissingReturn.DivergesOrReturns | src/codegen.rs:10003-10027 | `all_paths_return` implies not falling off the end, and a valued return somewhere |
| FreeRuns.WalkIsTrace | src/check.rs:932-984 | runs whose tests are free, except that of `while True`, are runs of the diagrams with the same choices |
| FreeRuns.BreaksExactly | src/check.rs:967-984 | without dead code a break of its own is found exactly if some run breaks out, in the diagrams' traces too |
| FreeRuns.FallsExactly | src/check.rs:932-965 | without dead code, falling off is reported exactly if some run passes the end, a `while True` never ending by its test |
| FreeRuns.ReturnsExactly | src/check.rs:879-918 | without dead code, a return of either kind is found exactly if some run takes one |
| FreeRuns.OwesExactly | src/check.rs:472-499 | without dead code a finding is due exactly if some run gives back a value and some run gives back none |
| FreeRuns.OwesWhenMixed | src/check.rs:472-499 | for every body, two such runs mean a finding |
| FreeRuns.DeadCodeBlamed | src/check.rs:932-951 | why dead code is excluded: `return e` followed by `pass` is reported although every run returns a value |
| FreeRuns.NestedCounted | src/check.rs:879-897 | a return inside a nested function counts for the outer one |
| FreeRuns.AllReturnExactly | src/codegen.rs:10003-10027 | without loops, dead code and bare returns, `all_paths_return` holds exactly if no run passes the end |
| MissingReturn.TailUnreachable | src/check.rs:132-143 | with the gate passed, a function all of whose paths return reaches neither its tail nor a bare return |
| Gate.TypeChecker.ExprType | src/check.rs:526-697 | the type of an expression, and every finding in it, in order |
| Gate.TypeChecker.OperatorType | src/check.rs:699-778 | operators: what they give, and the findings about texts |
| Gate.TypeChecker.CallType | src/check.rs:780-875 | calls of values, of annotated functions and of built-ins |
| Gate.TypeChecker.Arguments | src/check.rs:806-832 | each argument against what its parameter wants; a truth value may stand for a whole number |
| Gate.TypeChecker.BlockTypes | src/check.rs:245-473 | statements in turn, what is known of names threaded through |
| Gate.TypeChecker.IfTypes | src/check.rs:292-325 | branches walked from copies, and joined: where they disagree nothing is known |
| Gate.TypeChecker.ForEachTypes | src/check.rs:357-393 | a loop over a single value is a finding; what a loop changes is not known after it |
| Gate.Accept | src/check.rs:132-219 | a function reaches the code generator exactly if nothing is found in it and it owes no return |
| Gate.BlatantRefused | src/check.rs:266-290 | a truth value annotated int is refused wherever it stands |
| Gate.UnremarkableReaches | src/check.rs:111-143 | bodies without annotations, calls but of print, loops over items and valued returns always get through |
| Findings.TypeTrue | src/check.rs:526-697 | the type of an expression is true of its value in every run of Python in which the facts on names are true and callees keep their signatures |
| Findings.LenFails | src/check.rs:780-875 | an expression in which a len is objected to never has a value then |
| Findings.FactsTrue | src/check.rs:245-326 | without loops the facts after a body are true at the end of every run, as long as annotations are |
| FindingCases.ForFails | src/check.rs:357-376 | a loop over what is known to be one value stops with an error |
| FindingCases.StraightStops | src/check.rs:245-290 | straight-line code with an objection to a len never gets past it |
| FindingCases.FindingRightExactly | src/check.rs:501-521 | a loop is judged by what is known before its first pass: in these functions, all refused, the objection is right exactly if the first pass reaches the len |
| FindingCases.CorrectButRefused | src/check.rs:501-521 | a function that runs without error in Python and is refused |
| FindingCases.OperatorJudged | src/check.rs:699-778 | operators: for all pairs of types, what is objected to and what comes out |
| FindingCases.ReturnJudged | src/check.rs:391-414 | for all pairs of types, which results contradict a signature; a whole number will do for a decimal one |
| FindingCases.ArgumentJudged | src/check.rs:806-832 | for all pairs of types, which arguments contradict a parameter; a truth value will do for a whole number, too |
| FindingCases.CallTyped | src/check.rs:780-832 | calling what is known to be a value is objected to; a known function gives back what it promises |
| FindingCases.AnnotationJudged | src/check.rs:266-290 | which values contradict an annotation; the name has the announced type afterwards |
| FindingCases.ParametersKnown | src/check.rs:150-219 | a parameter is known exactly if it is announced int |
| FindingCases.LoopJudged | src/check.rs:345-393 | what a loop over items binds, and over which types it is objected to |
| FindingCases.LoopForgets | src/check.rs:501-521 | after a loop exactly what its body changed is unknown |
| FindingCases.BranchAgrees | src/check.rs:996-1018 | after a branch a name of the first way is known exactly if the ways agree |
| FindingCases.BuiltinsJudged | src/check.rs:833-875 | what each built-in gives back |
| DefiniteAssignment.CollectReads | src/codegen.rs:9684-9765 | the walk over an expression adds exactly the names read outside `defined` |
| DefiniteAssignment.CollectMaybeUnassignedReads | src/codegen.rs:9679-9848 | the walk over statements: bodies get a copy of `defined`, their assignments do not escape |
| DefiniteAssignment.NameErrorsDemoted | src/codegen.rs:9679-9848 | for every run under any of the rules, whatever the body calls and from any state in which `defined` is assigned: only demoted names are ever read unassigned, what the analysis calls assigned is assigned, and no callee that finds its module variables reports one |
| DefiniteAssignment.DefinitelyAssigned | src/codegen.rs:6996-7005 | a name that was not demoted is never read before it is stored, across zero-trip loops, break, continue, early return and calls |
| TopLevel.ReadsOfFunctions | src/codegen.rs:267-281 | the module variables that functions read, locals and parameters aside |
| TopLevel.PrefixBound | src/codegen.rs:282-293 | the names bound in the leading assignments, definitions and imports not ending the prefix |
| TopLevel.PrefixExactly | src/codegen.rs:282-293 | a name is bound in front exactly if a top-level assignment binds it behind nothing but assignments, functions and imports |
| TopLevel.TypedGlobals | src/codegen.rs:260-300 | the whole retain rule: inferred, not demoted, not a for-each variable, and bound in the prefix if a function reads it |
| TopLevel.RepliesExact | src/codegen.rs:124-157 | a call of a program's own function is a run of its body, which gives back proper values |
| TopLevel.LinkedTrusts | src/codegen.rs:267-281 | however deep functions call each other, none reports a variable that none of them reads or all of them find assigned |
| TopLevel.KeptNeverMissed | src/codegen.rs:254-300 | in no run of a program, and of no function it calls, is a variable the rule keeps read unassigned, if no function reads it or no right-hand side up to its first binding calls one |
| TopLevel.PlainKept | src/codegen.rs:282-298 | the rule keeps what a prefix of plain assignments binds, called too early or not |
| TopLevel.PrefixRuleExact | src/codegen.rs:254-300 | for such prefixes the variable is safe in all runs with all function bodies exactly if no function is called before it is bound |
| TopLevel.PrefixRuleTooWeak | src/codegen.rs:254-300 | `a = f(); b = 1` with f reading b: the rule keeps b, and the program ends in a NameError inside f |
| SlotInference.CollectAnn | src/repr.rs:149-178 | the annotations of a body, the first of a name counting |
| SlotInference.WalkBindings | src/repr.rs:194-276 | one walk over all bindings, judged by what was known when the walk entered their block |
| SlotInference.InferSlots | src/repr.rs:142-190 | at most eight walks, fewer when one changes nothing |
| SlotInference.SettledExactly | src/repr.rs:127-190 | every binding of every inferred name is a whole number by the names inferred or given, exactly when one more walk would change nothing |
| SlotInference.EightNamesSettle | src/repr.rs:180-187 | that is so for every body that assigns eight names or fewer |
| WholeSlots.InferredInt | src/repr.rs:74-125 | an expression inferred a whole number evaluates to one, as long as names and callees keep their promises |
| WholeSlots.NeverMistyped | src/repr.rs:127-190 | then no run ever binds an inferred name to anything but a whole number |
| InferenceLimits.StopsTooEarly | src/repr.rs:180-187 | a relay of nine or more names: eight rounds leave the ninth and those after it whole although they are copied from a mixed one |
| InferenceLimits.StraightExactly | src/repr.rs:127-190 | of straight-line code exactly those names are inferred of which every binding is a whole number by what is given or annotated alone |
| InferenceLimits.StraightLineForgets | src/repr.rs:139-140 | `t = 0; t = t + 1`, the documentation's own example, is not inferred |
| InferenceLimits.EightRoundsTooFew | src/repr.rs:127-141 | that program prints `True` in Python and `1` by the rules of compiled code |
| MachineIntegers.WidenedExact | src/codegen.rs:1045-1061 | checked +, -, * on 64-bit intermediates give the exact result or trap; nothing wraps |
| MachineIntegers.INegExact | src/codegen.rs:1133-1141 | checked negation is exact or traps, on -2^31 only |
| MachineIntegers.FloorDivExact | src/codegen.rs:6245-6270 | truncating division with its correction is division towards minus infinity; zero divisors and -2^31 // -1 trap |
| MachineIntegers.FloorModExact | src/codegen.rs:6272-6293 | the corrected remainder is the floor remainder and always fits |
| Machine.UnboxBox | src/codegen.rs:1476-1519 | unboxing undoes boxing for every 32-bit number, and the shift test picks the 31-bit form exactly for those that fit it |
| Machine.NegRefExact | src/codegen.rs:4125-4141 | the unchecked boxed negation is right exactly when the operand is not -2^31 |
| Machine.IndexExact | src/codegen.rs:1788-1842 | an item by position, negative positions from the end, an error exactly when there is none |
| ExpressionSimulation.ScalarSim | src/codegen.rs:9382-9507 | raw code computes the value, makes the same calls and prints the same, or traps with the same error |
| ExpressionSimulation.ScalarExact | src/codegen.rs:9374-9507 | raw code yields the unbounded-integer value when every intermediate fits 32 bits and otherwise traps; it never wraps |
| ExpressionSimulation.ArgsSim | src/codegen.rs:9135-9172 | arguments in turn, raw parameters as numbers |
| ExpressionSimulation.BinaryMatches | src/codegen.rs:3926-4042 | the boxed arithmetic helpers agree with the operators on all pairs of values |
| ExpressionSimulation.EqMatches | src/codegen.rs:4199-4295 | `$py_eq` on numbers, booleans, None and null; on two lists both sides ask the same |
| ExpressionSimulation.CompareMatches | src/codegen.rs:4044-4107 | the ordered comparisons |
| ExpressionSimulation.TruthMatches | src/codegen.rs:1563-1609 | `$truthy` is the truth value |
| ExpressionSimulation.NegMatches | src/codegen.rs:4125-4141 | boxed negation, its wrap-around included |
| ExpressionSimulation.AppendMatches | src/codegen.rs:1868-1905 | append through any alias of the list, null items included |
| ExpressionSimulation.ValueSim | src/codegen.rs:7733-7951 | boxed code computes the value in an agreeing state or stops with the same error and output, for every expression, callee and store |
| ExpressionSimulation.CondSim | src/codegen.rs:9275-9322 | a compiled condition is nonzero exactly when the expression is true |
| ExpressionSimulation.BoundSim | src/codegen.rs:9253-9271 | a range bound as a raw number: direct, constant or unboxed |
| ExpressionSimulation.SlotSim | src/codegen.rs:6543-6557 | what a typed slot receives, also when the raw emitter declines |
| StatementSimulation.AssignSim | src/codegen.rs:6523-6563 | assignment to raw and boxed slots |
| StatementSimulation.ReturnSim | src/codegen.rs:6654-6685 | return in boxed and raw-result functions; a raw result takes numbers only |
| StatementSimulation.PrintSim | src/codegen.rs:6743-6762 | print of any number of values, each printed before the next is computed |
| StatementSimulation.ExprSim | src/codegen.rs:6564-6577 | call statements |
| Simulation.BlockSim | src/codegen.rs:6514-6519 | for every program, callee, store and fuel: the emitted code ends exactly as the rules of compiled code say, in an agreeing store, and leaves every counter and temporary handed out earlier untouched |
| Simulation.StmtSim | src/codegen.rs:6521-6741 | the same for each statement kind |
| Simulation.IfSim | src/codegen.rs:6764-6826 | if/elif/else as nested `if`s |
| Simulation.WhileSim | src/codegen.rs:6828-6853 | `block`/`loop`/`br_if`: as many passes, break and continue to their labels |
| Simulation.SetCountedSim | src/codegen.rs:6911-6930 | the counter is copied to the variable, so reassigning the variable cannot change the trip count |
| Simulation.CountedPassEnds | src/codegen.rs:6932-6956 | one pass of a counted loop: `continue` lands before the step, the counter is as the body found it |
| Simulation.RangeSim | src/codegen.rs:6938-6956 | all passes of a range loop, with the end as it was on entry and the counter wrapping |
| Simulation.SnapshotSim | src/codegen.rs:6899-6909 | a non-constant end is stored in a temporary no body writes |
| Simulation.ForSim | src/codegen.rs:6856-6957 | range loops in either direction |
| Simulation.EachSim | src/codegen.rs:7459-7480 | for-each: the length is read afresh on every pass, so appending inside extends the loop |
| Simulation.ForEachSim | src/codegen.rs:7429-7481 | for-each on any value; a non-list is a type error |
| ProperRuns.RunProper | src/codegen.rs:1045-1061 | in Python and watched runs every number stays a 32-bit one and every list within memory |
| Departures.EvalLeads | src/codegen.rs:7733-7951 | a watched computation that does not depart is Python's and the compiled code's; one that does has printed no more |
| Departures.WatchedRun | src/codegen.rs:6514-6741 | the same for every run of every block |
| UnassignedReads.EvalHalts | src/codegen.rs:7764-7772 | where a watched computation stops at an unassigned name, Python reports that name and strict code stops, with the same output |
| UnassignedReads.MissedRun | src/codegen.rs:6521-6741 | the same for whole runs of alert bodies; and where the watched run departs because both sides stop, they do, with the same output unless a print was cut short |
| UnassignedReads.AlertExactly | src/codegen.rs:6523-6762 | `y = x`, `return x` and `print(x)` with x unassigned: the code stops exactly where the text says so; Python always does |
| UnassignedReads.BareNames | src/codegen.rs:6523-6957 | what the code does with a bare unassigned name in each statement |
| UnassignedReads.BareOperands | src/codegen.rs:924-947 | append takes it; len, minus, arithmetic and ordering stop; `==` answers exactly when the other side is neither number nor truth value nor unassigned |
| ValueShapes.SureValue | src/codegen.rs:9374-9507 | which expressions give whole numbers, or at least numbers and truth values, in every watched run |
| ValueShapes.ValueWithin | src/codegen.rs:1045-1061 | between which bounds the value of any expression lies, read off its text |
| ValueShapes.QuietRuns | src/codegen.rs:7733-7951 | a quiet expression changes nothing, prints nothing, never departs, and has the same value or error wherever only the output differs |
| ValueShapes.CertainRuns | src/codegen.rs:7733-7951 | a certain one does not fail either |
| ValueShapes.InferredSurely | src/repr.rs:74-125 | what the inference calls whole is surely a whole number, if len is the built-in or gives back raw numbers |
| Risks.EvalTold | src/codegen.rs:7733-7951 | every departure of every expression is among the risks of its text |
| Risks.LaterQuiet | src/codegen.rs:6743-6762 | if the later arguments of print are quiet, the two ways to print agree, or both stop and the code has printed more |
| Risks.QuietBounds | src/codegen.rs:6899-6909 | the two orders of quiet range bounds agree, or both stop with nothing printed; they agree if start or end is certain |
| Risks.BoundsStay | src/codegen.rs:6949-6952 | where the text carries no counter risk the last counter of the loop fits 32 bits |
| ForeseenRuns.RunForeseen | src/codegen.rs:6514-6957 | for every body whose names are all assigned in time, and every callee: a watched run departs only where its text says it might |
| Termination.MoreFuel | src/codegen.rs:6828-6957 | a run that ended ends the same way with more fuel |
| FunctionEmitter.FuncCx.FreshMark | src/codegen.rs:6486-6490 | a new label number: emits exactly the code the simulation is about, and nothing on a compile error |
| FunctionEmitter.FuncCx.ScratchLocal | src/codegen.rs:6494-6499 | a new temporary, declared: emits exactly the code the simulation is about, and nothing on a compile error |
| FunctionEmitter.FuncCx.Stmts | src/codegen.rs:6514-6519 | statements in order, counters threaded, the loop stack as before: emits exactly the code the simulation is about, and nothing on a compile error |
| FunctionEmitter.FuncCx.GenStmt | src/codegen.rs:6521-6741 | the dispatch: emits exactly the code the simulation is about, and nothing on a compile error |
| FunctionEmitter.FuncCx.GenAssign | src/codegen.rs:6523-6563 | assignment: emits exactly the code the simulation is about, and nothing on a compile error |
| FunctionEmitter.FuncCx.GenPrint | src/codegen.rs:6743-6762 | print, a space between values and a line end after them: emits exactly the code the simulation is about, and nothing on a compile error |
| FunctionEmitter.FuncCx.GenIf | src/codegen.rs:6764-6789 | if: emits exactly the code the simulation is about, and nothing on a compile error |
| FunctionEmitter.FuncCx.ElseChain | src/codegen.rs:6794-6826 | the else side: emits exactly the code the simulation is about, and nothing on a compile error |
| FunctionEmitter.FuncCx.GenWhile | src/codegen.rs:6828-6853 | while, its labels pushed and popped: emits exactly the code the simulation is about, and nothing on a compile error |
| FunctionEmitter.FuncCx.GenFor | src/codegen.rs:6856-6957 | range loops: the end before the start, a temporary only when needed: emits exactly the code the simulation is about, and nothing on a compile error |
| FunctionEmitter.FuncCx.GenForEach | src/codegen.rs:7432-7481 | for-each: emits exactly the code the simulation is about, and nothing on a compile error |
| CompiledFunction.GenDef | src/codegen.rs:6962-7065 | inference, demotion, slots, body and tail of a compiled function |
| Compilable.CompilesExactly | src/codegen.rs:6500-7065 | a function compiles if and only if its text is in order: names known, numbers within 32 bits, calls with the right number of arguments, jumps inside loops, range steps nonzero constants, no nested function |
| Compilable.StepExactly | src/codegen.rs:6880-6899 | a range step is accepted exactly if it is a nonzero 32-bit constant, and counts down exactly if it is negated an odd number of times |
| Compilable.ValueExactly | src/codegen.rs:7733-7900 | an expression has code exactly if every name in it is known, every literal fits and every call is of a known function with the right number of arguments |
| Compilable.NamesExactly | src/codegen.rs:10031-10072 | the names that can be read are the parameters, whatever a statement at any depth binds, and the module's |
| RawSlots.DemotedExactly | src/codegen.rs:9667-9848 | a name is demoted exactly if it is read before a statement of the same or an enclosing block has assigned it |
| RawSlots.RawSlotsExactly | src/codegen.rs:6962-7040 | which names live in raw slots, and when the result is raw, said about the text |
| RawSlots.WholeExactlyByLeaves | src/repr.rs:74-125 | an expression is inferred whole exactly if all operands of its arithmetic are literals, whole names, len or raw results |
| CompiledFunction.EntryAgrees | src/codegen.rs:6977-7029 | on entry every slot agrees with the locals, raw parameters included |
| CompiledFunction.RawNeverBlamed | src/codegen.rs:6996-7012 | no run of a body reads a raw slot before it is stored, under any of the rules |
| CompiledFunction.FunctionExact | src/codegen.rs:6959-7065 | every call of every compiled function does exactly what the rules of compiled code say: same prints, lists and calls, same result or error, or neither ends |
| CompiledFunction.FunctionPreserved | src/codegen.rs:6959-7065 | against Python: the same, unless the watched run departs, and then all have printed what was printed until then |
| CompiledFunction.UnassignedStops | src/codegen.rs:6996-7012 | at an unassigned name, a demoted and boxed one, Python reports it, and its output is the beginning of the code's; alert code stops there too, nothing more printed |
| CompiledFunction.AssignedInTime | src/codegen.rs:6996-7005 | with nothing demoted, no run departs at an unassigned name and Python meets no NameError of the body's own |
| CompiledFunction.InferredNeverMistyped | src/codegen.rs:6984-6992 | once the inference came to rest, no run departs because of an inferred name |
| CompiledFunction.WholeNeverMistyped | src/codegen.rs:6984-6992 | if every binding of a name that counts as whole is a whole number, annotated names included, no run departs because of one |
| CompiledFunction.CallsEndAlike | src/codegen.rs:6959-7065 | if watched runs depart only where both sides stop, then without fuel: Python and the compiled function both end, alike or both in an error, or neither does |
| CompiledFunction.DeparturesForeseen | src/codegen.rs:6959-7065 | no call of a function whose names are all assigned in time departs outside the risks of its text |
| CompiledFunction.StopsPreserved | src/codegen.rs:6959-7065 | where the watched run departs because both sides stop, Python and the compiled function both end in an error, with the same output unless a print was cut short |
| CompiledFunction.ExactPreserved | src/codegen.rs:6959-7065 | calls of a body without risks are Python's without exception, if called functions keep their promises |
| CompiledFunction.BenignPreserved | src/codegen.rs:6959-7065 | calls of a body that risks no more than another error or a line cut short are Python's or both stop |
| CompiledFunction.BenignEndsAlike | src/codegen.rs:6959-7065 | such bodies meet the hypothesis of CallsEndAlike for every fuel, those without risks never depart |
| CompiledFunction.NoBareNoBoxed | src/codegen.rs:6661-6685 | without a bare return a raw-result function contains no boxed return at all |
| CompiledFunction.NeverPastEnd | src/codegen.rs:7033-7040 | code whose every path returns never runs past its end, from any machine state |
| CompiledFunction.RawResult | src/codegen.rs:7033-7040 | what justifies the emitted `(unreachable)` |
| RangeCounters.StaysSafe | src/codegen.rs:6949-6952 | for every body: a range whose final counter fits 32 bits wraps no counter but, exactly where they do, those of its body |
| RangeCounters.OverflowsExactly | src/codegen.rs:6949-6952 | a range whose passes go on in this run wraps its counter exactly when that final value does not fit, and otherwise ends |
| RangeCounters.PythonEnds | src/codegen.rs:6938-6956 | Python ends such a range |
| RangeCounters.VisitedAll | src/codegen.rs:6949-6952 | going round, the compiled counter takes every 32-bit number that lies a multiple of the step's largest power of two from its start |
| RangeCounters.CodeEndsExactly | src/codegen.rs:6938-6956 | for every step: the compiled range ends exactly if the number closest to the end of the 32-bit range among those is past the end; otherwise it exhausts every fuel |
| RangeCounters.OddComesOut | src/codegen.rs:6938-6956 | an odd step always comes out, and so does a counter that stays in range |
| LoweringLimits.CounterWraps | src/codegen.rs:6938-6956 | `range(0, 2147483647, 2)`: Python returns, the compiled function exhausts every fuel |
| LoweringLimits.RelayMisprints | src/repr.rs:127-141 | the relay of nine names as a function: its compiled code prints `1` where Python prints `True` |
| LoweringLimits.BothAccepted | src/check.rs:111-143 | the type checker lets the functions of both examples through |
| LoweringLimits.TooEarlyAccepted | src/check.rs:111-219 | and the program that calls a function before the variable it reads is bound |
| TrustedAnnotations.AnnotationsExactly | src/ast.rs:33-35 | for every e over the parameters: a call of `n: int = e; t = n; print(t)` is Python's exactly if e gives a whole number; a truth value is printed as 1 or 0, anything else traps |
| TrustedAnnotations.AnnotationBelieved | src/ast.rs:33-35 | with e a parameter that holds True: the annotation, said to make no difference here, makes the compiled function print `1` where Python prints `True` |
| TrustedAnnotations.ResultsExactly | src/repr.rs:69-73 | for every e: a call of `return e` under `-> int` is Python's exactly if e gives a whole number; a truth value comes back as 1 or 0, and only what is no number traps |
| TrustedAnnotations.EchoGivesOne | src/repr.rs:69-73 | `def f(b) -> int: return b` called with True: Python gives back True, the compiled function 1; nothing traps |
| TrustedAnnotations.OwnLenBelieved | src/repr.rs:109-112 | `n = len(b)` makes n a whole number, and the search comes to rest, although the program's own len gives back boxed values |
| TrustedAnnotations.OwnLenMisbinds | src/repr.rs:109-112 | if that len answers True, Python binds True and the code 1 |
| TrustedAnnotations.UntypedAccepted | src/check.rs:111-143 | the type checker lets both functions through when e is a parameter without annotation, and refuses the first when e is True itself |
| DepartureCases.PrintsAgreeExactly | src/codegen.rs:6743-6762 | with quiet later arguments the two ways to print agree exactly if the first argument fails or no later one does; otherwise both stop, the code having printed more |
| DepartureCases.PrintCutShort | src/codegen.rs:6743-6762 | `print(1, 1 // 0)`: Python prints nothing, the code `1` and a space |
| DepartureCases.BoundsAgreeExactly | src/codegen.rs:6899-6909 | quiet bounds give the same range or error in both orders exactly unless both cannot be had, for different reasons |
| DepartureCases.RangeMisreports | src/codegen.rs:6899-6909 | `range(1 // 0, 2147483647 + 1)`: Python reports the division, the code the overflow |
| DepartureCases.RangeReorders | src/codegen.rs:6899-6909 | `range(f(), g())`: what f and g print comes in the other order |
| DepartureCases.LookupsAgreeExactly | src/codegen.rs:8491-8496 | append agrees exactly if the receiver is a list, or the argument is had in silence, or fails as the lookup would |
| DepartureCases.AppendTalks | src/codegen.rs:8491-8496 | `x.append(f())` with x a number: f prints only in the code |
| DepartureCases.OperatorsAgreeExactly | src/codegen.rs:3996-4107 | on all pairs of values the boxed operators are Python's exactly unless a list is repeated by a truth value or two lists are ordered |
| DepartureCases.ListsRefused | src/codegen.rs:3996-4107 | `xs * True` and `xs < xs` are type errors in the code |
| DepartureCases.SlotsAgreeExactly | src/codegen.rs:6543-6557 | a raw parameter, result or slot keeps exactly whole numbers as they are |
| DepartureCases.NegationsAgreeExactly | src/codegen.rs:4125-4141 | negation agrees exactly on numbers other than -2^31, or unboxed |
| DepartureCases.OddValue | src/repr.rs:74-125 | an expression of one operator that is not surely a whole number is none in some world |
| DepartureCases.WholeExactly | src/repr.rs:74-125 | so on those expressions the text says exactly which are whole numbers in Python |
| DepartureCases.CommonBounds | src/codegen.rs:6899-6952 | the text of a range by two between constants carries no risk, that of a sum as the start at most another error |
| DepartureCases.CommonArguments | src/codegen.rs:6743-6762 | the negation of a remainder and a print of names carry no risk, a sum as the argument of append another error, as a later argument of print a line cut short |
| DepartureCases.CasesAccepted | src/check.rs:111-143 | the type checker finds nothing in any of these statements |
| RuntimeLists.PyList.Grow | src/codegen.rs:1876-1891 | growth to (capacity + 4) * 2 keeps the items and what the list can ever hold |
| RuntimeLists.PyList.Append | src/codegen.rs:1868-1905 | the sequence grows by one item, across growth |
| RuntimeLists.PyList.Insert | src/codegen.rs:4818-4853 | insertion at Python's clamped position |
| RuntimeLists.PyList.PutAt | src/codegen.rs:4836-4839 | the overlapping copy shifts the tail right by one |
| RuntimeLists.PyList.RemoveAt | src/codegen.rs:5674-5684 | the overlapping copy shifts the tail left by one |
| RuntimeLists.PyList.Pop | src/codegen.rs:5739-5760 | the item at the (possibly negative) position leaves; out of range changes nothing |
| RuntimeLists.PyList.Reverse | src/codegen.rs:4757-4793 | the reversed sequence; the spare capacity is left alone |
| RuntimeLists.PyList.Extend | src/codegen.rs:4795-4816 | the items the other list held at the start, even when it is this list; exactly when they do not all fit, the list is full with as many as do |
| RuntimeLists.ExtendSelf | src/codegen.rs:4795-4816 | `xs.extend(xs)` ends with xs doubled exactly if twice its items fit, and full with a beginning of that otherwise |
| RuntimeLists.CeilingBound | src/codegen.rs:1876-1891 | the capacity growth ends at: over a thousand million items fit any list |
| RuntimeLists.PopInserted | src/codegen.rs:4818-4853 | popping where something was inserted undoes the insertion |
| StableSorts.Sink | src/codegen.rs:4612-4635 | the inner loop inserts one item before the larger ones |
| StableSorts.SortInPlace | src/codegen.rs:4714-4755 | the in-place sort; the spare capacity is left alone |
| StableSorts.Sorted | src/codegen.rs:4595-4652 | sorting into a copy, in both directions |
| StableSorts.SortedByKey | src/codegen.rs:8638-8723 | decorate, sort the pairs, undecorate is the stable sort by key |
| StableSorts.SortIsStable | src/codegen.rs:4595-4755 | for every strict weak order: a permutation, ordered, equal items in their original order |
| StableSorts.SortUnique | src/codegen.rs:4595-4755 | no other sequence has those three properties |
| StableSorts.SortedEitherWay | src/codegen.rs:4595-4652 | in both directions the items are in order and equal ones in their original order, so reverse is not sorting and then reversing |
| StableSorts.DirectedWeak | src/codegen.rs:4619-4624 | swapping the operands for reverse keeps a strict weak order, so descending sorts are stable too |
| StableSorts.UndecoratedSort | src/codegen.rs:8638-8723 | sorting decorated pairs is sorting by key |
| Shuffle.ShuffleInPlace | src/codegen.rs:1433-1464 | the swaps from the last position down to 1, for any draws |
| Shuffle.ShuffledPermutes | src/codegen.rs:1433-1464 | every shuffle is a permutation |
| Shuffle.ShuffledInjective | src/codegen.rs:1433-1464 | different choice vectors give different orders of distinct items |
| Shuffle.ShuffledSurjective | src/codegen.rs:1433-1464 | every order is reached by some choice vector |
| Slices.Adjust | src/codegen.rs:2524-2546 | one explicit bound, without overflow |
| Slices.CountExact | src/codegen.rs:2590-2599 | the computed count is the number of positions visited, also for a step of -2^31 |
| Slices.PositionsInRange | src/codegen.rs:2548-2631 | every position visited is inside the list |
| Slices.Gather | src/codegen.rs:2601-2631 | copies exactly those items; every read and write is in range |
| Slices.PySlice | src/codegen.rs:2548-2631 | for every list, every omitted or 32-bit bound and every nonzero step, the slice Python defines |
| Slices.WholeSlices | src/codegen.rs:2548-2631 | `xs[:]` copies and `xs[::-1]` reverses |
| Slices.SplitAnywhere | src/codegen.rs:2548-2631 | `xs[:k] + xs[k:] == xs` for every k |
| Slices.InsertedBetween | src/codegen.rs:2548-2631 | insertion puts an item between the slice up to the position and the slice from it on, whatever the position |
| Slices.PositionNames | src/codegen.rs:1788-1842 | the item a position names is the first of the slice from there on, exactly from -len to len - 1 |
| DistinctItems.Counting | src/codegen.rs:2034-2053 | distinct items that all occur in an equally long distinct list are all of it |
| DistinctItems.ScanDecides | src/codegen.rs:2034-2053 | so comparing sizes and scanning one way decides equality of sets |
| DistinctItems.SubsetDecides | src/codegen.rs:2167-2199 | so does the scan for subsets |
| DistinctItems.AddedAllHas | src/codegen.rs:1927-1996 | inserting keeps items distinct and has exactly the items of both |
| DistinctItems.WithoutHas | src/codegen.rs:1959-1970 | shift-down removal forgets exactly what equals the removed item |
| RuntimeSets.SetOpMeaning | src/codegen.rs:2055-2165 | union, intersection, symmetric difference and difference contain exactly the right items, once each |
| RuntimeSets.PySet.Find | src/codegen.rs:1907-1925 | an index of an equal item, or -1 when there is none |
| RuntimeSets.PySet.Insert | src/codegen.rs:1927-1957 | adds the item unless an equal one is there; fails exactly when a new one finds no room |
| RuntimeSets.PySet.RemoveAt | src/codegen.rs:1959-1970 | shift-down removal keeps the items distinct |
| RuntimeSets.PySet.InsertAll | src/codegen.rs:2073-2150 | the insertion loops of the operators: what they lead to, or exactly as much of it as fits |
| RuntimeSets.PySet.Equals | src/codegen.rs:2034-2053 | set equality |
| RuntimeSets.PySet.IsSubset | src/codegen.rs:2178-2186 | every item found in the other set |
| RuntimeSets.SetOf | src/codegen.rs:1972-1996 | a set from any sequence, or exactly as much of it as fits |
| RuntimeSets.SetOp | src/codegen.rs:2055-2165 | the four operators on two sets, or exactly as much of the result as fits |
| RuntimeSets.SubsetMethod | src/codegen.rs:2167-2199 | issubset and issuperset of any iterable whose distinct items fit a set |
| RuntimeDicts.PutLookup | src/codegen.rs:2419-2482 | assignment changes the value under equal keys and nothing else; keys stay distinct |
| RuntimeDicts.RemoveLookup | src/codegen.rs:5658-5673 | removal forgets one key and nothing else |
| RuntimeDicts.PutAllLookup | src/codegen.rs:2201-2224 | after an update the right-hand dict wins |
| RuntimeDicts.DictScanDecides | src/codegen.rs:2675-2717 | comparing sizes and scanning one way decides equality of maps |
| RuntimeDicts.PyDict.Find | src/codegen.rs:2375-2398 | an index of an equal key, or -1 |
| RuntimeDicts.PyDict.Get | src/codegen.rs:2400-2417 | the value under a key; none is a KeyError |
| RuntimeDicts.PyDict.Grow | src/codegen.rs:2433-2463 | both arrays grow together |
| RuntimeDicts.PyDict.Set | src/codegen.rs:2419-2482 | update in place or append at the end; fails exactly when a new key finds no room |
| RuntimeDicts.PyDict.RemoveAt | src/codegen.rs:5658-5673 | both tails shift down |
| RuntimeDicts.PyDict.Pop | src/codegen.rs:5711-5738 | the value leaves with its key; a missing key changes nothing |
| RuntimeDicts.PyDict.SetDefault | src/codegen.rs:2239-2257 | inserts only when the key is missing; fails exactly when it then finds no room |
| RuntimeDicts.PyDict.Clear | src/codegen.rs:2226-2237 | no entry is left |
| RuntimeDicts.PyDict.Equals | src/codegen.rs:2675-2717 | dict equality |
| RuntimeDicts.Update | src/codegen.rs:2201-2224 | all entries of another dict, or of this one, assigned in turn; fails exactly when they do not all fit, full and before a new key |
| RuntimeEquality.PyEquals | src/codegen.rs:4195-4295 | `==` on numbers, booleans, None and lists |
| RuntimeEquality.ListEquals | src/codegen.rs:3581-3612 | the loop over the items of two lists |
| RuntimeEquality.EqDecides | src/codegen.rs:3581-4295 | on values that can be written out, however nested, `==` decides whether they are written the same |
| RuntimeEquality.EqEquivalence | src/codegen.rs:3581-4295 | so it is an equivalence on them |
| RuntimeEquality.EqRefsDecides | src/codegen.rs:4195-4295 | what compiled code that compares two values leaves |
| RuntimeEquality.RankedUnfolds | src/codegen.rs:3581-3612 | in a store without cycles and nulls every value can be written out |
| RuntimeEquality.DeeperSame | src/codegen.rs:3581-4295 | an answer does not depend on how deep one looked |
| RuntimeEquality.SelfEqExactly | src/codegen.rs:3581-4295 | a value compared with itself: yes exactly if it can be written out, and never no |
| RuntimeEquality.EndsExactly | src/codegen.rs:3581-4295 | without nulls, comparisons among some values all end exactly if each of them can be written out |
| RuntimeEquality.CyclicNeverAnswers | src/codegen.rs:3581-3612 | a list that holds itself, however deep inside, is compared with itself for ever |
| RuntimeText.FindsAt | src/codegen.rs:4955-4972 | whether a text occurs at a position |
| RuntimeText.SplitText | src/codegen.rs:5112-5145 | the split loop |
| RuntimeText.SplitMeans | src/codegen.rs:5112-5145 | the pieces lie between the leftmost, non-overlapping occurrences |
| RuntimeText.SplitUnique | src/codegen.rs:5112-5145 | no other pieces do |
| RuntimeText.JoinUndoesSplit | src/codegen.rs:5112-5235 | `sep.join(s.split(sep)) == s` |
| RuntimeText.JoinedLength | src/codegen.rs:5174-5186 | the length the first pass of join computes |
| RuntimeText.JoinText | src/codegen.rs:5165-5235 | join fills its array exactly, no write out of range |
| RuntimeText.JoinedSplit | src/codegen.rs:5237-5333 | replacing is joining the split with the new text |
| RuntimeText.ReplacedLength | src/codegen.rs:5253-5273 | the length the first pass of replace computes |
| RuntimeText.Fill | src/codegen.rs:5274-5312 | the second pass of replace fills its array exactly |
| RuntimeText.ReplaceText | src/codegen.rs:5237-5333 | `replace(s, was, now) == join(now, split(s, was))`; an empty `was` leaves s |
| RuntimeText.CountText | src/codegen.rs:5372-5418 | one less than the number of pieces; for the empty text one more than the length |
| IntegerText.PrintInt | src/codegen.rs:2895-2960 | decimal digits of the unsigned magnitude, right for -2^31 |
| IntegerText.ParseInt | src/codegen.rs:3400-3494 | the parser; its 64-bit accumulator never wraps |
| IntegerText.Digits | src/codegen.rs:3439-3460 | the digit loop stops exactly when the number passes 2^31 |
| IntegerText.ParseExact | src/codegen.rs:3400-3494 | a value exactly for blanks, an optional sign, digits, blanks, when the number fits 32 bits |
| IntegerText.PrintParse | src/codegen.rs:2895-3494 | `int(str(v)) == v` for every 32-bit v |
| IntegerText.ParsePrint | src/codegen.rs:2895-3494 | printing what was parsed gives the digits back, leading zeros aside |
| FloatText.ExtractedWorth | src/floatfmt.rs:25-47 | the trimmed digits and their point denote the same number |
| FloatText.WorthBounds | src/floatfmt.rs:43-46 | the point position is the number's decimal exponent |
| FloatText.Extract | src/floatfmt.rs:25-47 | digit extraction |
| FloatText.PushScientific | src/floatfmt.rs:57-71 | the scientific layout |
| FloatText.PushPlain | src/floatfmt.rs:72-92 | the three layouts without an exponent |
| FloatText.PyFloatRepr | src/floatfmt.rs:11-94 | the whole layout, for any sign |
| FloatText.LayoutFaithful | src/floatfmt.rs:11-94 | the text denotes exactly the same number, always reads as a float, and is scientific exactly below 10^-4 and from 10^16 on |
| FloatShape.LayoutIsPythons | src/floatfmt.rs:1-8 | the text is one CPython would write: digits on both sides of a point and no zero too many, or one digit, a fraction without trailing zeros and a signed exponent of at least two digits, by the size of the number alone |
| FloatShape.ReadsAsWritten | src/floatfmt.rs:28-49 | how a text with an exponent is read, for every sign and number of digits |
| FloatShape.ReadsWithoutExponent | src/floatfmt.rs:28-49 | how a text without an exponent is read |
| CanonicalLists.CollectListTypes | src/component.rs:542-552 | each shape once, after every shape it contains |
| CanonicalLists.CollectAll | src/component.rs:759-764 | over all exports: exactly the shapes that occur |
| CanonicalLists.FragDistinct | src/component.rs:155-164 | distinct shapes get distinct helper names |
| CanonicalLists.ListTouches | src/component.rs:788-799 | lowering writes only what it allocates |
| CanonicalLists.BuffersStacked | src/component.rs:722-731 | all buffers of a lowering are disjoint and aligned |
| CanonicalLists.ElemBack | src/component.rs:557-596 | a written slot reads back, whatever is lowered later |
| CanonicalLists.RoundTrip | src/component.rs:545-596 | building from the lowered buffers gives the same value, for every nested list that fits the page |
| CanonicalLayout.LoweredAsLaidOut | src/component.rs:566-596 | in numbers: item k of a list of ints is the little-endian word at p + 4k, a double the 8 bytes at p + 8k, a text or inner list its address at p + 8k and length at p + 8k + 4, at every depth; p is the first free multiple of 8 for doubles, of 4 otherwise |
| CanonicalLayout.BuiltAsLaidOut | src/component.rs:554-564 | from a buffer the host laid out so, exactly those items are built |
| CanonicalLists.Shim.Realloc | src/component.rs:722-731 | the bump allocator |
| CanonicalLists.Shim.Lower | src/component.rs:788-799 | the emitted writer loop |
| CanonicalLists.Shim.Write | src/component.rs:570-596 | one element written |
| CanonicalLists.Shim.Make | src/component.rs:765-775 | the emitted reader loop |
| CanonicalLists.Shim.Read | src/component.rs:557-564 | one element read |

## Left out

- CompiledFunction.FunctionPreserved: after a departure of the watched run nothing is said but that the output until then stays; which departures can occur, and how both sides end at those where both stop, is the business of the lemmas beside it. The missing-return check is the hypothesis that a raw-result function does not owe a return, and module variables kept raw and read by the body are taken to be assigned on entry, which `TopLevel` justifies.
- Simulation.BlockSim: an unassigned name in a raw slot reads as zero; that none is ever read is proved apart, and `CompiledFunction.FunctionExact` has no such exception.
- ExpressionSimulation.EqMatches: the comparison of two lists is asked of the oracle on both sides; `RuntimeEquality` models what answers it.
- UnassignedReads.MissedRun: alert code stops with the same output but not always as "unassigned": `len` of null is a type error and an operand computed after the null may fail first.
- FunctionEmitter.FuncCx.GenStmt: subscript, attribute and unpacking targets and class statements are not in the statement syntax.
- ActivityBuilder.Builder.Stmt: the same; each is one plain action in the source.
- Lowering: list, tuple and dict literals, `and`/`or`, comprehensions, floats and strings in the expression language; keyword and default arguments; methods other than `append` are looked up by the runtime, and the order in which that happens is not modelled. Printing a list that holds null stops partway in the runtime and prints a whole list here.
- TopLevel: module variables are followed through runs of the top level and of the functions it calls; the code emitted for the top level itself, which differs from a body's in where variables live, is not lowered.
- Values.Reply: functions outside the program give back proper values, never null; `TopLevel.RepliesExact` proves it of the program's own functions in Python.
- The code generator's own refusals of operands by their type are not modelled: the model compiles more programs than the compiler does.
- Gate.TypeChecker.ExprType: the wording of the findings and the line a message cites are left out, and so are classes, literals of texts and groups, and annotations other than `int`, which count as "don't know".
- Findings.FactsTrue: bodies without loops; after and inside a loop the facts may be false, as `FindingCases.CorrectButRefused` shows. Values are those of the model, so texts, decimals and other groups are never met in a run.
- FreeRuns.OwesExactly: bodies without dead code and nested functions; with them the rule speaks up at least as often as it should (`FreeRuns.OwesWhenMixed`).
- LayoutReading.OnlyLayout: which edges the search keeps depends on the order of the edges; that is characterised by `ForwardEdges.DroppedIffBack`, not made unique.
- Compilable.CompilesExactly: of the function bodies of the model; operands the code generator refuses for their type are the business of the line below.
- Risks.BlockRisks: an over-estimate, for bodies all of whose names are assigned in time; which flagged statements really part from Python is said case by case in `DepartureCases`.
- The order in which locals are declared does not matter to the machine and is not modelled.
- A list that cannot grow past `LIST_MAX` stands for a failed allocation in both semantics; the runtime classes report it as `ok` being false, where the WebAssembly engine traps.
- ActivityDiagram.Diagram: for a program with a break or continue outside every loop, which is not Python, only the layout is proved: the skipped edge leaves its node without a way out, so such a diagram is not a legal activity.
- ActivityDiagram.Flatten: only activities that pass 1 can build are flattened.
- LayoutColumns.Layout: positions are real numbers, so rounding of sums and averages is not captured; a graph whose start does not reach every node is not laid out (the source's row lookup fails on it), and flattening never produces one.
- The title and naming of diagrams in `build_program` only add text.
- Set insertion does not check that an item is hashable, and dict literals with duplicate keys, which bypass `$dict_set`, are not built.
- RuntimeEquality.PyEq: numbers, booleans, None and lists; tuples, sets, dicts, texts and objects with their own `__eq__` are not in its values.
- RuntimeText.SplitText: splitting at white space is not modelled; neither are strip, case conversion, find, starts-with and ends-with, string slices, and characters outside the basic plane, where the runtime counts 16-bit units.
- RuntimeText.JoinText: the joined text has to fit 32 bits, beyond which the allocation traps.
- RuntimeText.ReplaceText: the same for both texts and the result.
- Shuffle.ShuffleInPlace: the generator's draws are a parameter.
- StableSorts.SortedByKey: the key of every item is given as a function; a key function with side effects is not modelled.
- FloatText.PyFloatRepr: the shortest-digits text is an input, its exponent read by `ExponentOf`; not-a-number and the infinities, which have no digits, are not laid out. Real floating-point arithmetic, `$str_to_float` and `$f64_to_fixed` are not modelled.
- CanonicalLists.RoundTrip: (and CanonicalLayout.LoweredAsLaidOut) the lowered buffers have to fit the static page, which the emitted allocator does not check; the strings of the value must not lie in the buffers.
- CanonicalLists.Shim.Realloc: the page itself is assumed aligned, the C mask is written as rounding up, and the post-return hook and ownership of the buffers are not modelled.
- Type inference, the lexer and parser, the native back end, blocks, evidence, host imports and files are outside the model.
