/** A whole `def` (src/codegen.rs): which names get raw slots, what the compiled function
    does on every call, against Python, and why a raw result is never missing. */
module CompiledFunction {
  import opened Syntax
  import opened Values
  import opened SlotChoice
  import opened SlotInference
  import opened PythonSemantics
  import opened DefiniteAssignment
  import opened MissingReturn
  import opened Machine
  import opened Lowering
  import opened ExpressionSimulation
  import opened StatementSimulation
  import opened Simulation
  import opened FunctionEmitter
  import opened ProperRuns
  import opened WholeSlots
  import opened Departures
  import opened UnassignedReads
  import opened Termination
  import opened Risks
  import opened ForeseenRuns
  import TopLevel

  // -------------------------------------------------------------- slot choice

  /** A function in its module: the module's variables, those of them in raw slots, and the
      functions it can call. */
  datatype Source = Source(params: seq<Param>, returnsInt: bool, body: Block, globals: set<string>, rawGlobals: set<string>, sigs: map<string, Sig>)

  function ParamNames(params: seq<Param>): set<string> { set p | p in params :: p.name }

  /** Annotated parameters that are never rebound arrive raw. */
  function RawNames(f: Source): set<string> {
    set p | p in f.params && p.isInt && p.name !in Assigned(f.body) :: p.name
  }

  function GivenBy(f: Source): Given { map x | x in ParamNames(f.params) :: x in RawNames(f) }

  function Locals(f: Source): set<string> { ParamNames(f.params) + Assigned(f.body) }

  function InferredIn(f: Source): set<string> { Inferred(f.body, GivenBy(f), f.sigs) }

  /** The slots of a function. */
  function EnvOf(f: Source): Env {
    Env(false, Locals(f), f.globals,
        Ints(f.body, GivenBy(f), f.sigs) + (f.rawGlobals - Locals(f)),
        (InferredIn(f) - TopLevel.EachVars(f.body) - Demoted(f.body)) + RawNames(f) + (f.rawGlobals - Locals(f)),
        f.sigs, f.returnsInt && AllPathsReturn(f.body))
  }

  /** A compiled function: its code, and whether its result is raw. */
  datatype Func = Func(code: seq<Instr>, scalar: bool, locals: seq<Local>)

  function Emitted(f: Source): Lowered { LowerBlock(f.body, EnvOf(f), [], Supply(0, 0, [])) }

  function Compilation(f: Source): Func
    requires Emitted(f).Lowered?
  {
    Func(Emitted(f).code, EnvOf(f).scalar, Emitted(f).after.locals)
  }

  /** `gen_def`: the inference, what is taken back from it, and the code; the tail is
      `unreachable` or `None`. */
  method GenDef(f: Source) returns (func: Option<Func>)
    ensures func == if Emitted(f).Rejected? then None else Some(Compilation(f))
  {
    hide SurveyBlock, Inferred, Ints, LowerBlock;
    var typed := InferSlots(f.body, GivenBy(f), f.sigs);
    var defined, demoted := CollectMaybeUnassignedReads(f.body, {}, TopLevel.EachVars(f.body));
    typed := typed - demoted + RawNames(f) + (f.rawGlobals - Locals(f));
    assert typed == EnvOf(f).typed;
    var cx := new FuncCx(EnvOf(f).(typed := typed), []);
    var code := cx.Stmts(f.body);
    func := if code.None? then None else Some(Func(code.value, cx.env.scalar, cx.locals));
  }

  // ------------------------------------------------------------------ one call

  /** Falling off the end returns `None`; a raw result has none to give. */
  function Invoke(f: Func, m: Machine, o: Oracle, fuel: nat): Exit {
    var x := Run(f.code, m, o, fuel);
    if !x.Fall? then x else if f.scalar then Trapped(TailReached, x.m.out) else Exit.Left(RefSlot(NoneRef), x.m)
  }

  function Finished(y: Outcome): Outcome { if y.Next? then Returned(None, y.world) else y }

  /** A call under given rules. */
  function Invoked(f: Source, w: World, o: Oracle, how: How, fuel: nat): Outcome {
    Finished(ExecBlock(f.body, w, o, Rules(how, EnvOf(f), false), fuel))
  }

  /** The state on entry: parameters bound, raw ones to whole numbers, everything else
      unassigned; lists, output, calls and the module's variables agree. */
  ghost predicate Entered(f: Source, w: World, m: Machine) {
    && w.vars.Keys == ParamNames(f.params)
    && (forall x :: x in w.vars && x in RawNames(f) ==> w.vars[x] == VInt(RawAt(m, Var(x))) && Fits(RawAt(m, Var(x))))
    && (forall x :: x in w.vars && x !in RawNames(f) ==> Good(RefAt(m, Var(x))) && ValueOf(RefAt(m, Var(x))) == w.vars[x] && w.vars[x] != VNull)
    && (forall x :: x !in w.vars ==> RefAt(m, Var(x)) == Null)
    && w.out == m.out && w.calls == m.calls && w.heap == HeapOf(m.store) && ProperHeap(w.heap) && GoodStore(m.store)
    && GlobalsAgree(EnvOf(f), w, m)
    && (f.rawGlobals - Locals(f)) * SurveyBlock(f.body, ParamNames(f.params)).demoted <= w.globals.Keys
  }

  /** The call ends as the run does. */
  ghost predicate CallFollows(y: Outcome, x: Exit, env: Env) {
    match y
    case Returned(r, w) => ResultFollows(r, w, x, env)
    case Stopped(k, out) => x == Trapped(k, out)
    case Timeout(out) => x == Exhaustion(out)
    case _ => false
  }

  function OutOfExit(x: Exit): seq<Token> {
    match x
    case Fall(m) => m.out
    case Jump(_, m) => m.out
    case Left(_, m) => m.out
    case Trapped(_, out) => out
    case Exhaustion(out) => out
  }

  lemma SlotsApart(f: Source)
    ensures EnvOf(f).typed <= EnvOf(f).ints && InferredIn(f) !! ParamNames(f.params)
    ensures forall x :: x in ParamNames(f.params) && x in EnvOf(f).typed ==> x in RawNames(f)
  {
    hide Inferred, Ints, Declared, Final, Assigned, SurveyBlock, AllPathsReturn;
    SettledExactly(f.body, GivenBy(f), f.sigs);
    DeclaredAll(f.body, GivenBy(f));
    GivenStays(f.body, GivenBy(f));
    IntsGiven(f);
  }

  lemma IntsGiven(f: Source)
    ensures RawNames(f) <= Ints(f.body, GivenBy(f), f.sigs)
  {
    hide Declared, Final, Assigned;
    GivenStays(f.body, GivenBy(f));
    DeclaredAll(f.body, GivenBy(f));
    forall x | x in RawNames(f) ensures x in Ints(f.body, GivenBy(f), f.sigs) { assert x in GivenBy(f) && GivenBy(f)[x]; }
  }

  /** A given type stays. */
  lemma {:induction false} GivenStays(b: Block, given: Given)
    ensures forall x :: x in given ==> x in Declared(b, given) && Declared(b, given)[x] == given[x]
    decreases BlockSize(b), 1
  {
    hide DeclaredBy;
    if b != [] {
      GivenStaysBy(b[0], given);
      GivenStays(b[1..], DeclaredBy(b[0], given));
    }
  }

  lemma {:induction false} GivenStaysBy(s: Stmt, given: Given)
    ensures forall x :: x in given ==> x in DeclaredBy(s, given) && DeclaredBy(s, given)[x] == given[x]
    decreases StmtSize(s), 0
  {
    hide Declared, DeclaredInArms;
    match s.kind
    case For(_, _, _, _, body, _) => GivenStays(body, given);
    case ForEach(_, _, body) => GivenStays(body, given);
    case While(_, body) => GivenStays(body, given);
    case If(_, body, elifs, orelse) =>
      GivenStays(body, given);
      GivenStaysInArms(elifs, Declared(body, given));
      GivenStays(ElseOf(orelse), DeclaredInArms(elifs, Declared(body, given)));
    case _ =>
  }

  lemma {:induction false} GivenStaysInArms(elifs: seq<Arm>, given: Given)
    ensures forall x :: x in given ==> x in DeclaredInArms(elifs, given) && DeclaredInArms(elifs, given)[x] == given[x]
    decreases ArmsSize(elifs), 2
  {
    hide Declared;
    if elifs != [] {
      GivenStays(elifs[0].body, given);
      GivenStaysInArms(elifs[1..], Declared(elifs[0].body, given));
    }
  }

  lemma EntryAgrees(f: Source, w: World, m: Machine)
    requires Entered(f, w, m)
    ensures Agrees(EnvOf(f), w, m)
  {
    SlotsApart(f);
    hide Inferred, Ints, Assigned, SurveyBlock, AllPathsReturn, GlobalsAgree, TopLevel.EachVars, ProperHeap;
    var env := EnvOf(f);
    forall x ensures SlotAgrees(x, env, w, m) {
      if x in ParamNames(f.params) { assert x in env.typed <==> x in RawNames(f); }
    }
  }

  /** A body assigns names of its own and binds list items to boxed ones. */
  lemma {:induction false} BodyFits(b: Block, env: Env)
    requires Assigned(b) <= env.vars && TopLevel.EachVars(b) !! env.typed
    ensures Fitting(b, env)
    decreases BlockSize(b), 1
  {
    hide StmtFitting, AssignedBy, TopLevel.EachVarsOf;
    if b != [] {
      StmtFits(b[0], env);
      BodyFits(b[1..], env);
    }
  }

  lemma {:induction false} StmtFits(s: Stmt, env: Env)
    requires AssignedBy(s) <= env.vars && TopLevel.EachVarsOf(s) !! env.typed
    ensures StmtFitting(s, env)
    decreases StmtSize(s), 0
  {
    hide Fitting, ArmsFitting, Assigned, AssignedInArms, TopLevel.EachVars, TopLevel.EachVarsInArms;
    match s.kind
    case For(_, _, _, _, body, _) => BodyFits(body, env);
    case ForEach(_, _, body) => BodyFits(body, env);
    case While(_, body) => BodyFits(body, env);
    case If(_, body, elifs, orelse) =>
      BodyFits(body, env);
      ArmsFit(elifs, env);
      BodyFits(ElseOf(orelse), env);
    case _ =>
  }

  lemma {:induction false} ArmsFit(elifs: seq<Arm>, env: Env)
    requires AssignedInArms(elifs) <= env.vars && TopLevel.EachVarsInArms(elifs) !! env.typed
    ensures ArmsFitting(elifs, env)
    decreases ArmsSize(elifs), 1
  {
    hide Fitting, Assigned, TopLevel.EachVars;
    if elifs != [] {
      BodyFits(elifs[0].body, env);
      ArmsFit(elifs[1..], env);
    }
  }

  lemma {:induction false} EachAssigned(b: Block)
    ensures TopLevel.EachVars(b) <= Assigned(b)
    decreases BlockSize(b), 1
  {
    hide AssignedBy, TopLevel.EachVarsOf;
    if b != [] {
      EachAssignedBy(b[0]);
      EachAssigned(b[1..]);
    }
  }

  lemma {:induction false} EachAssignedBy(s: Stmt)
    ensures TopLevel.EachVarsOf(s) <= AssignedBy(s)
    decreases StmtSize(s), 0
  {
    hide Assigned, AssignedInArms, TopLevel.EachVars, TopLevel.EachVarsInArms;
    match s.kind
    case For(_, _, _, _, body, _) => EachAssigned(body);
    case ForEach(_, _, body) => EachAssigned(body);
    case While(_, body) => EachAssigned(body);
    case If(_, body, elifs, orelse) =>
      EachAssigned(body);
      EachAssignedInArms(elifs);
      EachAssigned(ElseOf(orelse));
    case _ =>
  }

  lemma {:induction false} EachAssignedInArms(elifs: seq<Arm>)
    ensures TopLevel.EachVarsInArms(elifs) <= AssignedInArms(elifs)
    decreases ArmsSize(elifs), 1
  {
    hide Assigned, TopLevel.EachVars;
    if elifs != [] {
      EachAssigned(elifs[0].body);
      EachAssignedInArms(elifs[1..]);
    }
  }

  lemma FunctionFits(f: Source)
    ensures Fitting(f.body, EnvOf(f))
  {
    hide Inferred, Ints, Assigned, SurveyBlock, AllPathsReturn, TopLevel.EachVars, Fitting;
    EachAssigned(f.body);
    BodyFits(f.body, EnvOf(f));
  }

  // -------------------------------------------------- raw slots are assigned first

  /** No run, under any of the rules, reports a name that lives in a raw slot as unassigned,
      and none outside what the survey demotes. */
  lemma RawNeverBlamed(f: Source, w: World, m: Machine, o: Oracle, how: How, fuel: nat)
    requires Entered(f, w, m)
    ensures var y := Invoked(f, w, o, how, fuel);
      y.Stopped? ==> Missed(y.error, false) !! EnvOf(f).typed && Missed(y.error, false) <= SurveyBlock(f.body, ParamNames(f.params)).demoted
  {
    hide ExecBlock, SurveyBlock, Missed, Assigned, TopLevel.EachVars, Inferred, Ints, AllPathsReturn, GlobalsAgree, GoodStore, HeapOf, ProperHeap;
    var env := EnvOf(f);
    var r, c := Rules(how, env, false), Facts(ParamNames(f.params) + (f.rawGlobals - Locals(f)) * w.globals.Keys, false, {}, {});
    NameErrorsDemoted(f.body, Facts({}, false, {}, {}), w, o, r, fuel);
    NameErrorsDemoted(f.body, c, w, o, r, fuel);
    DemotedOutside(f.body, c.defined);
    TopLevel.SurveyShrinks(f.body, ParamNames(f.params), c.defined);
    assert RawNames(f) <= ParamNames(f.params);
  }

  // ------------------------------------------------------------- what a call does

  /** Against the rules of compiled code a call is exact: same prints, same lists, same
      calls, same result or error, or neither ends. */
  lemma FunctionExact(f: Source, w: World, m: Machine, o: Oracle, fuel: nat)
    requires Emitted(f).Lowered? && Entered(f, w, m) && (EnvOf(f).scalar ==> !Owes(f.body))
    ensures CallFollows(Invoked(f, w, o, Compiled, fuel), Invoke(Compilation(f), m, o, fuel), EnvOf(f))
  {
    hide EnvOf, Entered, LowerBlock, ExecBlock, Run, Reaches, Owes, Missed;
    var env, s := EnvOf(f), Supply(0, 0, []);
    EntryAgrees(f, w, m);
    FunctionFits(f);
    BlockSim(f.body, env, [], s, w, m, o, fuel);
    var y, x := ExecBlock(f.body, w, o, Code(env, false), fuel), Run(Emitted(f).code, m, o, fuel);
    RawNeverBlamed(f, w, m, o, Compiled, fuel);
    if y.Stopped? && y.error.NameError? { Reported(y.error); }
    if y.Next? {
      if env.scalar { NoFall(f, w, o, Code(env, false), fuel); }
      FellOff(y.world, x, env, m, s);
    }
  }

  lemma Reported(k: Error)
    requires k.NameError?
    ensures k.name in Missed(k, false)
  {
  }

  lemma FellOff(w: World, x: Exit, env: Env, m: Machine, s: Supply)
    requires x.Fall? && Reaches(env, w, m, x.m, s)
    ensures ResultFollows(None, w, Exit.Left(RefSlot(NoneRef), x.m), env)
  {
  }

  lemma NoFall(f: Source, w: World, o: Oracle, r: Rules, fuel: nat)
    requires EnvOf(f).scalar
    ensures !ExecBlock(f.body, w, o, r, fuel).Next?
  {
    hide ExecBlock, FallsOff, Inferred, Ints, Assigned, SurveyBlock, TopLevel.EachVars;
    DivergesOrReturns(f.body);
    NeverFallsOff(f.body, w, o, r, fuel);
  }

  lemma SameOut(y: Outcome, x: Exit, env: Env)
    requires CallFollows(y, x, env)
    ensures OutOfExit(x) == Out(y)
  {
    hide GoodStore, HeapOf, GlobalsAgree, SlotAgrees;
  }

  lemma FinishedTracks(a: Outcome, b: Outcome)
    requires Tracks(a, b)
    ensures Tracks(Finished(a), Finished(b)) && (Leaves(Finished(a)) <==> Leaves(a)) && (Leaves(a) ==> Finished(a) == a)
    ensures Out(Finished(a)) == Out(a) && Out(Finished(b)) == Out(b)
  {
  }

  /** Against Python: unless the watched run departs, a call of the compiled function does
      what Python does; if it departs, both have printed what was printed until then. */
  lemma FunctionPreserved(f: Source, w: World, m: Machine, o: Oracle, fuel: nat)
    requires Emitted(f).Lowered? && Entered(f, w, m) && (EnvOf(f).scalar ==> !Owes(f.body))
    ensures var watched, python, x := Invoked(f, w, o, Watched, fuel), Invoked(f, w, o, Python, fuel), Invoke(Compilation(f), m, o, fuel);
      if Leaves(watched) then watched.out <= Out(python) && watched.out <= OutOfExit(x) else python == watched && CallFollows(python, x, EnvOf(f))
  {
    hide EnvOf, Entered, LowerBlock, ExecBlock, Run, Owes, CallFollows;
    SlotsApart(f);
    FunctionExact(f, w, m, o, fuel);
    SameOut(Invoked(f, w, o, Compiled, fuel), Invoke(Compilation(f), m, o, fuel), EnvOf(f));
    WatchedRun(f.body, w, o, EnvOf(f), Python, fuel);
    WatchedRun(f.body, w, o, EnvOf(f), Compiled, fuel);
    var a := ExecBlock(f.body, w, o, Watching(EnvOf(f), false), fuel);
    FinishedTracks(a, ExecBlock(f.body, w, o, Rules(Python, EnvOf(f), false), fuel));
    FinishedTracks(a, ExecBlock(f.body, w, o, Rules(Compiled, EnvOf(f), false), fuel));
  }

  // ----------------------------------------------------------- which departures

  /** At an unassigned name Python reports that name, which is one the survey demotes and no
      raw one; what it has printed the code prints too, before anything else.  A body that is
      alert stops as well, and prints nothing more. */
  lemma UnassignedStops(f: Source, w: World, m: Machine, o: Oracle, fuel: nat, x: string)
    requires Emitted(f).Lowered? && Entered(f, w, m) && (EnvOf(f).scalar ==> !Owes(f.body))
    requires StopsAt(Invoked(f, w, o, Watched, fuel), ReadUnassigned(x))
    ensures Invoked(f, w, o, Python, fuel) == Stopped(NameError(x, !EnvOf(f).Owns(x)), Invoked(f, w, o, Watched, fuel).out)
    ensures x in SurveyBlock(f.body, ParamNames(f.params)).demoted && x !in EnvOf(f).typed
    ensures Out(Invoked(f, w, o, Python, fuel)) <= OutOfExit(Invoke(Compilation(f), m, o, fuel))
    ensures Alert(f.body, EnvOf(f)) && QuietRuntime(o) ==>
      var call := Invoke(Compilation(f), m, o, fuel); call.Trapped? && call.out == Invoked(f, w, o, Watched, fuel).out
  {
    hide EnvOf, Entered, LowerBlock, ExecBlock, Run, Owes, Alert, SurveyBlock, QuietRuntime;
    SlotsApart(f);
    RawNeverBlamed(f, w, m, o, Watched, fuel);
    assert x in Missed(Invoked(f, w, o, Watched, fuel).error, false);
    MissedRun(f.body, ReadUnassigned(x), w, o, EnvOf(f), Python, fuel);
    FunctionExact(f, w, m, o, fuel);
    FunctionPreserved(f, w, m, o, fuel);
    if Alert(f.body, EnvOf(f)) && QuietRuntime(o) { MissedRun(f.body, ReadUnassigned(x), w, o, EnvOf(f), Compiled, fuel); }
  }

  /** If every name read is assigned on every path, no run departs at an unassigned name, and
      no run of Python ends in a NameError of the body's own. */
  lemma AssignedInTime(f: Source, w: World, m: Machine, o: Oracle, fuel: nat)
    requires Entered(f, w, m) && SurveyBlock(f.body, ParamNames(f.params)).demoted == {}
    ensures var watched, python := Invoked(f, w, o, Watched, fuel), Invoked(f, w, o, Python, fuel);
      && (Leaves(watched) ==> !watched.error.departure.ReadUnassigned?) && (python.Stopped? ==> !python.error.NameError?)
  {
    hide EnvOf, Entered, ExecBlock, SurveyBlock;
    RawNeverBlamed(f, w, m, o, Watched, fuel);
    RawNeverBlamed(f, w, m, o, Python, fuel);
  }

  /** On entry, and among the module's variables, what counts as whole is. */
  lemma EntryInts(f: Source, w: World, m: Machine)
    requires Entered(f, w, m)
    ensures HoldsInts(EnvOf(f).ints, w.vars, w.globals, EnvOf(f))
  {
    hide Ints, Assigned, SurveyBlock, AllPathsReturn, TopLevel.EachVars, ProperHeap, GoodStore, HeapOf;
    IntsWithin(f.body, GivenBy(f), f.sigs);
    var env := EnvOf(f);
    forall x | x in env.ints ensures if env.Owns(x) then x in w.vars ==> w.vars[x].VInt? else x in w.globals ==> w.globals[x].VInt? {
      if x in w.vars { ParameterInts(f, x); }
    }
  }

  lemma ParameterInts(f: Source, x: string)
    requires x in ParamNames(f.params)
    ensures x in Ints(f.body, GivenBy(f), f.sigs) ==> x in RawNames(f)
  {
    hide Declared, Final, Assigned;
    GivenStays(f.body, GivenBy(f));
  }

  /** Once the inference came to rest, no run departs because an inferred name was bound to
      something that is no whole number. */
  lemma InferredNeverMistyped(f: Source, w: World, m: Machine, o: Oracle, fuel: nat)
    requires Entered(f, w, m) && Settled(f.body, GivenBy(f), f.sigs) && LenCounts(f.sigs)
    ensures var watched := Invoked(f, w, o, Watched, fuel);
      Leaves(watched) && watched.error.departure.Mistyped? ==> watched.error.departure.name !in InferredIn(f)
  {
    EntryInts(f, w, m);
    hide Entered, ExecBlock, Settled, Truthful, Inferred, Ints, Assigned, SurveyBlock, AllPathsReturn, TopLevel.EachVars;
    SettledExactly(f.body, GivenBy(f), f.sigs);
    var ints := Ints(f.body, GivenBy(f), f.sigs);
    NeverMistyped(f.body, ints, InferredIn(f), w, o, Watching(EnvOf(f), false), fuel);
  }

  /** If every binding of a name that counts as whole, inferred, annotated or given, is a
      whole number, no run departs because of one. */
  lemma WholeNeverMistyped(f: Source, w: World, m: Machine, o: Oracle, fuel: nat)
    requires Entered(f, w, m) && Truthful(f.body, EnvOf(f).ints, EnvOf(f).ints, f.sigs) && LenCounts(f.sigs)
    ensures var watched := Invoked(f, w, o, Watched, fuel); !(Leaves(watched) && watched.error.departure.Mistyped?)
  {
    EntryInts(f, w, m);
    hide Entered, ExecBlock, Truthful, Inferred, Ints, Assigned, SurveyBlock, AllPathsReturn, TopLevel.EachVars, HoldsInts;
    NeverMistyped(f.body, EnvOf(f).ints, EnvOf(f).ints, w, o, Watching(EnvOf(f), false), fuel);
  }

  // ------------------------------------------------------------------ the risks

  /** Every name read is assigned on every path. */
  predicate InTime(f: Source) { SurveyBlock(f.body, ParamNames(f.params)).demoted == {} }

  /** Where a call might part from Python, read off the text. */
  function RisksOf(f: Source): set<Departure> { BlockRisks(f.body, EnvOf(f)) }

  /** No call departs anywhere else. */
  lemma DeparturesForeseen(f: Source, w: World, m: Machine, o: Oracle, fuel: nat)
    requires InTime(f) && Entered(f, w, m)
    ensures var watched := Invoked(f, w, o, Watched, fuel);
      Leaves(watched) ==> watched.error.departure in RisksOf(f) && (watched.error.departure.Unkept? ==> !Promises(o, f.sigs))
  {
    EntryInts(f, w, m);
    EntryProper(f, w, m);
    EntryGrounded(f, w, m, o);
    hide ExecBlock, Inferred, Ints, Assigned, SurveyBlock, AllPathsReturn, TopLevel.EachVars, HoldsInts, ProperWorld, Grounded, BlockRisks,
      Promises, Entered;
    var c, env := Facts(ParamNames(f.params), false, {}, {}), EnvOf(f);
    assert Calm(c, w, o, env);
    RunForeseen(f.body, c, RisksOf(f), w, o, Watching(env, false), fuel);
  }

  /** Both stop, the compiled function perhaps after printing more. */
  predicate BothTrapped(y: Outcome, x: Exit) { y.Stopped? && x.Trapped? && y.out <= x.out }

  /** Where the watched run departs because both sides stop, both do. */
  lemma StopsPreserved(f: Source, w: World, m: Machine, o: Oracle, fuel: nat)
    requires Emitted(f).Lowered? && Entered(f, w, m) && (EnvOf(f).scalar ==> !Owes(f.body))
    requires var watched := Invoked(f, w, o, Watched, fuel);
      Leaves(watched) && (watched.error.departure.OtherError? || watched.error.departure.PrintedBefore?)
    ensures var watched, python, x := Invoked(f, w, o, Watched, fuel), Invoked(f, w, o, Python, fuel), Invoke(Compilation(f), m, o, fuel);
      BothTrapped(python, x) && python.out == watched.out && (watched.error.departure.OtherError? ==> x.out == python.out)
  {
    hide EnvOf, Entered, LowerBlock, ExecBlock, Run, Owes, Alert, QuietRuntime;
    SlotsApart(f);
    var d := Invoked(f, w, o, Watched, fuel).error.departure;
    MissedRun(f.body, d, w, o, EnvOf(f), Python, fuel);
    MissedRun(f.body, d, w, o, EnvOf(f), Compiled, fuel);
    FunctionExact(f, w, m, o, fuel);
  }

  /** A body without risks, those aside that the functions it calls answer for: its calls
      are Python's, without exception. */
  lemma ExactPreserved(f: Source, w: World, m: Machine, o: Oracle, fuel: nat)
    requires Emitted(f).Lowered? && Entered(f, w, m) && (EnvOf(f).scalar ==> !Owes(f.body))
    requires InTime(f) && Promises(o, f.sigs) && forall d :: d in RisksOf(f) ==> d.Unkept?
    ensures CallFollows(Invoked(f, w, o, Python, fuel), Invoke(Compilation(f), m, o, fuel), EnvOf(f))
  {
    hide EnvOf, Entered, Compilation, Invoked, Invoke, Owes, CallFollows, RisksOf, Promises, InTime;
    DeparturesForeseen(f, w, m, o, fuel);
    FunctionPreserved(f, w, m, o, fuel);
  }

  /** Stopping with another error, or with more of a line printed. */
  predicate Benign(d: Departure) { d.Unkept? || d.OtherError? || d.PrintedBefore? }

  /** A body that risks no more: its calls are Python's or both stop, and with the same output
      unless a `print` was cut short. */
  lemma BenignPreserved(f: Source, w: World, m: Machine, o: Oracle, fuel: nat)
    requires Emitted(f).Lowered? && Entered(f, w, m) && (EnvOf(f).scalar ==> !Owes(f.body))
    requires InTime(f) && Promises(o, f.sigs) && forall d :: d in RisksOf(f) ==> Benign(d)
    ensures var python, x := Invoked(f, w, o, Python, fuel), Invoke(Compilation(f), m, o, fuel);
      CallFollows(python, x, EnvOf(f)) || (BothTrapped(python, x) && (PrintedBefore !in RisksOf(f) ==> x.out == python.out))
  {
    hide EnvOf, Entered, Compilation, Invoked, Invoke, Owes, CallFollows, RisksOf, Promises, InTime, BothTrapped;
    DeparturesForeseen(f, w, m, o, fuel);
    var watched := Invoked(f, w, o, Watched, fuel);
    if Leaves(watched) { StopsPreserved(f, w, m, o, fuel); } else { FunctionPreserved(f, w, m, o, fuel); }
  }

  // ------------------------------------------------------------------ without fuel

  /** No run departs but where both sides stop. */
  ghost predicate StaysClose(f: Source, w: World, o: Oracle) {
    forall fuel :: Leaves(Invoked(f, w, o, Watched, fuel)) ==>
      var d := Invoked(f, w, o, Watched, fuel).error.departure; d.OtherError? || d.PrintedBefore?
  }

  ghost predicate NeverDeparts(f: Source, w: World, o: Oracle) { forall fuel :: !Leaves(Invoked(f, w, o, Watched, fuel)) }

  /** Then the compiled function ends if and only if Python does, and if both end they end
      alike, or both in an error; without any departure, alike. */
  lemma CallsEndAlike(f: Source, w: World, m: Machine, o: Oracle)
    requires Emitted(f).Lowered? && Entered(f, w, m) && (EnvOf(f).scalar ==> !Owes(f.body)) && StaysClose(f, w, o)
    ensures (forall g :: Invoked(f, w, o, Python, g).Timeout?) <==> (forall h :: Invoke(Compilation(f), m, o, h).Exhaustion?)
    ensures forall g, h :: !Invoked(f, w, o, Python, g).Timeout? && !Invoke(Compilation(f), m, o, h).Exhaustion? ==>
      var y, x := Invoked(f, w, o, Python, g), Invoke(Compilation(f), m, o, h);
      CallFollows(y, x, EnvOf(f)) || (BothTrapped(y, x) && !NeverDeparts(f, w, o))
  {
    hide EnvOf, Entered, Compilation, Invoked, Invoke, Owes, CallFollows;
    forall g ensures var y, x := Invoked(f, w, o, Python, g), Invoke(Compilation(f), m, o, g);
      (CallFollows(y, x, EnvOf(f)) || (BothTrapped(y, x) && !NeverDeparts(f, w, o))) && (y.Timeout? <==> x.Exhaustion?)
    {
      if Leaves(Invoked(f, w, o, Watched, g)) {
        StopsPreserved(f, w, m, o, g);
      } else {
        FunctionPreserved(f, w, m, o, g);
        TimesOutAlike(Invoked(f, w, o, Python, g), Invoke(Compilation(f), m, o, g), EnvOf(f));
      }
    }
    forall g, h | !Invoked(f, w, o, Python, g).Timeout? && !Invoke(Compilation(f), m, o, h).Exhaustion?
      ensures Invoked(f, w, o, Python, g) == Invoked(f, w, o, Python, h)
    {
      CallsOnce(f, w, o, Python, g, h);
    }
  }

  /** So it is for every benign body. */
  lemma BenignEndsAlike(f: Source, w: World, m: Machine, o: Oracle)
    requires InTime(f) && Entered(f, w, m) && Promises(o, f.sigs) && forall d :: d in RisksOf(f) ==> Benign(d)
    ensures StaysClose(f, w, o) && ((forall d :: d in RisksOf(f) ==> d.Unkept?) ==> NeverDeparts(f, w, o))
  {
    hide EnvOf, Entered, Invoked, RisksOf, Promises, InTime;
    forall fuel ensures Leaves(Invoked(f, w, o, Watched, fuel)) ==>
      var d := Invoked(f, w, o, Watched, fuel).error.departure; d in RisksOf(f) && !d.Unkept?
    {
      DeparturesForeseen(f, w, m, o, fuel);
    }
  }

  lemma TimesOutAlike(y: Outcome, x: Exit, env: Env)
    requires CallFollows(y, x, env)
    ensures y.Timeout? <==> x.Exhaustion?
  {
    hide Agrees;
  }

  lemma CallsOnce(f: Source, w: World, o: Oracle, how: How, g: nat, h: nat)
    requires !Invoked(f, w, o, how, g).Timeout? && !Invoked(f, w, o, how, h).Timeout?
    ensures Invoked(f, w, o, how, g) == Invoked(f, w, o, how, h)
  {
    hide ExecBlock, EnvOf;
    OneEnd(f.body, w, o, Rules(how, EnvOf(f), false), g, h);
  }

  lemma EntryProper(f: Source, w: World, m: Machine)
    requires Entered(f, w, m)
    ensures ProperWorld(w)
  {
    hide Inferred, Ints, Assigned, SurveyBlock, AllPathsReturn, TopLevel.EachVars, ProperHeap, GoodStore, HeapOf;
    forall x | x in w.vars ensures ProperValue(w.vars[x]) {
      if x !in RawNames(f) { assert Good(RefAt(m, Var(x))); }
    }
  }

  lemma EntryGrounded(f: Source, w: World, m: Machine, o: Oracle)
    requires Entered(f, w, m)
    ensures Grounded(Facts(ParamNames(f.params), false, {}, {}), w.vars, w.globals, o, EnvOf(f))
  {
    hide Inferred, Ints, Assigned, SurveyBlock, AllPathsReturn, TopLevel.EachVars, ProperHeap, GoodStore, HeapOf;
  }

  // ------------------------------------------------------------- raw results

  /** No boxed `return` anywhere in the code. */
  predicate RawReturns(code: seq<Instr>)
    decreases code, 1
  {
    code == [] || (InstrRawReturns(code[0]) && RawReturns(code[1..]))
  }

  predicate InstrRawReturns(i: Instr)
    decreases i, 0
  {
    match i
    case Block(_, body) => RawReturns(body)
    case Loop(_, body) => RawReturns(body)
    case If(_, a, b) => RawReturns(a) && RawReturns(b)
    case ReturnRef(_) => false
    case _ => true
  }

  lemma {:induction false} RawSum(a: seq<Instr>, b: seq<Instr>)
    ensures RawReturns(a + b) <==> RawReturns(a) && RawReturns(b)
    decreases |a|
  {
    if a == [] {
      assert a + b == b;
    } else {
      assert (a + b)[0] == a[0] && (a + b)[1..] == a[1..] + b;
      RawSum(a[1..], b);
    }
  }

  lemma RawOne(i: Instr)
    ensures RawReturns([i]) <==> InstrRawReturns(i)
  {
    assert [i][1..] == [];
  }

  /** Without a bare `return`, a raw-result function returns raw values only. */
  lemma {:induction false} NoBareNoBoxed(b: Block, env: Env, loops: seq<LoopLabels>, s: Supply)
    requires env.scalar && FirstReturn(b, false).None?
    ensures var l := LowerBlock(b, env, loops, s); l.Lowered? ==> RawReturns(l.code)
    decreases BlockSize(b), 1
  {
    hide LowerStmt;
    if b != [] {
      StmtNoBoxed(b[0], env, loops, s);
      var first := LowerStmt(b[0], env, loops, s);
      if first.Lowered? {
        NoBareNoBoxed(b[1..], env, loops, first.after);
        var rest := LowerBlock(b[1..], env, loops, first.after);
        if rest.Lowered? { RawSum(first.code, rest.code); }
      }
    }
  }

  lemma OneChild(st: Stmt, body: Block)
    requires (st.kind.While? && st.kind.body == body) || (st.kind.For? && st.kind.body == body) || (st.kind.ForEach? && st.kind.body == body)
    ensures ChildBlocks(st) == [body]
  {
  }

  lemma {:induction false} StmtNoBoxed(st: Stmt, env: Env, loops: seq<LoopLabels>, s: Supply)
    requires env.scalar && !IsReturn(st, false) && FirstIn(ChildBlocks(st), false).None?
    ensures var l := LowerStmt(st, env, loops, s); l.Lowered? ==> RawReturns(l.code)
    decreases StmtSize(st), 0
  {
    hide LowerBlock, LowerIf, LowerElse, ValueExpr, ScalarExpr, CondI32, I32Expr, FirstReturn, FirstIn, RawReturns, ChildBlocks, StepOf;
    match st.kind
    case If(c, body, elifs, orelse) =>
      NoneInIf(st, false);
      IfNoBoxed(c, body, elifs, orelse, env, loops, s);
    case While(c, body) =>
      OneChild(st, body);
      NoneIn([body], false, 0);
      WhileNoBoxed(c, body, env, loops, s);
    case For(x, start, end, step, body, _) =>
      OneChild(st, body);
      NoneIn([body], false, 0);
      ForNoBoxed(x, start, end, step, body, env, loops, s);
    case ForEach(x, iterable, body) =>
      OneChild(st, body);
      NoneIn([body], false, 0);
      ForEachNoBoxed(x, iterable, body, env, loops, s);
    case ExprStmt(e) => ExprNoBoxed(e, env, s);
    case _ => SimpleNoBoxed(LowerStmt(st, env, loops, s));
  }

  lemma ExprNoBoxed(e: Expr, env: Env, s: Supply)
    ensures var l := LowerCall(e, env, s); l.Lowered? ==> RawReturns(l.code)
  {
    hide ValueExpr, PrintCode, RawReturns;
    if e.kind.Call? && e.kind.func == "print" {
      PrintNoBoxed(e.kind.args, env);
    } else if ValueExpr(e, env).Some? {
      RawOne(Drop(ValueExpr(e, env).value));
    }
  }

  lemma {:induction false} PrintNoBoxed(args: seq<Expr>, env: Env)
    ensures PrintCode(args, env).Some? ==> RawReturns(PrintCode(args, env).value)
    decreases |args|
  {
    hide ValueExpr, RawReturns;
    RawOne(WriteChar(Newline));
    if args != [] && PrintCode(args, env).Some? {
      var v := ValueExpr(args[0], env).value;
      RawOne(PrintValue(v));
      RawOne(WriteChar(Space));
      RawSum([PrintValue(v)], [WriteChar(Space)]);
      assert [PrintValue(v)] + [WriteChar(Space)] == [PrintValue(v), WriteChar(Space)];
      PrintNoBoxed(args[1..], env);
      RawSum(if |args| == 1 then [PrintValue(v)] else [PrintValue(v), WriteChar(Space)], PrintCode(args[1..], env).value);
    }
  }

  lemma SimpleNoBoxed(l: Lowered)
    requires l.Lowered? ==> l.code == [] || (|l.code| == 1 && InstrRawReturns(l.code[0]))
    ensures l.Lowered? ==> RawReturns(l.code)
  {
  }

  lemma {:induction false} IfNoBoxed(c: Expr, body: Block, elifs: seq<Arm>, orelse: ElseBlock, env: Env, loops: seq<LoopLabels>, s: Supply)
    requires env.scalar && FirstReturn(body, false).None? && FirstReturn(ElseOf(orelse), false).None?
    requires forall k :: 0 <= k < |elifs| ==> FirstReturn(elifs[k].body, false).None?
    ensures var l := LowerIf(c, body, elifs, orelse, env, loops, s); l.Lowered? ==> RawReturns(l.code)
    decreases BlockSize(body) + ArmsSize(elifs) + BlockSize(ElseOf(orelse)), 3
  {
    hide LowerBlock, LowerElse, CondI32, FirstReturn, RawReturns;
    NoBareNoBoxed(body, env, loops, s);
    var l := LowerIf(c, body, elifs, orelse, env, loops, s);
    if l.Lowered? {
      ElseNoBoxed(elifs, orelse, env, loops, LowerBlock(body, env, loops, s).after);
      RawOne(l.code[0]);
    }
  }

  lemma {:induction false} ElseNoBoxed(elifs: seq<Arm>, orelse: ElseBlock, env: Env, loops: seq<LoopLabels>, s: Supply)
    requires env.scalar && FirstReturn(ElseOf(orelse), false).None?
    requires forall k :: 0 <= k < |elifs| ==> FirstReturn(elifs[k].body, false).None?
    ensures var l := LowerElse(elifs, orelse, env, loops, s); l.Lowered? ==> RawReturns(l.code)
    decreases ArmsSize(elifs) + BlockSize(ElseOf(orelse)), 2
  {
    hide LowerBlock, LowerIf, FirstReturn, RawReturns;
    if elifs == [] { NoBareNoBoxed(ElseOf(orelse), env, loops, s); }
    else { IfNoBoxed(elifs[0].cond, elifs[0].body, elifs[1..], orelse, env, loops, s); }
  }

  lemma {:induction false} WhileNoBoxed(c: Expr, body: Block, env: Env, loops: seq<LoopLabels>, s: Supply)
    requires env.scalar && FirstReturn(body, false).None?
    ensures var l := LowerWhile(c, body, env, loops, s); l.Lowered? ==> RawReturns(l.code)
    decreases BlockSize(body), 2
  {
    hide LowerBlock, CondI32, FirstReturn, RawReturns;
    var n := s.marks;
    var inner := loops + [LoopLabels(B(n), L(n))];
    NoBareNoBoxed(body, env, inner, Fresh(s));
    if LowerWhile(c, body, env, loops, s).Lowered? {
      var test, code := BrIf(B(n), Eqz(CondI32(c, env).value)), LowerBlock(body, env, inner, Fresh(s)).code;
      RawOne(test);
      RawOne(Br(L(n)));
      RawSum([test], code);
      RawSum([test] + code, [Br(L(n))]);
      RawOne(Loop(L(n), [test] + code + [Br(L(n))]));
      RawOne(Instr.Block(B(n), [Loop(L(n), [test] + code + [Br(L(n))])]));
    }
  }

  lemma RawCounted(n: nat, first: Raw, done: Raw, setVar: Instr, step: int, body: seq<Instr>)
    requires RawReturns(body) && InstrRawReturns(setVar)
    ensures RawReturns(CountedCode(n, first, done, setVar, step, body))
  {
    hide RawReturns;
    var test, inner, add, back := BrIf(B(n), done), Instr.Block(C(n), body), SetRaw(Counter(n), RawOp(I32Add, GetRaw(Counter(n)),
      Const(step))), Br(L(n));
    var pass := PassCode(n, done, setVar, step, body);
    assert pass == [test] + ([setVar] + ([inner] + ([add] + [back])));
    RawOne(test);
    RawOne(setVar);
    RawOne(inner);
    RawOne(add);
    RawOne(back);
    RawSum([add], [back]);
    RawSum([inner], [add] + [back]);
    RawSum([setVar], [inner] + ([add] + [back]));
    RawSum([test], [setVar] + ([inner] + ([add] + [back])));
    var init, block := SetRaw(Counter(n), first), Instr.Block(B(n), [Loop(L(n), pass)]);
    RawOne(Loop(L(n), pass));
    RawOne(block);
    RawOne(init);
    RawSum([init], [block]);
    assert CountedCode(n, first, done, setVar, step, body) == [init] + [block];
  }

  lemma {:induction false} ForNoBoxed(x: string, start: Expr, end: Expr, step: Expr, body: Block, env: Env, loops: seq<LoopLabels>, s: Supply)
    requires env.scalar && FirstReturn(body, false).None?
    ensures var l := LowerFor(x, start, end, step, body, env, loops, s); l.Lowered? ==> RawReturns(l.code)
    decreases BlockSize(body), 2
  {
    hide LowerBlock, I32Expr, FirstReturn, RawReturns, CountedCode, StepOf;
    var s0 := if ConstInt(end).Some? then s else WithScratch(s);
    var n := s0.marks;
    var inner := loops + [LoopLabels(B(n), C(n))];
    NoBareNoBoxed(body, env, inner, WithCounter(s0));
    if LowerFor(x, start, end, step, body, env, loops, s).Lowered? {
      var last, stride := I32Expr(end, env).value, StepOf(step).value;
      var until := if ConstInt(end).Some? then last else GetRaw(Scratch(s.temps));
      var code := LowerBlock(body, env, inner, WithCounter(s0)).code;
      var counted := CountedCode(n, I32Expr(start, env).value, AtEnd(n, stride, until), SetCounted(x, n, env), stride, code);
      RawCounted(n, I32Expr(start, env).value, AtEnd(n, stride, until), SetCounted(x, n, env), stride, code);
      RawOne(SetRaw(Scratch(s.temps), last));
      RawSum([SetRaw(Scratch(s.temps), last)], counted);
      assert [] + counted == counted;
    }
  }

  lemma {:induction false} ForEachNoBoxed(x: string, iterable: Expr, body: Block, env: Env, loops: seq<LoopLabels>, s: Supply)
    requires env.scalar && FirstReturn(body, false).None?
    ensures var l := LowerForEach(x, iterable, body, env, loops, s); l.Lowered? ==> RawReturns(l.code)
    decreases BlockSize(body), 2
  {
    hide LowerBlock, ValueExpr, FirstReturn, RawReturns, CountedCode;
    var n, t, s0 := s.marks, s.temps, WithCounter(WithScratch(s));
    var inner := loops + [LoopLabels(B(n), C(n))];
    NoBareNoBoxed(body, env, inner, s0);
    if LowerForEach(x, iterable, body, env, loops, s).Lowered? {
      var code := LowerBlock(body, env, inner, s0).code;
      var done := RawOp(Compare(Ge), GetRaw(Counter(n)), PyIterLen(GetRef(Scratch(t))));
      RawCounted(n, Const(0), done, SetItem(x, n, t), 1, code);
      RawOne(SetRef(Scratch(t), ValueExpr(iterable, env).value));
      RawSum([SetRef(Scratch(t), ValueExpr(iterable, env).value)], CountedCode(n, Const(0), done, SetItem(x, n, t), 1, code));
    }
  }

  /** Code whose every path ends in a valued `return` never runs past its end, from any
      machine whatsoever. */
  lemma {:induction false} NeverPastEnd(b: Block, env: Env, loops: seq<LoopLabels>, s: Supply, m: Machine, o: Oracle, fuel: nat)
    requires AllPathsReturn(b) && LowerBlock(b, env, loops, s).Lowered?
    ensures !Run(LowerBlock(b, env, loops, s).code, m, o, fuel).Fall?
    decreases BlockSize(b), 1, |b|
  {
    hide LowerStmt;
    var first := LowerStmt(b[0], env, loops, s);
    var rest := LowerBlock(b[1..], env, loops, first.after);
    RunAppend(first.code, rest.code, m, o, fuel);
    if |b| > 1 {
      assert b[1..][|b| - 2] == b[|b| - 1];
      var x := Run(first.code, m, o, fuel);
      if x.Fall? { NeverPastEnd(b[1..], env, loops, first.after, x.m, o, fuel); }
    } else {
      assert b[|b| - 1] == b[0];
      LastNeverPast(b[0], env, loops, s, m, o, fuel);
      assert first.code + [] == first.code;
    }
  }

  lemma {:induction false} LastNeverPast(st: Stmt, env: Env, loops: seq<LoopLabels>, s: Supply, m: Machine, o: Oracle, fuel: nat)
    requires AllPathsReturn([st]) && LowerStmt(st, env, loops, s).Lowered?
    ensures !Run(LowerStmt(st, env, loops, s).code, m, o, fuel).Fall?
    decreases StmtSize(st), 0
  {
    hide LowerBlock, LowerIf, ValueExpr, ScalarExpr, Run, AllPathsReturn;
    LastReturns(st);
    var code := LowerStmt(st, env, loops, s).code;
    if st.kind.Return? {
      assert code == [code[0]];
      RunOne(code[0], m, o, fuel);
    } else {
      IfNeverPast(st.kind.cond, st.kind.body, st.kind.elifs, st.kind.orelse, env, loops, s, m, o, fuel);
    }
  }

  lemma LastReturns(st: Stmt)
    requires AllPathsReturn([st])
    ensures (st.kind.Return? && st.kind.result.Some?) || st.kind.If?
    ensures st.kind.If? ==>
      AllPathsReturn(st.kind.body) && ArmsReturn(st.kind.elifs) && st.kind.orelse.Else? && AllPathsReturn(st.kind.orelse.block)
  {
    hide ArmsReturn;
    assert [st][|[st]| - 1] == st;
  }

  lemma {:induction false} IfNeverPast(c: Expr, body: Block, elifs: seq<Arm>, orelse: ElseBlock, env: Env, loops: seq<LoopLabels>,
                                       s: Supply, m: Machine, o: Oracle, fuel: nat)
    requires AllPathsReturn(body) && ArmsReturn(elifs) && orelse.Else? && AllPathsReturn(orelse.block)
    requires LowerIf(c, body, elifs, orelse, env, loops, s).Lowered?
    ensures !Run(LowerIf(c, body, elifs, orelse, env, loops, s).code, m, o, fuel).Fall?
    decreases BlockSize(body) + ArmsSize(elifs) + BlockSize(ElseOf(orelse)), 3
  {
    hide LowerBlock, LowerElse, CondI32, Run, AllPathsReturn, ArmsReturn, EvalRaw;
    var thens := LowerBlock(body, env, loops, s);
    var g := EvalRaw(CondI32(c, env).value, m, o);
    if g.Got? {
      NeverPastEnd(body, env, loops, s, g.m, o, fuel);
      ElseNeverPast(elifs, orelse, env, loops, thens.after, g.m, o, fuel);
    }
    RunOne(LowerIf(c, body, elifs, orelse, env, loops, s).code[0], m, o, fuel);
  }

  lemma {:induction false} ElseNeverPast(elifs: seq<Arm>, orelse: ElseBlock, env: Env, loops: seq<LoopLabels>, s: Supply, m: Machine,
                                         o: Oracle, fuel: nat)
    requires ArmsReturn(elifs) && orelse.Else? && AllPathsReturn(orelse.block) && LowerElse(elifs, orelse, env, loops, s).Lowered?
    ensures !Run(LowerElse(elifs, orelse, env, loops, s).code, m, o, fuel).Fall?
    decreases ArmsSize(elifs) + BlockSize(ElseOf(orelse)), 2
  {
    hide LowerBlock, LowerIf, Run, AllPathsReturn;
    if elifs == [] { NeverPastEnd(orelse.block, env, loops, s, m, o, fuel); }
    else { IfNeverPast(elifs[0].cond, elifs[0].body, elifs[1..], orelse, env, loops, s, m, o, fuel); }
  }

  /** Behind the gate, a raw-result function holds no boxed `return`, and no run of it, in
      any state, reaches the `unreachable` at its end. */
  lemma RawResult(f: Source, m: Machine, o: Oracle, fuel: nat)
    requires EnvOf(f).scalar && Emitted(f).Lowered? && !Owes(f.body)
    ensures RawReturns(Emitted(f).code) && !Run(Emitted(f).code, m, o, fuel).Fall?
  {
    hide LowerBlock, AllPathsReturn, FirstReturn, Run, RawReturns, FallsOff, Inferred, Ints, Assigned, SurveyBlock, TopLevel.EachVars;
    DivergesOrReturns(f.body);
    NoBareNoBoxed(f.body, EnvOf(f), [], Supply(0, 0, []));
    NeverPastEnd(f.body, EnvOf(f), [], Supply(0, 0, []), m, o, fuel);
  }
}
