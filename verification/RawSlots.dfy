/** Which names the compiler keeps in raw slots (src/codegen.rs, src/repr.rs), said about the
    text of a function. */
module RawSlots {
  import opened Syntax
  import opened SlotChoice
  import opened SlotInference
  import opened DefiniteAssignment
  import opened CompiledFunction
  import opened Compilable
  import MissingReturn
  import TopLevel

  // ----------------------------------------------------- bound by a for loop

  /** Some `for ... in` loop of `b` binds `x`. */
  predicate EachBinds(b: Block, x: string)
    decreases BlockSize(b), 1
  {
    b != [] && (StmtEachBinds(b[0], x) || EachBinds(b[1..], x))
  }

  predicate StmtEachBinds(s: Stmt, x: string)
    decreases StmtSize(s), 0
  {
    match s.kind
    case ForEach(y, _, body) => y == x || EachBinds(body, x)
    case For(_, _, _, _, body, _) => EachBinds(body, x)
    case While(_, body) => EachBinds(body, x)
    case If(_, body, elifs, orelse) => EachBinds(body, x) || ArmsEachBind(elifs, x) || EachBinds(ElseOf(orelse), x)
    case _ => false
  }

  predicate ArmsEachBind(elifs: seq<Arm>, x: string)
    decreases ArmsSize(elifs), 1
  {
    elifs != [] && (EachBinds(elifs[0].body, x) || ArmsEachBind(elifs[1..], x))
  }

  lemma {:induction false} EachExactly(b: Block, x: string)
    ensures x in TopLevel.EachVars(b) <==> EachBinds(b, x)
    decreases BlockSize(b), 1
  {
    if b != [] {
      hide TopLevel.EachVarsOf, StmtEachBinds;
      EachOfExactly(b[0], x);
      EachExactly(b[1..], x);
    }
  }

  lemma {:induction false} EachOfExactly(s: Stmt, x: string)
    ensures x in TopLevel.EachVarsOf(s) <==> StmtEachBinds(s, x)
    decreases StmtSize(s), 0
  {
    hide TopLevel.EachVars, EachBinds, TopLevel.EachVarsInArms, ArmsEachBind;
    match s.kind {
      case For(_, _, _, _, body, _) => EachExactly(body, x);
      case ForEach(_, _, body) => EachExactly(body, x);
      case While(_, body) => EachExactly(body, x);
      case If(_, body, elifs, orelse) =>
        EachExactly(body, x);
        EachInArmsExactly(elifs, x);
        EachExactly(ElseOf(orelse), x);
      case _ =>
    }
  }

  lemma {:induction false} EachInArmsExactly(elifs: seq<Arm>, x: string)
    ensures x in TopLevel.EachVarsInArms(elifs) <==> ArmsEachBind(elifs, x)
    decreases ArmsSize(elifs), 1
  {
    if elifs != [] {
      hide TopLevel.EachVars, EachBinds;
      EachExactly(elifs[0].body, x);
      EachInArmsExactly(elifs[1..], x);
    }
  }

  // ------------------------------------------------------- names read too early

  /** `e` reads the name `x`. */
  predicate Mentions(e: Expr, x: string)
    decreases e, 0
  {
    match e.kind
    case Name(y) => y == x
    case Unary(_, i) => Mentions(i, x)
    case Bin(_, a, b) => Mentions(a, x) || Mentions(b, x)
    case Call(_, args) => AnyMentions(args, x)
    case MethodCall(obj, _, args) => Mentions(obj, x) || AnyMentions(args, x)
    case _ => false
  }

  predicate AnyMentions(es: seq<Expr>, x: string)
    decreases es, 1
  {
    es != [] && (Mentions(es[0], x) || AnyMentions(es[1..], x))
  }

  predicate Stores(s: Stmt, x: string) { (s.kind.Assign? || s.kind.AnnAssign?) && s.kind.target == x }

  /** `x` is read, here or inside a statement, before a statement of this block or of one
      around it has assigned it; assignments inside branches and loops do not count. */
  predicate ReadEarly(b: Block, x: string)
    decreases BlockSize(b), 1
  {
    b != [] && (ReadFirst(b[0], x) || (!Stores(b[0], x) && ReadEarly(b[1..], x)))
  }

  predicate ReadFirst(s: Stmt, x: string)
    decreases StmtSize(s), 0
  {
    match s.kind
    case Assign(_, e) => Mentions(e, x)
    case AnnAssign(_, e, _) => Mentions(e, x)
    case ExprStmt(e) => Mentions(e, x)
    case Return(r) => r.Some? && Mentions(r.value, x)
    case If(c, body, elifs, orelse) =>
      Mentions(c, x) || ReadEarly(body, x) || ArmsReadEarly(elifs, x) || ReadEarly(ElseOf(orelse), x)
    case While(c, body) => Mentions(c, x) || ReadEarly(body, x)
    case For(y, start, end, step, body, _) =>
      Mentions(start, x) || Mentions(end, x) || Mentions(step, x) || (y != x && ReadEarly(body, x))
    case ForEach(y, iterable, body) => Mentions(iterable, x) || (y != x && ReadEarly(body, x))
    case _ => false
  }

  predicate ArmsReadEarly(elifs: seq<Arm>, x: string)
    decreases ArmsSize(elifs), 1
  {
    elifs != [] && (Mentions(elifs[0].cond, x) || ReadEarly(elifs[0].body, x) || ArmsReadEarly(elifs[1..], x))
  }

  lemma {:induction false} MentionsExactly(e: Expr, x: string)
    ensures x in Reads(e) <==> Mentions(e, x)
    decreases e, 0
  {
    match e.kind {
      case Unary(_, i) => MentionsExactly(i, x);
      case Bin(_, a, b) =>
        MentionsExactly(a, x);
        MentionsExactly(b, x);
      case Call(_, args) => AnyExactly(args, x);
      case MethodCall(obj, _, args) =>
        MentionsExactly(obj, x);
        AnyExactly(args, x);
      case _ =>
    }
  }

  lemma {:induction false} AnyExactly(es: seq<Expr>, x: string)
    ensures x in ReadsAll(es) <==> AnyMentions(es, x)
    decreases es, 1
  {
    if es != [] {
      hide Reads, Mentions;
      MentionsExactly(es[0], x);
      AnyExactly(es[1..], x);
    }
  }

  /** A name is demoted exactly if it is read early. */
  lemma {:induction false} DemotedExactly(b: Block, defined: set<string>, x: string)
    ensures x in SurveyBlock(b, defined).demoted <==> x !in defined && ReadEarly(b, x)
    ensures b != [] ==> (x in SurveyStmt(b[0], defined).defined <==> x in defined || Stores(b[0], x))
    decreases BlockSize(b), 1
  {
    if b != [] {
      StmtDemoted(b[0], defined, x);
      hide SurveyStmt, ReadFirst, Stores;
      DemotedExactly(b[1..], SurveyStmt(b[0], defined).defined, x);
    }
  }

  lemma {:induction false} StmtDemoted(s: Stmt, defined: set<string>, x: string)
    ensures x in SurveyStmt(s, defined).demoted <==> x !in defined && ReadFirst(s, x)
    ensures x in SurveyStmt(s, defined).defined <==> x in defined || Stores(s, x)
    decreases StmtSize(s), 0
  {
    hide SurveyBlock, ReadEarly, SurveyArms, ArmsReadEarly, Reads, Mentions;
    match s.kind {
      case Assign(_, e) => MentionsExactly(e, x);
      case AnnAssign(_, e, _) => MentionsExactly(e, x);
      case ExprStmt(e) => MentionsExactly(e, x);
      case Return(r) => if r.Some? { MentionsExactly(r.value, x); }
      case If(c, body, elifs, orelse) =>
        MentionsExactly(c, x);
        DemotedExactly(body, defined, x);
        ArmsDemoted(elifs, defined, x);
        DemotedExactly(ElseOf(orelse), defined, x);
      case While(c, body) =>
        MentionsExactly(c, x);
        DemotedExactly(body, defined, x);
      case For(y, start, end, step, body, _) =>
        MentionsExactly(start, x);
        MentionsExactly(end, x);
        MentionsExactly(step, x);
        DemotedExactly(body, defined + {y}, x);
      case ForEach(y, iterable, body) =>
        MentionsExactly(iterable, x);
        DemotedExactly(body, defined + {y}, x);
      case _ =>
    }
  }

  lemma {:induction false} ArmsDemoted(elifs: seq<Arm>, defined: set<string>, x: string)
    ensures x in SurveyArms(elifs, defined) <==> x !in defined && ArmsReadEarly(elifs, x)
    decreases ArmsSize(elifs), 1
  {
    if elifs != [] {
      hide SurveyBlock, ReadEarly, Reads, Mentions;
      MentionsExactly(elifs[0].cond, x);
      DemotedExactly(elifs[0].body, defined, x);
      ArmsDemoted(elifs[1..], defined, x);
    }
  }

  // ----------------------------------------------------------------- raw slots

  /** Which names live in raw slots: parameters announced `int` that nothing rebinds, names
      inferred whole that no list item is bound to and that are not read early, and the
      module's raw variables that are not shadowed.  The result is raw if it is announced
      `int` and every path gives one back. */
  lemma RawSlotsExactly(f: Source, x: string)
    ensures x in EnvOf(f).typed <==>
              if x in ParamNames(f.params) || Binds(f.body, x) then
                || ((exists p :: p in f.params && p.name == x && p.isInt) && !Binds(f.body, x))
                || (x in InferredIn(f) && !EachBinds(f.body, x) && !ReadEarly(f.body, x))
              else x in f.rawGlobals
    ensures EnvOf(f).scalar <==> f.returnsInt && MissingReturn.AllPathsReturn(f.body)
  {
    hide Inferred, Ints, Assigned, Binds, TopLevel.EachVars, EachBinds, SurveyBlock, ReadEarly, MissingReturn.AllPathsReturn;
    DemotedExactly(f.body, {}, x);
    AssignedExactly(f.body, x);
    EachExactly(f.body, x);
    SettledExactly(f.body, GivenBy(f), f.sigs);
  }

  // ------------------------------------------------- what is computed unboxed

  /** The operands that arithmetic is applied to. */
  function Leaves(e: Expr): set<Expr> {
    match e.kind
    case Unary(Neg, i) => Leaves(i)
    case Bin(op, a, b) => if op.Add? || op.Sub? || op.Mul? || op.FloorDiv? || op.Mod? then Leaves(a) + Leaves(b) else {e}
    case _ => {e}
  }

  /** A whole number on the face of it: a literal, a whole name, `len`, a raw result. */
  predicate WholeLeaf(e: Expr, ints: set<string>, sigs: map<string, Sig>) {
    match e.kind
    case Int(_) => true
    case Name(x) => x in ints
    case Call(g, _) => g == "len" || (g in sigs && sigs[g].raw)
    case _ => false
  }

  /** An expression is inferred whole exactly if all its operands are whole numbers on the
      face of it. */
  lemma {:induction false} WholeExactlyByLeaves(e: Expr, ints: set<string>, sigs: map<string, Sig>)
    ensures InferInt(e, ints, sigs) <==> forall l :: l in Leaves(e) ==> WholeLeaf(l, ints, sigs)
    decreases e
  {
    match e.kind {
      case Unary(Neg, i) => WholeExactlyByLeaves(i, ints, sigs);
      case Bin(op, a, b) =>
        assert IsCompare(op) <==> !(op.Add? || op.Sub? || op.Mul? || op.FloorDiv? || op.Mod?);
        if IsCompare(op) {
          assert e in Leaves(e) && !WholeLeaf(e, ints, sigs);
        } else {
          WholeExactlyByLeaves(a, ints, sigs);
          WholeExactlyByLeaves(b, ints, sigs);
          assert Leaves(e) == Leaves(a) + Leaves(b);
        }
      case _ =>
        assert Leaves(e) == {e};
        assert WholeLeaf(e, ints, sigs) == InferInt(e, ints, sigs);
        assert e in Leaves(e);
    }
  }
}
