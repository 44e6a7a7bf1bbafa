/** Which unannotated names hold whole numbers (src/repr.rs): the rounds that look for them,
    exactly when the verdict can be trusted, and a program for which it cannot. */
module SlotInference {
  import opened Syntax
  import opened SlotChoice

  /** A name's bindings so far: all whole numbers, or not. */
  datatype Kind = Whole | Mixed

  type Kinds = map<string, Kind>

  /** Names whose type is given: whether it is `int`. */
  type Given = map<string, bool>

  // ------------------------------------------------------------- the rounds

  /** Annotations found in a body, the first one of a name counting. */
  function Declared(b: Block, given: Given): Given
    decreases BlockSize(b), 1
  {
    if b == [] then given else Declared(b[1..], DeclaredBy(b[0], given))
  }

  function DeclaredBy(s: Stmt, given: Given): Given
    decreases StmtSize(s), 0
  {
    match s.kind
    case AnnAssign(x, _, isInt) => if x in given then given else given[x := isInt]
    case If(_, body, elifs, orelse) => Declared(ElseOf(orelse), DeclaredInArms(elifs, Declared(body, given)))
    case For(_, _, _, _, body, _) => Declared(body, given)
    case ForEach(_, _, body) => Declared(body, given)
    case While(_, body) => Declared(body, given)
    case _ => given
  }

  function DeclaredInArms(elifs: seq<Arm>, given: Given): Given
    decreases ArmsSize(elifs), 1
  {
    if elifs == [] then given else DeclaredInArms(elifs[1..], Declared(elifs[0].body, given))
  }

  /** The names taken to be whole numbers when an expression is judged. */
  function Known(kinds: Kinds, given: Given): set<string> {
    (set x | x in given && given[x]) + (set x | x in kinds && x !in given && kinds[x] == Whole)
  }

  function Joined(kinds: Kinds, x: string, whole: bool, given: Given): Kinds {
    if x in given then kinds
    else if x !in kinds then kinds[x := if whole then Whole else Mixed]
    else if kinds[x] == (if whole then Whole else Mixed) then kinds
    else kinds[x := Mixed]
  }

  /** One walk: every binding is joined in, judged by what was known when the walk entered
      the block the binding is in. */
  function Walked(b: Block, given: Given, sigs: map<string, Sig>, kinds: Kinds): Kinds
    decreases BlockSize(b), 2
  {
    WalkedFrom(b, Known(kinds, given), given, sigs, kinds)
  }

  function WalkedFrom(b: Block, known: set<string>, given: Given, sigs: map<string, Sig>, kinds: Kinds): Kinds
    decreases BlockSize(b), 1
  {
    if b == [] then kinds else WalkedFrom(b[1..], known, given, sigs, WalkedStmt(b[0], known, given, sigs, kinds))
  }

  function WalkedStmt(s: Stmt, known: set<string>, given: Given, sigs: map<string, Sig>, kinds: Kinds): Kinds
    decreases StmtSize(s), 0
  {
    match s.kind
    case Assign(x, e) => Joined(kinds, x, InferInt(e, known, sigs), given)
    case For(x, _, _, _, body, _) => Walked(body, given, sigs, Joined(kinds, x, true, given))
    case ForEach(x, _, body) => Walked(body, given, sigs, Joined(kinds, x, false, given))
    case While(_, body) => Walked(body, given, sigs, kinds)
    case If(_, body, elifs, orelse) => Walked(ElseOf(orelse), given, sigs, WalkedArms(elifs, given, sigs, Walked(body, given, sigs, kinds)))
    case _ => kinds
  }

  function WalkedArms(elifs: seq<Arm>, given: Given, sigs: map<string, Sig>, kinds: Kinds): Kinds
    decreases ArmsSize(elifs), 1
  {
    if elifs == [] then kinds else WalkedArms(elifs[1..], given, sigs, Walked(elifs[0].body, given, sigs, kinds))
  }

  /** At most `n` walks, fewer when one changes nothing. */
  function Rounds(b: Block, given: Given, sigs: map<string, Sig>, kinds: Kinds, n: nat): Kinds
    decreases n
  {
    if n == 0 || Walked(b, given, sigs, kinds) == kinds then kinds
    else Rounds(b, given, sigs, Walked(b, given, sigs, kinds), n - 1)
  }

  const ROUNDS: nat := 8

  /** The kinds the inference ends with, and its verdict. */
  function Final(b: Block, given: Given, sigs: map<string, Sig>): Kinds { Rounds(b, Declared(b, given), sigs, map[], ROUNDS) }

  function Wholes(kinds: Kinds): set<string> { set x | x in kinds && kinds[x] == Whole }

  function Inferred(b: Block, given: Given, sigs: map<string, Sig>): set<string> { Wholes(Final(b, given, sigs)) }

  /** The names typed expressions may rely on: given or inferred. */
  function Ints(b: Block, given: Given, sigs: map<string, Sig>): set<string> { Known(Final(b, given, sigs), Declared(b, given)) }

  // ------------------------------------------- the inference as it is written

  method CollectAnn(b: Block, given0: Given) returns (given: Given)
    ensures given == Declared(b, given0)
    decreases BlockSize(b)
  {
    assert forall g :: Declared([], g) == g;
    hide Declared;
    given := given0;
    var i := 0;
    assert b[0..] == b;
    while i < |b|
      invariant 0 <= i <= |b| && BlockSize(b[i..]) <= BlockSize(b)
      invariant Declared(b[i..], given) == Declared(b, given0)
    {
      DeclaredTail(b, i, given);
      match b[i].kind {
        case AnnAssign(x, _, isInt) => if x !in given { given := given[x := isInt]; }
        case If(_, body, elifs, orelse) =>
          ghost var before := given;
          given := CollectAnn(body, given);
          var k := 0;
          assert elifs[0..] == elifs;
          while k < |elifs|
            invariant 0 <= k <= |elifs| && ArmsSize(elifs[k..]) <= ArmsSize(elifs)
            invariant DeclaredInArms(elifs[k..], given) == DeclaredInArms(elifs, Declared(body, before))
          {
            assert elifs[k..][0] == elifs[k] && elifs[k..][1..] == elifs[k + 1..];
            given := CollectAnn(elifs[k].body, given);
            k := k + 1;
          }
          assert elifs[k..] == [];
          if orelse.Else? { given := CollectAnn(orelse.block, given); }
        case For(_, _, _, _, body, _) => given := CollectAnn(body, given);
        case ForEach(_, _, body) => given := CollectAnn(body, given);
        case While(_, body) => given := CollectAnn(body, given);
        case _ =>
      }
      i := i + 1;
    }
    assert b[i..] == [];
  }

  lemma DeclaredTail(b: Block, i: nat, given: Given)
    requires i < |b|
    ensures BlockSize(b[i..]) == StmtSize(b[i]) + BlockSize(b[i + 1..])
    ensures Declared(b[i..], given) == Declared(b[i + 1..], DeclaredBy(b[i], given))
  {
    hide DeclaredBy;
    assert b[i..][0] == b[i] && b[i..][1..] == b[i + 1..];
  }

  method WalkBindings(b: Block, given: Given, sigs: map<string, Sig>, kinds0: Kinds) returns (kinds: Kinds)
    ensures kinds == Walked(b, given, sigs, kinds0)
    decreases BlockSize(b), 2
  {
    assert forall k, g :: WalkedFrom([], k, given, sigs, g) == g;
    hide WalkedFrom, WalkedStmt, Known;
    kinds := kinds0;
    var known := Known(kinds, given);
    var i := 0;
    assert b[0..] == b;
    while i < |b|
      invariant 0 <= i <= |b| && BlockSize(b[i..]) <= BlockSize(b)
      invariant WalkedFrom(b[i..], known, given, sigs, kinds) == Walked(b, given, sigs, kinds0)
    {
      WalkedTail(b, i, known, given, sigs, kinds);
      kinds := WalkStatement(b[i], known, given, sigs, kinds);
      i := i + 1;
    }
    assert b[i..] == [];
  }

  method WalkStatement(s: Stmt, known: set<string>, given: Given, sigs: map<string, Sig>, kinds0: Kinds) returns (kinds: Kinds)
    ensures kinds == WalkedStmt(s, known, given, sigs, kinds0)
    decreases StmtSize(s), 0
  {
    hide WalkedFrom, WalkedArms, Known, Joined, InferInt;
    kinds := kinds0;
    match s.kind {
      case Assign(x, e) => kinds := Joined(kinds, x, InferInt(e, known, sigs), given);
      case For(x, _, _, _, body, _) => kinds := WalkBindings(body, given, sigs, Joined(kinds, x, true, given));
      case ForEach(x, _, body) => kinds := WalkBindings(body, given, sigs, Joined(kinds, x, false, given));
      case While(_, body) => kinds := WalkBindings(body, given, sigs, kinds);
      case If(_, body, elifs, orelse) =>
        kinds := WalkBindings(body, given, sigs, kinds);
        kinds := WalkArms(elifs, given, sigs, kinds);
        kinds := WalkBindings(ElseOf(orelse), given, sigs, kinds);
      case _ =>
    }
  }

  method WalkArms(elifs: seq<Arm>, given: Given, sigs: map<string, Sig>, kinds0: Kinds) returns (kinds: Kinds)
    ensures kinds == WalkedArms(elifs, given, sigs, kinds0)
    decreases ArmsSize(elifs), 3
  {
    hide Walked;
    kinds := kinds0;
    var k := 0;
    assert elifs[0..] == elifs;
    while k < |elifs|
      invariant 0 <= k <= |elifs| && ArmsSize(elifs[k..]) <= ArmsSize(elifs)
      invariant WalkedArms(elifs[k..], given, sigs, kinds) == WalkedArms(elifs, given, sigs, kinds0)
    {
      assert elifs[k..][0] == elifs[k] && elifs[k..][1..] == elifs[k + 1..];
      kinds := WalkBindings(elifs[k].body, given, sigs, kinds);
      k := k + 1;
    }
    assert elifs[k..] == [];
  }

  lemma WalkedTail(b: Block, i: nat, known: set<string>, given: Given, sigs: map<string, Sig>, kinds: Kinds)
    requires i < |b|
    ensures BlockSize(b[i..]) == StmtSize(b[i]) + BlockSize(b[i + 1..])
    ensures WalkedFrom(b[i..], known, given, sigs, kinds) == WalkedFrom(b[i + 1..], known, given, sigs, WalkedStmt(b[i], known, given, sigs, kinds))
  {
    hide WalkedStmt;
    assert b[i..][0] == b[i] && b[i..][1..] == b[i + 1..];
  }

  /** Eight walks at most, and then whatever is left standing. */
  method InferSlots(b: Block, given0: Given, sigs: map<string, Sig>) returns (inferred: set<string>)
    ensures inferred == Inferred(b, given0, sigs)
  {
    hide Walked, Declared;
    var given := CollectAnn(b, given0);
    var kinds: Kinds := map[];
    var n := 0;
    while n < ROUNDS
      invariant 0 <= n <= ROUNDS
      invariant Rounds(b, given, sigs, kinds, ROUNDS - n) == Rounds(b, given, sigs, map[], ROUNDS)
    {
      var before := kinds;
      kinds := WalkBindings(b, given, sigs, kinds);
      n := n + 1;
      if kinds == before { break; }
    }
    inferred := set x | x in kinds && kinds[x] == Whole;
  }

  // ------------------------------------------------- when the verdict is the truth

  /** Every binding of a name of `wholes` is a whole number, judged by `ints`. */
  predicate Truthful(b: Block, ints: set<string>, wholes: set<string>, sigs: map<string, Sig>)
    decreases BlockSize(b), 1
  {
    b == [] || (TruthfulStmt(b[0], ints, wholes, sigs) && Truthful(b[1..], ints, wholes, sigs))
  }

  predicate TruthfulStmt(s: Stmt, ints: set<string>, wholes: set<string>, sigs: map<string, Sig>)
    decreases StmtSize(s), 0
  {
    match s.kind
    case Assign(x, e) => x in wholes ==> InferInt(e, ints, sigs)
    case AnnAssign(x, e, _) => x in wholes ==> InferInt(e, ints, sigs)
    case For(_, _, _, _, body, _) => Truthful(body, ints, wholes, sigs)
    case ForEach(x, _, body) => x !in wholes && Truthful(body, ints, wholes, sigs)
    case While(_, body) => Truthful(body, ints, wholes, sigs)
    case If(_, body, elifs, orelse) =>
      Truthful(body, ints, wholes, sigs) && TruthfulArms(elifs, ints, wholes, sigs) && Truthful(ElseOf(orelse), ints, wholes, sigs)
    case _ => true
  }

  predicate TruthfulArms(elifs: seq<Arm>, ints: set<string>, wholes: set<string>, sigs: map<string, Sig>)
    decreases ArmsSize(elifs), 1
  {
    elifs == [] || (Truthful(elifs[0].body, ints, wholes, sigs) && TruthfulArms(elifs[1..], ints, wholes, sigs))
  }

  /** Joining only adds names and turns whole ones into mixed ones. */
  predicate Before(a: Kinds, b: Kinds) {
    a.Keys <= b.Keys && forall x :: x in a ==> b[x] == a[x] || b[x] == Mixed
  }

  lemma BeforeTrans(a: Kinds, b: Kinds, c: Kinds)
    requires Before(a, b) && Before(b, c)
    ensures Before(a, c)
  {
  }

  lemma {:induction false} WalkGrows(b: Block, known: set<string>, given: Given, sigs: map<string, Sig>, kinds: Kinds)
    ensures Before(kinds, WalkedFrom(b, known, given, sigs, kinds))
    decreases BlockSize(b), 1
  {
    hide WalkedStmt, Before;
    if b == [] {
      BeforeSelf(kinds);
    } else {
      var next := WalkedStmt(b[0], known, given, sigs, kinds);
      StmtGrows(b[0], known, given, sigs, kinds);
      WalkGrows(b[1..], known, given, sigs, next);
      BeforeTrans(kinds, next, WalkedFrom(b[1..], known, given, sigs, next));
    }
  }

  lemma BeforeSelf(kinds: Kinds)
    ensures Before(kinds, kinds)
  {
  }

  lemma JoinGrows(kinds: Kinds, x: string, whole: bool, given: Given)
    ensures Before(kinds, Joined(kinds, x, whole, given))
  {
  }

  lemma {:induction false} StmtGrows(s: Stmt, known: set<string>, given: Given, sigs: map<string, Sig>, kinds: Kinds)
    ensures Before(kinds, WalkedStmt(s, known, given, sigs, kinds))
    decreases StmtSize(s), 0
  {
    hide WalkedFrom, Before, Joined, InferInt, Known, WalkedArms;
    BeforeSelf(kinds);
    match s.kind
    case Assign(x, e) => JoinGrows(kinds, x, InferInt(e, known, sigs), given);
    case For(x, _, _, _, body, _) => BodyGrows(body, given, sigs, kinds, Joined(kinds, x, true, given)) by { JoinGrows(kinds, x, true, given); }
    case ForEach(x, _, body) => BodyGrows(body, given, sigs, kinds, Joined(kinds, x, false, given)) by { JoinGrows(kinds, x, false, given); }
    case While(_, body) => BodyGrows(body, given, sigs, kinds, kinds);
    case If(_, body, elifs, orelse) =>
      var k1 := Walked(body, given, sigs, kinds);
      BodyGrows(body, given, sigs, kinds, kinds);
      ArmsGrow(elifs, given, sigs, k1);
      var k2 := WalkedArms(elifs, given, sigs, k1);
      BeforeTrans(kinds, k1, k2);
      BodyGrows(ElseOf(orelse), given, sigs, kinds, k2);
    case _ =>
  }

  lemma {:induction false} BodyGrows(b: Block, given: Given, sigs: map<string, Sig>, kinds: Kinds, entry: Kinds)
    requires Before(kinds, entry)
    ensures Before(kinds, Walked(b, given, sigs, entry))
    decreases BlockSize(b), 2
  {
    hide WalkedFrom, Before, Known;
    WalkGrows(b, Known(entry, given), given, sigs, entry);
    BeforeTrans(kinds, entry, Walked(b, given, sigs, entry));
  }

  lemma {:induction false} ArmsGrow(elifs: seq<Arm>, given: Given, sigs: map<string, Sig>, kinds: Kinds)
    ensures Before(kinds, WalkedArms(elifs, given, sigs, kinds))
    decreases ArmsSize(elifs), 3
  {
    hide Walked, Before;
    BeforeSelf(kinds);
    if elifs != [] {
      var next := Walked(elifs[0].body, given, sigs, kinds);
      BodyGrows(elifs[0].body, given, sigs, kinds, kinds);
      ArmsGrow(elifs[1..], given, sigs, next);
      BeforeTrans(kinds, next, WalkedArms(elifs[1..], given, sigs, next));
    }
  }

  /** Knowing more, more is a whole number. */
  lemma {:induction false} InferMore(e: Expr, known: set<string>, more: set<string>, sigs: map<string, Sig>)
    requires known <= more && InferInt(e, known, sigs)
    ensures InferInt(e, more, sigs)
    decreases e
  {
    match e.kind
    case Unary(Neg, i) => InferMore(i, known, more, sigs);
    case Bin(_, a, b) =>
      InferMore(a, known, more, sigs);
      InferMore(b, known, more, sigs);
    case _ =>
  }

  /** A walk that starts and stays at or below `last`, which calls no more names mixed than
      the start does, finds only what `last` says. */
  ghost predicate Below(kinds: Kinds, last: Kinds) {
    Before(kinds, last) && forall x :: x in last && last[x] == Mixed ==> x in kinds && kinds[x] == Mixed
  }

  lemma BelowKnown(kinds: Kinds, last: Kinds, given: Given)
    requires Below(kinds, last)
    ensures Known(kinds, given) <= Known(last, given)
  {
  }

  lemma BelowLater(kinds: Kinds, next: Kinds, last: Kinds)
    requires Below(kinds, last) && Before(kinds, next) && Before(next, last)
    ensures Below(next, last)
  {
  }

  lemma JoinTold(kinds: Kinds, x: string, whole: bool, given: Given, last: Kinds)
    requires Before(Joined(kinds, x, whole, given), last) && x !in given && x in Wholes(last)
    ensures whole
  {
  }

  lemma JoinRest(kinds: Kinds, x: string, whole: bool, given: Given, last: Kinds)
    requires Below(kinds, last) && Before(Joined(kinds, x, whole, given), last)
    ensures Below(Joined(kinds, x, whole, given), last)
  {
    JoinGrows(kinds, x, whole, given);
  }

  lemma {:induction false} WalkTold(b: Block, known: set<string>, given: Given, sigs: map<string, Sig>, kinds: Kinds, last: Kinds)
    requires Below(kinds, last) && known <= Known(last, given) && Before(WalkedFrom(b, known, given, sigs, kinds), last)
    requires Annotated(b, given) && Wholes(last) !! given.Keys
    ensures Truthful(b, Known(last, given), Wholes(last), sigs)
    decreases BlockSize(b), 1
  {
    hide WalkedStmt, Before, Below, Known, TruthfulStmt, AnnotatedStmt, Wholes;
    if b != [] {
      var next := WalkedStmt(b[0], known, given, sigs, kinds);
      WalkGrows(b[1..], known, given, sigs, next);
      BeforeTrans(next, WalkedFrom(b[1..], known, given, sigs, next), last);
      StmtTold(b[0], known, given, sigs, kinds, last);
      StmtGrows(b[0], known, given, sigs, kinds);
      BelowLater(kinds, next, last);
      WalkTold(b[1..], known, given, sigs, next, last);
    }
  }

  /** All annotations of a body are among the given ones. */
  predicate Annotated(b: Block, given: Given)
    decreases BlockSize(b), 1
  {
    b == [] || (AnnotatedStmt(b[0], given) && Annotated(b[1..], given))
  }

  predicate AnnotatedStmt(s: Stmt, given: Given)
    decreases StmtSize(s), 0
  {
    match s.kind
    case AnnAssign(x, _, _) => x in given
    case For(_, _, _, _, body, _) => Annotated(body, given)
    case ForEach(_, _, body) => Annotated(body, given)
    case While(_, body) => Annotated(body, given)
    case If(_, body, elifs, orelse) => Annotated(body, given) && AnnotatedArms(elifs, given) && Annotated(ElseOf(orelse), given)
    case _ => true
  }

  predicate AnnotatedArms(elifs: seq<Arm>, given: Given)
    decreases ArmsSize(elifs), 1
  {
    elifs == [] || (Annotated(elifs[0].body, given) && AnnotatedArms(elifs[1..], given))
  }

  lemma {:induction false} BodyTold(b: Block, given: Given, sigs: map<string, Sig>, kinds: Kinds, last: Kinds)
    requires Below(kinds, last) && Before(Walked(b, given, sigs, kinds), last)
    requires Annotated(b, given) && Wholes(last) !! given.Keys
    ensures Truthful(b, Known(last, given), Wholes(last), sigs) && Below(Walked(b, given, sigs, kinds), last)
    decreases BlockSize(b), 2
  {
    hide WalkedFrom, Before, Below, Known, Truthful, Annotated, Wholes;
    BelowKnown(kinds, last, given);
    WalkTold(b, Known(kinds, given), given, sigs, kinds, last);
    WalkGrows(b, Known(kinds, given), given, sigs, kinds);
    BelowLater(kinds, Walked(b, given, sigs, kinds), last);
  }

  lemma {:induction false} StmtTold(s: Stmt, known: set<string>, given: Given, sigs: map<string, Sig>, kinds: Kinds, last: Kinds)
    requires Below(kinds, last) && known <= Known(last, given) && Before(WalkedStmt(s, known, given, sigs, kinds), last)
    requires AnnotatedStmt(s, given) && Wholes(last) !! given.Keys
    ensures TruthfulStmt(s, Known(last, given), Wholes(last), sigs)
    decreases StmtSize(s), 0
  {
    hide Walked, Before, Below, Joined, InferInt, Known, WalkedArms, Truthful, TruthfulArms, Annotated, AnnotatedArms, Wholes;
    var ints := Known(last, given);
    match s.kind
    case Assign(x, e) =>
      if x in Wholes(last) {
        JoinTold(kinds, x, InferInt(e, known, sigs), given, last);
        InferMore(e, known, ints, sigs);
      }
    case For(x, _, _, _, body, _) => LoopTold(x, true, body, given, sigs, kinds, last);
    case ForEach(x, _, body) =>
      LoopTold(x, false, body, given, sigs, kinds, last);
      if x in Wholes(last) { JoinTold(kinds, x, false, given, last); }
    case While(_, body) => BodyTold(body, given, sigs, kinds, last);
    case If(_, body, elifs, orelse) =>
      var k1 := Walked(body, given, sigs, kinds);
      var k2 := WalkedArms(elifs, given, sigs, k1);
      BodyGrows(ElseOf(orelse), given, sigs, k2, k2) by { BeforeSelf(k2); }
      BeforeTrans(k2, Walked(ElseOf(orelse), given, sigs, k2), last);
      ArmsGrow(elifs, given, sigs, k1);
      BeforeTrans(k1, k2, last);
      BodyTold(body, given, sigs, kinds, last);
      ArmsTold(elifs, given, sigs, k1, last);
      BodyTold(ElseOf(orelse), given, sigs, k2, last);
    case _ =>
  }

  lemma {:induction false} LoopTold(x: string, whole: bool, body: Block, given: Given, sigs: map<string, Sig>, kinds: Kinds, last: Kinds)
    requires Below(kinds, last) && Before(Walked(body, given, sigs, Joined(kinds, x, whole, given)), last)
    requires Annotated(body, given) && Wholes(last) !! given.Keys
    ensures Truthful(body, Known(last, given), Wholes(last), sigs) && Before(Joined(kinds, x, whole, given), last)
    decreases BlockSize(body), 3
  {
    hide Walked, Before, Below, Joined, Known, Truthful, Annotated, Wholes;
    var next := Joined(kinds, x, whole, given);
    BeforeSelf(next);
    BodyGrows(body, given, sigs, next, next);
    BeforeTrans(next, Walked(body, given, sigs, next), last);
    JoinRest(kinds, x, whole, given, last);
    BodyTold(body, given, sigs, next, last);
  }

  lemma {:induction false} ArmsTold(elifs: seq<Arm>, given: Given, sigs: map<string, Sig>, kinds: Kinds, last: Kinds)
    requires Below(kinds, last) && Before(WalkedArms(elifs, given, sigs, kinds), last)
    requires AnnotatedArms(elifs, given) && Wholes(last) !! given.Keys
    ensures TruthfulArms(elifs, Known(last, given), Wholes(last), sigs) && Below(WalkedArms(elifs, given, sigs, kinds), last)
    decreases ArmsSize(elifs), 3
  {
    hide Walked, Before, Below, Known, Truthful, Annotated, Wholes;
    if elifs != [] {
      var next := Walked(elifs[0].body, given, sigs, kinds);
      ArmsGrow(elifs[1..], given, sigs, next);
      BeforeTrans(next, WalkedArms(elifs[1..], given, sigs, next), last);
      BodyTold(elifs[0].body, given, sigs, kinds, last);
      ArmsTold(elifs[1..], given, sigs, next, last);
    }
  }

  /** And the other way round: what is true already, another walk does not change. */
  lemma {:induction false} TruthStays(b: Block, given: Given, sigs: map<string, Sig>, kinds: Kinds)
    requires Truthful(b, Known(kinds, given), Wholes(kinds), sigs) && Assigned(b) <= kinds.Keys + given.Keys
    ensures Walked(b, given, sigs, kinds) == kinds
    decreases BlockSize(b), 2
  {
    hide TruthfulStmt, AssignedBy, WalkedStmt, Known, Wholes;
    if b != [] {
      StmtStays(b[0], given, sigs, kinds);
      TruthStays(b[1..], given, sigs, kinds);
    }
  }

  lemma JoinStays(kinds: Kinds, x: string, whole: bool, given: Given)
    requires x in kinds.Keys + given.Keys && (x in Wholes(kinds) ==> whole)
    ensures Joined(kinds, x, whole, given) == kinds
  {
    if x in kinds && kinds[x] == Mixed { assert kinds[x := Mixed] == kinds; }
  }

  lemma {:induction false} StmtStays(s: Stmt, given: Given, sigs: map<string, Sig>, kinds: Kinds)
    requires TruthfulStmt(s, Known(kinds, given), Wholes(kinds), sigs) && AssignedBy(s) <= kinds.Keys + given.Keys
    ensures WalkedStmt(s, Known(kinds, given), given, sigs, kinds) == kinds
    decreases StmtSize(s), 0
  {
    hide Walked, WalkedArms, Truthful, TruthfulArms, Assigned, AssignedInArms, Known, InferInt, Joined;
    match s.kind
    case Assign(x, e) => JoinStays(kinds, x, InferInt(e, Known(kinds, given), sigs), given);
    case For(x, _, _, _, body, _) =>
      JoinStays(kinds, x, true, given);
      TruthStays(body, given, sigs, kinds);
    case ForEach(x, _, body) =>
      JoinStays(kinds, x, false, given);
      TruthStays(body, given, sigs, kinds);
    case While(_, body) => TruthStays(body, given, sigs, kinds);
    case If(_, body, elifs, orelse) =>
      TruthStays(body, given, sigs, kinds);
      ArmsStay(elifs, given, sigs, kinds);
      TruthStays(ElseOf(orelse), given, sigs, kinds);
    case _ =>
  }

  lemma {:induction false} ArmsStay(elifs: seq<Arm>, given: Given, sigs: map<string, Sig>, kinds: Kinds)
    requires TruthfulArms(elifs, Known(kinds, given), Wholes(kinds), sigs) && AssignedInArms(elifs) <= kinds.Keys + given.Keys
    ensures WalkedArms(elifs, given, sigs, kinds) == kinds
    decreases ArmsSize(elifs), 3
  {
    hide Walked, Truthful, Assigned, Known, Wholes;
    if elifs != [] {
      TruthStays(elifs[0].body, given, sigs, kinds);
      ArmsStay(elifs[1..], given, sigs, kinds);
    }
  }

  // ------------------------------------------------------ names and annotations

  /** A walk speaks of every name the body assigns, and of no given one. */
  lemma {:induction false} WalkCovers(b: Block, known: set<string>, given: Given, sigs: map<string, Sig>, kinds: Kinds)
    requires Annotated(b, given) && kinds.Keys !! given.Keys
    ensures var all := WalkedFrom(b, known, given, sigs, kinds).Keys;
      all == kinds.Keys + (Assigned(b) - given.Keys)
    decreases BlockSize(b), 1
  {
    hide WalkedStmt, AnnotatedStmt, AssignedBy;
    if b != [] {
      StmtCovers(b[0], known, given, sigs, kinds);
      WalkCovers(b[1..], known, given, sigs, WalkedStmt(b[0], known, given, sigs, kinds));
    }
  }

  lemma JoinCovers(kinds: Kinds, x: string, whole: bool, given: Given)
    requires kinds.Keys !! given.Keys
    ensures Joined(kinds, x, whole, given).Keys == kinds.Keys + ({x} - given.Keys)
  {
  }

  lemma {:induction false} StmtCovers(s: Stmt, known: set<string>, given: Given, sigs: map<string, Sig>, kinds: Kinds)
    requires AnnotatedStmt(s, given) && kinds.Keys !! given.Keys
    ensures WalkedStmt(s, known, given, sigs, kinds).Keys == kinds.Keys + (AssignedBy(s) - given.Keys)
    decreases StmtSize(s), 0
  {
    hide Walked, WalkedArms, Annotated, AnnotatedArms, Assigned, AssignedInArms, Known, InferInt, Joined;
    match s.kind
    case Assign(x, e) => JoinCovers(kinds, x, InferInt(e, known, sigs), given);
    case For(x, _, _, _, body, _) =>
      JoinCovers(kinds, x, true, given);
      BodyCovers(body, given, sigs, Joined(kinds, x, true, given));
    case ForEach(x, _, body) =>
      JoinCovers(kinds, x, false, given);
      BodyCovers(body, given, sigs, Joined(kinds, x, false, given));
    case While(_, body) => BodyCovers(body, given, sigs, kinds);
    case If(_, body, elifs, orelse) => IfCovers(body, elifs, ElseOf(orelse), given, sigs, kinds);
    case _ =>
  }

  lemma {:induction false} IfCovers(body: Block, elifs: seq<Arm>, orelse: Block, given: Given, sigs: map<string, Sig>, kinds: Kinds)
    requires Annotated(body, given) && AnnotatedArms(elifs, given) && Annotated(orelse, given) && kinds.Keys !! given.Keys
    ensures Walked(orelse, given, sigs, WalkedArms(elifs, given, sigs, Walked(body, given, sigs, kinds))).Keys
         == kinds.Keys + ((Assigned(body) + AssignedInArms(elifs) + Assigned(orelse)) - given.Keys)
    decreases BlockSize(body) + ArmsSize(elifs) + BlockSize(orelse), 4
  {
    hide Walked, WalkedArms, Annotated, AnnotatedArms, Assigned, AssignedInArms;
    BodyCovers(body, given, sigs, kinds);
    ArmsCover(elifs, given, sigs, Walked(body, given, sigs, kinds));
    BodyCovers(orelse, given, sigs, WalkedArms(elifs, given, sigs, Walked(body, given, sigs, kinds)));
  }

  lemma {:induction false} BodyCovers(b: Block, given: Given, sigs: map<string, Sig>, kinds: Kinds)
    requires Annotated(b, given) && kinds.Keys !! given.Keys
    ensures Walked(b, given, sigs, kinds).Keys == kinds.Keys + (Assigned(b) - given.Keys)
    decreases BlockSize(b), 2
  {
    WalkCovers(b, Known(kinds, given), given, sigs, kinds);
  }

  lemma {:induction false} ArmsCover(elifs: seq<Arm>, given: Given, sigs: map<string, Sig>, kinds: Kinds)
    requires AnnotatedArms(elifs, given) && kinds.Keys !! given.Keys
    ensures WalkedArms(elifs, given, sigs, kinds).Keys == kinds.Keys + (AssignedInArms(elifs) - given.Keys)
    decreases ArmsSize(elifs), 3
  {
    hide Walked, Annotated, Assigned;
    if elifs != [] {
      BodyCovers(elifs[0].body, given, sigs, kinds);
      ArmsCover(elifs[1..], given, sigs, Walked(elifs[0].body, given, sigs, kinds));
    }
  }

  /** Gathering the annotations gathers them all. */
  lemma {:induction false} DeclaredAll(b: Block, given: Given)
    ensures given.Keys <= Declared(b, given).Keys && forall more: Given :: Declared(b, given).Keys <= more.Keys ==> Annotated(b, more)
    decreases BlockSize(b), 1
  {
    hide DeclaredBy, AnnotatedStmt;
    if b != [] {
      StmtDeclared(b[0], given);
      DeclaredAll(b[1..], DeclaredBy(b[0], given));
    }
  }

  lemma {:induction false} StmtDeclared(s: Stmt, given: Given)
    ensures given.Keys <= DeclaredBy(s, given).Keys && forall more: Given :: DeclaredBy(s, given).Keys <= more.Keys ==> AnnotatedStmt(s, more)
    decreases StmtSize(s), 0
  {
    hide Declared, DeclaredInArms, Annotated, AnnotatedArms;
    match s.kind
    case For(_, _, _, _, body, _) => DeclaredAll(body, given);
    case ForEach(_, _, body) => DeclaredAll(body, given);
    case While(_, body) => DeclaredAll(body, given);
    case If(_, body, elifs, orelse) =>
      DeclaredAll(body, given);
      ArmsDeclared(elifs, Declared(body, given));
      DeclaredAll(ElseOf(orelse), DeclaredInArms(elifs, Declared(body, given)));
    case _ =>
  }

  lemma {:induction false} ArmsDeclared(elifs: seq<Arm>, given: Given)
    ensures given.Keys <= DeclaredInArms(elifs, given).Keys
    ensures forall more: Given :: DeclaredInArms(elifs, given).Keys <= more.Keys ==> AnnotatedArms(elifs, more)
    decreases ArmsSize(elifs), 2
  {
    hide Declared, Annotated;
    if elifs != [] {
      DeclaredAll(elifs[0].body, given);
      ArmsDeclared(elifs[1..], Declared(elifs[0].body, given));
    }
  }

  /** And no others. */
  lemma {:induction false} DeclaredWithin(b: Block, given: Given)
    ensures Declared(b, given).Keys <= given.Keys + Assigned(b)
    decreases BlockSize(b), 1
  {
    hide DeclaredBy, AssignedBy;
    if b != [] {
      StmtWithin(b[0], given);
      DeclaredWithin(b[1..], DeclaredBy(b[0], given));
    }
  }

  lemma {:induction false} StmtWithin(s: Stmt, given: Given)
    ensures DeclaredBy(s, given).Keys <= given.Keys + AssignedBy(s)
    decreases StmtSize(s), 0
  {
    hide Declared, DeclaredInArms, Assigned, AssignedInArms;
    match s.kind
    case For(_, _, _, _, body, _) => DeclaredWithin(body, given);
    case ForEach(_, _, body) => DeclaredWithin(body, given);
    case While(_, body) => DeclaredWithin(body, given);
    case If(_, body, elifs, orelse) =>
      DeclaredWithin(body, given);
      ArmsWithin(elifs, Declared(body, given));
      DeclaredWithin(ElseOf(orelse), DeclaredInArms(elifs, Declared(body, given)));
    case _ =>
  }

  lemma {:induction false} ArmsWithin(elifs: seq<Arm>, given: Given)
    ensures DeclaredInArms(elifs, given).Keys <= given.Keys + AssignedInArms(elifs)
    decreases ArmsSize(elifs), 2
  {
    hide Declared, Assigned;
    if elifs != [] {
      DeclaredWithin(elifs[0].body, given);
      ArmsWithin(elifs[1..], Declared(elifs[0].body, given));
    }
  }

  /** Names taken to be whole are given or assigned. */
  lemma IntsWithin(b: Block, given: Given, sigs: map<string, Sig>)
    ensures Ints(b, given, sigs) <= given.Keys + Assigned(b)
  {
    hide Declared, Rounds, Annotated, Assigned, Walked;
    DeclaredAll(b, given);
    DeclaredWithin(b, given);
    WithinRounds(b, Declared(b, given), sigs, map[], ROUNDS);
  }

  lemma {:induction false} WithinRounds(b: Block, given: Given, sigs: map<string, Sig>, kinds: Kinds, n: nat)
    requires Annotated(b, given) && kinds.Keys !! given.Keys && kinds.Keys <= Assigned(b)
    ensures Rounds(b, given, sigs, kinds, n).Keys <= Assigned(b)
    decreases n
  {
    hide Walked, Annotated, Assigned;
    BodyCovers(b, given, sigs, kinds);
    if n > 0 && Walked(b, given, sigs, kinds) != kinds { WithinRounds(b, given, sigs, Walked(b, given, sigs, kinds), n - 1); }
  }

  // --------------------------------------------------------------- the results

  /** The rounds came to rest. */
  predicate Settled(b: Block, given: Given, sigs: map<string, Sig>) {
    Walked(b, Declared(b, given), sigs, Final(b, given, sigs)) == Final(b, given, sigs)
  }

  lemma {:induction false} RoundsCover(b: Block, given: Given, sigs: map<string, Sig>, kinds: Kinds, n: nat)
    requires Annotated(b, given) && kinds.Keys !! given.Keys
    ensures var last := Rounds(b, given, sigs, kinds, n);
      last.Keys !! given.Keys && (n > 0 ==> Assigned(b) <= last.Keys + given.Keys)
      && (kinds.Keys == Assigned(b) - given.Keys ==> last.Keys == kinds.Keys) && last.Keys <= kinds.Keys + Assigned(b)
    decreases n
  {
    hide Walked, Annotated, Assigned;
    BodyCovers(b, given, sigs, kinds);
    if n > 0 && Walked(b, given, sigs, kinds) != kinds { RoundsCover(b, given, sigs, Walked(b, given, sigs, kinds), n - 1); }
  }

  /** The verdict is true of every binding in the body exactly when the rounds came to rest. */
  lemma SettledExactly(b: Block, given: Given, sigs: map<string, Sig>)
    ensures Settled(b, given, sigs) <==> Truthful(b, Ints(b, given, sigs), Inferred(b, given, sigs), sigs)
    ensures Inferred(b, given, sigs) <= Ints(b, given, sigs) && Inferred(b, given, sigs) !! Declared(b, given).Keys
    ensures Inferred(b, given, sigs) <= Assigned(b)
  {
    hide Walked, Declared, Truthful, Rounds, Annotated, Assigned;
    var all, last := Declared(b, given), Final(b, given, sigs);
    DeclaredAll(b, given);
    RoundsCover(b, all, sigs, map[], ROUNDS);
    if Settled(b, given, sigs) {
      BeforeSelf(last);
      BodyTold(b, all, sigs, last, last);
    }
    if Truthful(b, Known(last, all), Wholes(last), sigs) { TruthStays(b, all, sigs, last); }
  }

  /** A walk that changes something has turned a whole name into a mixed one. */
  lemma FewerWhole(a: Kinds, b: Kinds)
    requires Before(a, b) && a.Keys == b.Keys && a != b
    ensures |Wholes(b)| < |Wholes(a)|
  {
    assert Wholes(b) <= Wholes(a);
    var x :| x in a && a[x] != b[x];
    assert x in Wholes(a) && x !in Wholes(b);
    Smaller(Wholes(b), Wholes(a), x);
  }

  lemma Smaller(s: set<string>, t: set<string>, x: string)
    requires s <= t && x in t && x !in s
    ensures |s| < |t|
  {
    Fewer(s, t - {x});
  }

  lemma {:induction false} Fewer(s: set<string>, t: set<string>)
    requires s <= t
    ensures |s| <= |t|
    decreases |s|
  {
    if x :| x in s { Fewer(s - {x}, t - {x}); }
  }

  lemma {:induction false} RoundsSettle(b: Block, given: Given, sigs: map<string, Sig>, kinds: Kinds, n: nat)
    requires Annotated(b, given) && kinds.Keys !! given.Keys && kinds.Keys == Assigned(b) - given.Keys && |Wholes(kinds)| <= n
    ensures var last := Rounds(b, given, sigs, kinds, n); Walked(b, given, sigs, last) == last
    decreases n
  {
    hide Walked, Annotated, Assigned, Wholes, Before;
    var next := Walked(b, given, sigs, kinds);
    BodyCovers(b, given, sigs, kinds);
    BodyGrows(b, given, sigs, kinds, kinds) by { BeforeSelf(kinds); }
    if next != kinds {
      FewerWhole(kinds, next);
      RoundsSettle(b, given, sigs, next, n - 1);
    }
  }

  /** If the first walk finds whole numbers only, so does the second. */
  lemma FirstWalkAllWhole(b: Block, given: Given, sigs: map<string, Sig>)
    requires Annotated(b, given) && Wholes(Walked(b, given, sigs, map[])) == Walked(b, given, sigs, map[]).Keys
    ensures var first := Walked(b, given, sigs, map[]); Walked(b, given, sigs, first) == first
  {
    hide Walked, Annotated, Assigned, Truthful;
    var first := Walked(b, given, sigs, map[]);
    BodyCovers(b, given, sigs, map[]);
    BeforeSelf(first);
    forall x | x in first ensures first[x] == Whole { assert x in Wholes(first); }
    BodyTold(b, given, sigs, map[], first);
    TruthStays(b, given, sigs, first);
  }

  lemma AtRest(b: Block, given: Given, sigs: map<string, Sig>, kinds: Kinds, n: nat)
    ensures Walked(b, given, sigs, kinds) == kinds ==> Rounds(b, given, sigs, kinds, n) == kinds
    ensures n > 0 ==> Rounds(b, given, sigs, kinds, n) == Rounds(b, given, sigs, Walked(b, given, sigs, kinds), n - 1)
  {
    hide Walked;
  }

  /** Eight rounds are enough for a body that assigns eight names or fewer. */
  lemma EightNamesSettle(b: Block, given: Given, sigs: map<string, Sig>)
    requires |Assigned(b)| <= 8
    ensures Settled(b, given, sigs)
  {
    hide Walked, Declared, Annotated, Assigned, Rounds, Wholes;
    var all := Declared(b, given);
    DeclaredAll(b, given);
    var first := Walked(b, all, sigs, map[]);
    BodyCovers(b, all, sigs, map[]);
    SomeMixed(first, Assigned(b));
    AtRest(b, all, sigs, map[], ROUNDS);
    AtRest(b, all, sigs, first, 7);
    if Wholes(first) == first.Keys { FirstWalkAllWhole(b, all, sigs); } else { RoundsSettle(b, all, sigs, first, 7); }
  }

  lemma SomeMixed(kinds: Kinds, names: set<string>)
    requires kinds.Keys <= names && |names| <= 8
    ensures Wholes(kinds) != kinds.Keys ==> |Wholes(kinds)| <= 7
  {
    if Wholes(kinds) != kinds.Keys {
      var x :| x in kinds.Keys && x !in Wholes(kinds);
      Fewer(kinds.Keys, names);
      Smaller(Wholes(kinds), kinds.Keys, x);
    }
  }
}
