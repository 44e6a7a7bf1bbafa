/** Where the search for whole-number names (src/repr.rs) stops too early: each round passes
    a correction on by one name only, and there are eight rounds. */
module InferenceLimits {
  import opened Syntax
  import opened Values
  import opened SlotChoice
  import opened PythonSemantics
  import opened SlotInference

  // ------------------------------------------------------------- the program

  function N(k: nat): (s: string)
    ensures |s| == k + 1
  {
    seq(k + 1, i => 'x')
  }

  function Names(n: nat): set<string> { set j: nat | j < n :: N(j) }

  function Set(x: string, k: ExprKind): Stmt { AsStmt(Assign(x, AsExpr(k))) }

  /** Names `j` to `n - 1` set to zero. */
  function Inits(j: nat, n: nat): Block
    decreases n - j
  {
    if j >= n then [] else [Set(N(j), Int(0))] + Inits(j + 1, n)
  }

  /** Each name from the `j`-th on copied from the one before. */
  function Copies(j: nat, n: nat): Block
    requires j > 0
    decreases n - j
  {
    if j >= n then [] else [Set(N(j), Name(N(j - 1)))] + Copies(j + 1, n)
  }

  function Branch(n: nat): Block { [Set(N(0), Bool(true))] + Copies(1, n) }

  function Guarded(n: nat): Stmt { AsStmt(If(AsExpr(Bool(true)), Branch(n), [], NoElse)) }

  function PrintOf(x: string): Stmt { AsStmt(ExprStmt(AsExpr(Call("print", [AsExpr(Name(x))])))) }

  function Tail(n: nat): Block
    requires n > 0
  {
    [Guarded(n)] + [PrintOf(N(n - 1))]
  }

  /** `n` names set to zero; then, in a branch, the first one to `True` and the others to
      the one before; then the last one printed. */
  function Relay(n: nat): Block
    requires n > 0
  {
    Inits(0, n) + Tail(n)
  }

  // -------------------------------------------------------------- the rounds

  /** What is found after `k` rounds: the first `k` names mixed, the rest whole. */
  function Found(k: nat, n: nat): Kinds {
    map x | x in Names(n) :: if |x| <= k then Mixed else Whole
  }

  lemma NameIn(j: nat, n: nat)
    ensures N(j) in Names(n) <==> j < n
  {
    if N(j) in Names(n) {
      var i: nat :| i < n && N(i) == N(j);
      assert |N(i)| == |N(j)|;
    }
  }

  lemma NameOf(x: string, n: nat)
    requires x in Names(n)
    ensures 1 <= |x| <= n && x == N(|x| - 1)
  {
    var i: nat :| i < n && N(i) == x;
    assert |x| == i + 1;
  }

  lemma {:induction false} WalkSum(a: Block, b: Block, known: set<string>, given: Given, sigs: map<string, Sig>, kinds: Kinds)
    ensures WalkedFrom(a + b, known, given, sigs, kinds) == WalkedFrom(b, known, given, sigs, WalkedFrom(a, known, given, sigs, kinds))
    decreases |a|
  {
    hide WalkedStmt;
    if a == [] {
      assert a + b == b;
    } else {
      assert (a + b)[0] == a[0] && (a + b)[1..] == a[1..] + b;
      WalkSum(a[1..], b, known, given, sigs, WalkedStmt(a[0], known, given, sigs, kinds));
    }
  }

  lemma {:induction false} InitsFirst(j: nat, n: nat, known: set<string>)
    requires j <= n
    ensures WalkedFrom(Inits(j, n), known, map[], map[], Found(0, j)) == Found(0, n)
    decreases n - j
  {
    if j < n {
      NameIn(j, j);
      assert Names(j + 1) == Names(j) + {N(j)};
      assert Joined(Found(0, j), N(j), true, map[]) == Found(0, j + 1);
      Headed(Set(N(j), Int(0)), Inits(j + 1, n), known, Found(0, j));
      InitsFirst(j + 1, n, known);
    }
  }

  lemma Headed(s: Stmt, rest: Block, known: set<string>, kinds: Kinds)
    ensures WalkedFrom([s] + rest, known, map[], map[], kinds) == WalkedFrom(rest, known, map[], map[], WalkedStmt(s, known, map[], map[], kinds))
  {
    assert ([s] + rest)[0] == s && ([s] + rest)[1..] == rest;
  }

  lemma JoinFound(k: nat, j: nat, n: nat, whole: bool)
    requires j < n
    ensures Joined(Found(k, n), N(j), whole, map[]) == if whole
      || j < k then Found(k, n) else if j == k then Found(k + 1, n) else Found(k, n)[N(j) := Mixed]
  {
    NameIn(j, n);
    assert Found(k, n)[N(j)] == if j < k then Mixed else Whole;
    if j < k { assert Found(k, n)[N(j) := Mixed] == Found(k, n); }
    if j == k && !whole {
      forall x | x in Names(n) ensures Found(k, n)[N(j) := Mixed][x] == Found(k + 1, n)[x] {
        NameOf(x, n);
      }
      assert Found(k, n)[N(j) := Mixed] == Found(k + 1, n);
    }
  }

  lemma {:induction false} InitsAgain(j: nat, n: nat, known: set<string>, k: nat)
    requires j <= n
    ensures WalkedFrom(Inits(j, n), known, map[], map[], Found(k, n)) == Found(k, n)
    decreases n - j
  {
    if j < n {
      JoinFound(k, j, n, true);
      Headed(Set(N(j), Int(0)), Inits(j + 1, n), known, Found(k, n));
      InitsAgain(j + 1, n, known, k);
    }
  }

  /** A round corrects the name after the last one it finds mixed. */
  lemma {:induction false} CopiesWalk(j: nat, n: nat, k: nat)
    requires 0 < j <= n && k < n
    ensures WalkedFrom(Copies(j, n), Known(Found(k, n), map[]), map[], map[], if j <= k then Found(k, n) else Found(k + 1, n)) == Found(k + 1, n)
    decreases n - j
  {
    if j < n {
      var known := Known(Found(k, n), map[]);
      NameIn(j - 1, n);
      assert N(j - 1) in known <==> j - 1 >= k;
      JoinFound(k, j, n, j - 1 >= k);
      JoinFound(k + 1, j, n, j - 1 >= k);
      Headed(Set(N(j), Name(N(j - 1))), Copies(j + 1, n), known, if j <= k then Found(k, n) else Found(k + 1, n));
      CopiesWalk(j + 1, n, k);
    }
  }

  lemma BranchWalk(n: nat, k: nat)
    requires k < n
    ensures Walked(Branch(n), map[], map[], Found(k, n)) == Found(k + 1, n)
  {
    hide WalkedFrom, Found, Known;
    JoinFound(k, 0, n, false);
    Headed(Set(N(0), Bool(true)), Copies(1, n), Known(Found(k, n), map[]), Found(k, n));
    CopiesWalk(1, n, k);
  }

  lemma TailWalk(n: nat, k: nat, known: set<string>)
    requires k < n
    ensures WalkedFrom(Tail(n), known, map[], map[], Found(k, n)) == Found(k + 1, n)
  {
    hide Found, Walked, WalkedFrom, Branch;
    BranchWalk(n, k);
    EmptyWalk(Found(k + 1, n));
    assert WalkedStmt(Guarded(n), known, map[], map[], Found(k, n)) == Found(k + 1, n);
    var last := PrintOf(N(n - 1));
    Headed(Guarded(n), [last], known, Found(k, n));
    Headed(last, [], known, Found(k + 1, n));
    assert [last] + [] == [last];
    assert WalkedFrom([], known, map[], map[], Found(k + 1, n)) == Found(k + 1, n) by { NoWalk(known, Found(k + 1, n)); }
  }

  lemma NoWalk(known: set<string>, kinds: Kinds)
    ensures WalkedFrom([], known, map[], map[], kinds) == kinds
  {
  }

  lemma EmptyWalk(kinds: Kinds)
    ensures Walked([], map[], map[], kinds) == kinds
  {
  }

  lemma RelayWalk(n: nat, k: nat)
    requires 0 < k < n
    ensures Walked(Relay(n), map[], map[], Found(k, n)) == Found(k + 1, n) && Found(k + 1, n) != Found(k, n)
  {
    hide WalkedFrom, Known;
    var known := Known(Found(k, n), map[]);
    WalkSum(Inits(0, n), Tail(n), known, map[], map[], Found(k, n));
    InitsAgain(0, n, known, k);
    TailWalk(n, k, known);
    NameIn(k, n);
    assert Found(k, n)[N(k)] == Whole && Found(k + 1, n)[N(k)] == Mixed;
  }

  lemma FirstWalk(n: nat)
    requires n > 0
    ensures Walked(Relay(n), map[], map[], map[]) == Found(1, n) && Found(1, n) != map[]
  {
    hide WalkedFrom, Known;
    var known := Known(map[], map[]);
    assert Found(0, 0) == map[];
    WalkSum(Inits(0, n), Tail(n), known, map[], map[], map[]);
    InitsFirst(0, n, known);
    TailWalk(n, 0, known);
    NameIn(0, n);
    assert N(0) in Found(1, n);
  }

  lemma {:induction false} RelayRounds(n: nat, k: nat, m: nat)
    requires 0 < k && k + m <= n
    ensures Rounds(Relay(n), map[], map[], Found(k, n), m) == Found(k + m, n)
    decreases m
  {
    hide Walked, Found;
    if m > 0 {
      RelayWalk(n, k);
      RelayRounds(n, k + 1, m - 1);
    }
  }

  lemma {:induction false} NothingDeclared(b: Block)
    requires forall s :: s in b ==> s.kind.Assign?
    ensures Declared(b, map[]) == map[]
    decreases |b|
  {
    if b != [] { NothingDeclared(b[1..]); }
  }

  lemma {:induction false} CopiesAssign(j: nat, n: nat)
    requires 0 < j
    ensures forall s :: s in Copies(j, n) ==> s.kind.Assign?
    decreases n - j
  {
    if j < n { CopiesAssign(j + 1, n); }
  }

  lemma {:induction false} RelayDeclares(j: nat, n: nat)
    requires n > 0
    ensures Declared(Inits(j, n) + Tail(n), map[]) == map[]
    decreases n - j
  {
    var b := Inits(j, n) + Tail(n);
    if j < n {
      assert b[0] == Set(N(j), Int(0)) && b[1..] == Inits(j + 1, n) + Tail(n);
      RelayDeclares(j + 1, n);
    } else {
      CopiesAssign(1, n);
      NothingDeclared(Branch(n));
      assert Declared([], map[]) == map[] && DeclaredInArms([], map[]) == map[];
      assert DeclaredBy(Guarded(n), map[]) == map[] && DeclaredBy(PrintOf(N(n - 1)), map[]) == map[];
      assert b == [Guarded(n), PrintOf(N(n - 1))] && b[1..] == [PrintOf(N(n - 1))] && b[1..][1..] == [];
    }
  }

  /** With nine names or more the verdict calls the ninth, and those after it, whole numbers,
      although it calls the one they are copied from mixed; another round would not. */
  lemma StopsTooEarly(n: nat)
    requires n > 8
    ensures Inferred(Relay(n), map[], map[]) == (set j: nat | 8 <= j < n :: N(j)) && !Settled(Relay(n), map[], map[])
  {
    hide Walked, Rounds;
    var b := Relay(n);
    RelayDeclares(0, n);
    FirstWalk(n);
    AtRest(b, map[], map[], map[], ROUNDS);
    RelayRounds(n, 1, 7);
    assert Final(b, map[], map[]) == Found(8, n);
    RelayWalk(n, 8);
    forall x ensures x in Wholes(Found(8, n)) <==> x in (set j: nat | 8 <= j < n :: N(j)) {
      if x in Wholes(Found(8, n)) { NameOf(x, n); }
      if j: nat :| 8 <= j < n && x == N(j) { NameIn(j, n); }
    }
  }

  // ------------------------------------------------------- straight-line code

  /** No branch and no loop. */
  predicate Straight(b: Block) { forall s :: s in b ==> !s.kind.If? && !s.kind.While? && !s.kind.For? && !s.kind.ForEach? }

  /** Every binding of `x` is a whole number by the names known from the start. */
  predicate AllWhole(b: Block, x: string, known: set<string>, sigs: map<string, Sig>) {
    forall s :: s in b && s.kind.Assign? && s.kind.target == x ==> InferInt(s.kind.value, known, sigs)
  }

  lemma {:induction false} StraightWalk(b: Block, known: set<string>, given: Given, sigs: map<string, Sig>, kinds: Kinds, x: string)
    requires Straight(b) && Annotated(b, given) && x !in given
    ensures x in Wholes(WalkedFrom(b, known, given, sigs, kinds))
      <==> AllWhole(b, x, known, sigs) && (if x in kinds then x in Wholes(kinds) else x in Assigned(b))
    decreases |b|
  {
    hide InferInt;
    if b != [] {
      var s := b[0];
      assert s in b && forall t :: t in b <==> t == s || t in b[1..];
      StraightWalk(b[1..], known, given, sigs, WalkedStmt(s, known, given, sigs, kinds), x);
    }
  }

  lemma {:induction false} StraightTruth(b: Block, known: set<string>, ints: set<string>, wholes: set<string>, given: Given, sigs: map<string, Sig>)
    requires Straight(b) && Annotated(b, given) && wholes !! given.Keys && known <= ints
    requires forall x :: x in wholes ==> AllWhole(b, x, known, sigs)
    ensures Truthful(b, ints, wholes, sigs)
    decreases |b|
  {
    hide InferInt;
    if b != [] {
      var s := b[0];
      assert s in b && forall t :: t in b <==> t == s || t in b[1..];
      if s.kind.Assign? && s.kind.target in wholes { InferMore(s.kind.value, known, ints, sigs); }
      StraightTruth(b[1..], known, ints, wholes, given, sigs);
    }
  }

  /** Of straight-line code exactly those names are found whole of which every binding is a
      whole number by what is given or annotated alone: no binding helps another. */
  lemma StraightExactly(b: Block, given: Given, sigs: map<string, Sig>, x: string)
    requires Straight(b)
    ensures var all := Declared(b, given);
      x in Inferred(b, given, sigs) <==> x in Assigned(b) && x !in all && AllWhole(b, x, Known(map[], all), sigs)
    ensures Settled(b, given, sigs)
  {
    hide Declared, Rounds, Annotated, Assigned, WalkedFrom, Truthful, AllWhole, Straight;
    var all := Declared(b, given);
    var known, first := Known(map[], all), Walked(b, all, sigs, map[]);
    DeclaredAll(b, given);
    BodyCovers(b, all, sigs, map[]);
    forall y | y in Wholes(first) ensures AllWhole(b, y, known, sigs) { StraightWalk(b, known, all, sigs, map[], y); }
    StraightTruth(b, known, Known(first, all), Wholes(first), all, sigs);
    TruthStays(b, all, sigs, first);
    AtRest(b, all, sigs, map[], ROUNDS);
    AtRest(b, all, sigs, first, 7);
    assert Final(b, given, sigs) == first;
    if x !in all { StraightWalk(b, known, all, sigs, map[], x); }
  }

  /** `t = 0; t = t + 1`, the inference's own example, is not found to be a whole number. */
  lemma StraightLineForgets()
    ensures Inferred([Set("t", Int(0)), Set("t", Bin(Add, AsExpr(Name("t")), AsExpr(Int(1))))], map[], map[]) == {}
  {
    var b := [Set("t", Int(0)), Set("t", Bin(Add, AsExpr(Name("t")), AsExpr(Int(1))))];
    assert b[1..][1..] == [] && Declared(b, map[]) == map[];
    assert Assigned([]) == {} && Assigned(b[1..]) == {"t"} && Assigned(b) == {"t"};
    assert b[1] in b && !InferInt(b[1].kind.value, {}, map[]);
    assert !AllWhole(b, "t", Known(map[], map[]), map[]);
    hide Inferred;
    forall x ensures x !in Inferred(b, map[], map[]) { StraightExactly(b, map[], map[], x); }
  }

  // ---------------------------------------------------------------- the run

  /** The slots that follow from the verdict for nine names. */
  predicate NineNames(env: Env) { !env.top && env.vars == Names(9) && env.typed == {N(8)} }

  /** What the `j`-th name is copied as. */
  function Copied(j: nat, how: How): Value { if how.Compiled? && j >= 8 then VInt(1) else VBool(true) }

  lemma AssignRuns(j: nat, e: Expr, v: Value, w: World, o: Oracle, r: Rules, fuel: nat)
    requires NineNames(r.env) && !r.how.Watched? && forall raw :: Eval(e, w, o, r.At(raw)) == Ok(v, w)
    requires r.how.Compiled? && j == 8 ==> Unboxed(v).Num?
    ensures ExecStmt(AsStmt(Assign(N(j), e)), w, o, r, fuel) == Next(Bind(w, N(j), if r.how.Compiled? && j == 8 then VInt(Unboxed(v).n) else v))
  {
    hide Eval;
    assert N(j) == N(8) ==> j == 8 by { if N(j) == N(8) { assert |N(j)| == |N(8)|; } }
    assert Eval(e, w, o, r.At(N(j) in r.env.typed && Scalar(e, r.env))) == Ok(v, w);
  }

  lemma {:induction false} InitsRun(j: nat, rest: Block, w: World, o: Oracle, r: Rules, fuel: nat)
    requires NineNames(r.env) && !r.how.Watched? && j <= 9
    ensures exists u: World :: u.out == w.out && u.heap == w.heap && ExecBlock(Inits(j, 9) + rest, w, o, r, fuel) == ExecBlock(rest, u, o, r, fuel)
    decreases 9 - j
  {
    if j < 9 {
      hide ExecStmt;
      var s := Set(N(j), Int(0));
      assert (Inits(j, 9) + rest)[0] == s && (Inits(j, 9) + rest)[1..] == Inits(j + 1, 9) + rest;
      AssignRuns(j, AsExpr(Int(0)), VInt(0), w, o, r, fuel);
      InitsRun(j + 1, rest, Bind(w, N(j), VInt(0)), o, r, fuel);
    } else {
      assert Inits(j, 9) + rest == rest;
    }
  }

  lemma {:induction false} CopiesRun(j: nat, w: World, o: Oracle, r: Rules, fuel: nat)
    requires NineNames(r.env) && !r.how.Watched? && 0 < j <= 9 && N(j - 1) in w.vars && w.vars[N(j - 1)] == Copied(j - 1, r.how)
    ensures var y := ExecBlock(Copies(j, 9), w, o, r, fuel);
      y.Next? && y.world.out == w.out && y.world.heap == w.heap && N(8) in y.world.vars && y.world.vars[N(8)] == Copied(8, r.how)
    decreases 9 - j
  {
    if j < 9 {
      var e, v := AsExpr(Name(N(j - 1))), Copied(j - 1, r.how);
      assert Copies(j, 9)[0] == Set(N(j), Name(N(j - 1))) && Copies(j, 9)[1..] == Copies(j + 1, 9);
      NameIn(j - 1, 9);
      forall raw ensures Eval(e, w, o, r.At(raw)) == Ok(v, w) {}
      AssignRuns(j, e, v, w, o, r, fuel);
      CopiesRun(j + 1, Bind(w, N(j), Copied(j, r.how)), o, r, fuel);
    }
  }

  lemma BranchRuns(w: World, o: Oracle, r: Rules, fuel: nat)
    requires NineNames(r.env) && !r.how.Watched?
    ensures var y := ExecBlock(Branch(9), w, o, r, fuel);
      y.Next? && y.world.out == w.out && y.world.heap == w.heap && N(8) in y.world.vars && y.world.vars[N(8)] == Copied(8, r.how)
  {
    hide ExecStmt;
    assert Branch(9)[0] == Set(N(0), Bool(true)) && Branch(9)[1..] == Copies(1, 9);
    forall raw ensures Eval(AsExpr(Bool(true)), w, o, r.At(raw)) == Ok(VBool(true), w) {}
    AssignRuns(0, AsExpr(Bool(true)), VBool(true), w, o, r, fuel);
    CopiesRun(1, Bind(w, N(0), VBool(true)), o, r, fuel);
  }

  /** Python prints `True`; the compiled code, which keeps the ninth name raw, prints `1`. */
  lemma EightRoundsTooFew(env: Env, w: World, o: Oracle, fuel: nat)
    requires NineNames(env)
    ensures Inferred(Relay(9), map[], map[]) == {N(8)}
    ensures Prints(ExecBlock(Relay(9), w, o, Rules(Python, env, false), fuel), w, VBool(true))
    ensures Prints(ExecBlock(Relay(9), w, o, Rules(Compiled, env, false), fuel), w, VInt(1))
  {
    hide ExecBlock, Inferred, Settled, Relay;
    StopsTooEarly(9);
    forall j: nat | 8 <= j < 9 ensures N(j) == N(8) {}
    assert (set j: nat | 8 <= j < 9 :: N(j)) == {N(8)} by { assert N(8) in (set j: nat | 8 <= j < 9 :: N(j)); }
    RelayRuns(w, o, Rules(Python, env, false), fuel);
    RelayRuns(w, o, Rules(Compiled, env, false), fuel);
  }

  predicate Prints(y: Outcome, w: World, v: Value) { y.Next? && y.world.out == w.out + [Shown(v, w.heap), Newline] }

  lemma RelayRuns(w: World, o: Oracle, r: Rules, fuel: nat)
    requires NineNames(r.env) && !r.how.Watched?
    ensures Prints(ExecBlock(Relay(9), w, o, r, fuel), w, Copied(8, r.how))
  {
    hide ExecBlock, Inits, Tail, NineNames;
    InitsRun(0, Tail(9), w, o, r, fuel);
    var u: World :| u.out == w.out && u.heap == w.heap && ExecBlock(Inits(0, 9) + Tail(9), w, o, r, fuel) == ExecBlock(Tail(9), u, o, r, fuel);
    TailRuns(u, o, r, fuel);
    var a, b, c := w.out, Shown(Copied(8, r.how), w.heap), Newline;
    assert (a + [b]) + [c] == a + [b, c];
  }

  lemma TailRuns(w: World, o: Oracle, r: Rules, fuel: nat)
    requires NineNames(r.env) && !r.how.Watched?
    ensures var y := ExecBlock(Tail(9), w, o, r, fuel); y.Next? && y.world.out == (w.out + [Shown(Copied(8, r.how), w.heap)]) + [Newline]
  {
    hide Branch, ExecStmt;
    BranchRuns(w, o, r, fuel);
    var v := ExecBlock(Branch(9), w, o, r, fuel).world;
    GuardedRuns(w, o, r, fuel);
    LastPrinted(v, o, r, fuel);
    var b := Tail(9);
    assert b[0] == Guarded(9) && b[1..] == [PrintOf(N(8))] && b[1..][0] == PrintOf(N(8)) && b[1..][1..] == [];
    var y := ExecStmt(PrintOf(N(8)), v, o, r, fuel);
    assert ExecBlock(b[1..][1..], y.world, o, r, fuel) == y;
    assert ExecBlock(b[1..], v, o, r, fuel) == y;
  }

  lemma GuardedRuns(w: World, o: Oracle, r: Rules, fuel: nat)
    ensures ExecStmt(Guarded(9), w, o, r, fuel) == ExecBlock(Branch(9), w, o, r, fuel)
  {
    assert Test(AsExpr(Bool(true)), w, o, r) == Holds(true, w);
  }

  lemma LastPrinted(w: World, o: Oracle, r: Rules, fuel: nat)
    requires NineNames(r.env) && !r.how.Watched? && N(8) in w.vars && w.vars[N(8)] == Copied(8, r.how)
    ensures var y := ExecStmt(PrintOf(N(8)), w, o, r, fuel); y.Next? && y.world.out == (w.out + [Shown(Copied(8, r.how), w.heap)]) + [Newline]
  {
    var e, v := AsExpr(Name(N(8))), Copied(8, r.how);
    NameIn(8, 9);
    assert Eval(e, w, o, r.At(false)) == Ok(v, w);
    assert [e][1..] == [];
    var u := w.(out := w.out + [Shown(v, w.heap)]);
    assert Printed(v, w) == Ok(VNone, u);
    assert PrintEach([e], w, o, r) == PrintEach([], u, o, r);
    assert EvalAll([e], [], "print", w, o, r) == Oks([v], w) by { assert EvalAll([], [], "print", w, o, r) == Oks([], w); assert Slot(e,
      false, "print", w, o, r) == Ok(v, w); }
    assert [v][1..] == [];
    assert PrintValues([v], w) == PrintValues([], u);
  }
}
