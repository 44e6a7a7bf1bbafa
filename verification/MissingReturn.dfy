/** The "total function" rule (src/check.rs) and what it is for: if any path of a function
    gives back a value, every run that ends must. */
module MissingReturn {
  import opened Syntax
  import opened Values
  import opened PythonSemantics

  // ------------------------------------------------------- the two searches

  function BlocksSize(bs: seq<Block>): nat {
    if bs == [] then 0 else BlockSize(bs[0]) + BlocksSize(bs[1..])
  }

  function ArmBodies(elifs: seq<Arm>): (bs: seq<Block>)
    ensures BlocksSize(bs) <= ArmsSize(elifs)
  {
    if elifs == [] then []
    else
      var bs := [elifs[0].body] + ArmBodies(elifs[1..]);
      assert bs[1..] == ArmBodies(elifs[1..]);
      bs
  }

  lemma {:induction false} SizeOfSum(a: seq<Block>, b: seq<Block>)
    ensures BlocksSize(a + b) == BlocksSize(a) + BlocksSize(b)
  {
    if a == [] {
      assert a + b == b;
    } else {
      assert (a + b)[1..] == a[1..] + b;
      SizeOfSum(a[1..], b);
    }
  }

  /** Every block directly inside a statement, nested functions included. */
  function ChildBlocks(s: Stmt): (bs: seq<Block>)
    ensures BlocksSize(bs) < StmtSize(s)
  {
    match s.kind
    case If(_, body, elifs, orelse) =>
      var last := if orelse.Else? then [orelse.block] else [];
      SizeOfSum([body], ArmBodies(elifs));
      SizeOfSum([body] + ArmBodies(elifs), last);
      assert [body][1..] == [] && (last != [] ==> last[1..] == []);
      [body] + ArmBodies(elifs) + last
    case For(_, _, _, _, body, _) => [body]
    case ForEach(_, _, body) => [body]
    case While(_, body) => [body]
    case Def(_, _, body) => [body]
    case _ => []
  }

  predicate IsReturn(s: Stmt, valued: bool) { s.kind.Return? && s.kind.result.Some? == valued }

  /** The line of the first `return` with (or without) a value, in document order. */
  function FirstReturn(b: Block, valued: bool): Option<nat>
    decreases BlockSize(b), 1
  {
    if b == [] then None
    else if IsReturn(b[0], valued) then Some(b[0].line)
    else
      var found := FirstIn(ChildBlocks(b[0]), valued);
      if found.Some? then found else FirstReturn(b[1..], valued)
  }

  function FirstIn(bs: seq<Block>, valued: bool): Option<nat>
    decreases BlocksSize(bs), 2, |bs|
  {
    if bs == [] then None
    else
      var found := FirstReturn(bs[0], valued);
      if found.Some? then found else FirstIn(bs[1..], valued)
  }

  lemma SizeOfTail(b: Block, i: nat)
    requires i < |b|
    ensures BlockSize(b[i..]) == StmtSize(b[i]) + BlockSize(b[i + 1..])
    ensures b[i..][0] == b[i] && b[i..][1..] == b[i + 1..]
  {
  }

  lemma SizeOfDrop(bs: seq<Block>, i: nat)
    requires i < |bs|
    ensures BlocksSize(bs[i..]) == BlockSize(bs[i]) + BlocksSize(bs[i + 1..])
    ensures bs[i..][0] == bs[i] && bs[i..][1..] == bs[i + 1..]
  {
  }

  method FirstValueReturn(b: Block) returns (line: Option<nat>)
    ensures line == FirstReturn(b, true)
    decreases BlockSize(b)
  {
    var i := 0;
    assert b[0..] == b;
    while i < |b|
      invariant 0 <= i <= |b| && BlockSize(b[i..]) <= BlockSize(b)
      invariant FirstReturn(b, true) == FirstReturn(b[i..], true)
    {
      SizeOfTail(b, i);
      if IsReturn(b[i], true) { return Some(b[i].line); }
      var found: Option<nat> := None;
      var blocks := ChildBlocks(b[i]);
      var k := 0;
      assert blocks[0..] == blocks;
      while k < |blocks|
        invariant 0 <= k <= |blocks| && BlocksSize(blocks[k..]) <= BlocksSize(blocks)
        invariant FirstIn(blocks, true) == if found.Some? then found else FirstIn(blocks[k..], true)
      {
        SizeOfDrop(blocks, k);
        if found.None? { found := FirstValueReturn(blocks[k]); }
        k := k + 1;
      }
      if found.Some? { return found; }
      i := i + 1;
    }
    line := None;
  }

  method FirstBareReturn(b: Block) returns (line: Option<nat>)
    ensures line == FirstReturn(b, false)
    decreases BlockSize(b)
  {
    var i := 0;
    assert b[0..] == b;
    while i < |b|
      invariant 0 <= i <= |b| && BlockSize(b[i..]) <= BlockSize(b)
      invariant FirstReturn(b, false) == FirstReturn(b[i..], false)
    {
      SizeOfTail(b, i);
      if IsReturn(b[i], false) { return Some(b[i].line); }
      var found: Option<nat> := None;
      var blocks := ChildBlocks(b[i]);
      var k := 0;
      assert blocks[0..] == blocks;
      while k < |blocks|
        invariant 0 <= k <= |blocks| && BlocksSize(blocks[k..]) <= BlocksSize(blocks)
        invariant FirstIn(blocks, false) == if found.Some? then found else FirstIn(blocks[k..], false)
      {
        SizeOfDrop(blocks, k);
        if found.None? { found := FirstBareReturn(blocks[k]); }
        k := k + 1;
      }
      if found.Some? { return found; }
      i := i + 1;
    }
    line := None;
  }

  // ------------------------------------------------------- falling off the end

  /** A `break` that would leave the loop around these statements. */
  predicate HasOwnBreak(b: Block)
    decreases BlockSize(b), 1
  {
    b != [] && (BreaksHere(b[0]) || HasOwnBreak(b[1..]))
  }

  predicate BreaksHere(s: Stmt)
    decreases StmtSize(s), 0
  {
    match s.kind
    case Break => true
    case If(_, body, elifs, orelse) => HasOwnBreak(body) || ArmsBreak(elifs) || (orelse.Else? && HasOwnBreak(orelse.block))
    case _ => false
  }

  predicate ArmsBreak(elifs: seq<Arm>)
    decreases ArmsSize(elifs), 1
  {
    elifs != [] && (HasOwnBreak(elifs[0].body) || ArmsBreak(elifs[1..]))
  }

  /** `while True` with no `break` of its own. */
  predicate Diverges(s: Stmt) {
    s.kind.While? && s.kind.cond.kind == Bool(true) && !HasOwnBreak(s.kind.body)
  }

  predicate AnyDiverges(b: Block) { b != [] && (Diverges(b[0]) || AnyDiverges(b[1..])) }

  lemma {:induction false} SizeOfLast(b: Block)
    requires b != []
    ensures StmtSize(b[|b| - 1]) <= BlockSize(b)
    decreases |b|
  {
    if |b| > 1 {
      assert b[1..][|b| - 2] == b[|b| - 1];
      SizeOfLast(b[1..]);
    }
  }

  predicate FallsOff(b: Block)
    decreases BlockSize(b), 1
  {
    if AnyDiverges(b) then false
    else if b == [] then true
    else
      SizeOfLast(b);
      match b[|b| - 1].kind
      case Return(_) => false
      case If(_, body, elifs, orelse) =>
        orelse.NoElse? || FallsOff(body) || ArmsFallOff(elifs) || FallsOff(orelse.block)
      case _ => true
  }

  predicate ArmsFallOff(elifs: seq<Arm>)
    decreases ArmsSize(elifs), 1
  {
    elifs != [] && (FallsOff(elifs[0].body) || ArmsFallOff(elifs[1..]))
  }

  /** The precondition of a raw result (src/codegen.rs): every path that ends, ends in
      `return <expr>`. */
  predicate AllPathsReturn(b: Block)
    decreases BlockSize(b), 1
  {
    b != [] &&
    (SizeOfLast(b);
     match b[|b| - 1].kind
     case Return(v) => v.Some?
     case If(_, body, elifs, orelse) =>
       AllPathsReturn(body) && ArmsReturn(elifs) && orelse.Else? && AllPathsReturn(orelse.block)
     case _ => false)
  }

  predicate ArmsReturn(elifs: seq<Arm>)
    decreases ArmsSize(elifs), 1
  {
    elifs == [] || (AllPathsReturn(elifs[0].body) && ArmsReturn(elifs[1..]))
  }

  /** The rule's verdict: a value is given back somewhere, and somewhere not. */
  predicate Owes(b: Block) {
    FirstReturn(b, true).Some? && (FallsOff(b) || FirstReturn(b, false).Some?)
  }

  datatype Finding = Finding(line: nat, span: Span, code: string, name: string, valueLine: nat, bareLine: Option<nat>)

  const MISSING_RETURN := "type.missing-return"

  class Checker {
    var out: seq<Finding>

    constructor ()
      ensures out == []
    {
      out := [];
    }

    method TotalFunction(name: string, line: nat, span: Span, body: Block)
      modifies this
      ensures !Owes(body) ==> out == old(out)
      ensures Owes(body) ==>
        out == old(out) + [Finding(line, span, MISSING_RETURN, name, FirstReturn(body, true).value, FirstReturn(body, false))]
    {
      var valueLine := FirstValueReturn(body);
      if valueLine.None? { return; }
      var bare := FirstBareReturn(body);
      if !FallsOff(body) && bare.None? { return; }
      out := out + [Finding(line, span, MISSING_RETURN, name, valueLine.value, bare)];
    }
  }

  // ------------------------------------------------------- no return, no result

  /** A run does not return with (`valued`) or without a value. */
  predicate Spares(y: Outcome, valued: bool) { y.Returned? ==> y.result.Some? != valued }

  lemma {:induction false} NoSuchReturn(b: Block, valued: bool, w: World, o: Oracle, r: Rules, fuel: nat)
    requires FirstReturn(b, valued).None?
    ensures Spares(ExecBlock(b, w, o, r, fuel), valued)
    decreases fuel, BlockSize(b), 1
  {
    if b != [] {
      NoReturnStmt(b[0], valued, w, o, r, fuel);
      var y := ExecStmt(b[0], w, o, r, fuel);
      if y.Next? { NoSuchReturn(b[1..], valued, y.world, o, r, fuel); }
    }
  }

  lemma {:induction false} NoneIn(bs: seq<Block>, valued: bool, k: nat)
    requires FirstIn(bs, valued).None? && k < |bs|
    ensures FirstReturn(bs[k], valued).None?
    decreases k
  {
    if k > 0 { NoneIn(bs[1..], valued, k - 1); }
  }

  lemma {:induction false} ArmBodiesAt(elifs: seq<Arm>, k: nat)
    requires k < |elifs|
    ensures |ArmBodies(elifs)| == |elifs| && ArmBodies(elifs)[k] == elifs[k].body
    decreases k
  {
    if k > 0 { ArmBodiesAt(elifs[1..], k - 1); } else { ArmBodiesCount(elifs); }
  }

  lemma {:induction false} ArmBodiesCount(elifs: seq<Arm>)
    ensures |ArmBodies(elifs)| == |elifs|
    decreases |elifs|
  {
    if elifs != [] { ArmBodiesCount(elifs[1..]); }
  }

  lemma NoneInIf(s: Stmt, valued: bool)
    requires s.kind.If? && FirstIn(ChildBlocks(s), valued).None?
    ensures FirstReturn(s.kind.body, valued).None? && FirstReturn(ElseOf(s.kind.orelse), valued).None?
    ensures forall k :: 0 <= k < |s.kind.elifs| ==> FirstReturn(s.kind.elifs[k].body, valued).None?
  {
    assert FirstReturn([], valued).None?;
    hide FirstReturn, FirstIn;
    var bs, arms := ChildBlocks(s), ArmBodies(s.kind.elifs);
    ArmBodiesCount(s.kind.elifs);
    NoneIn(bs, valued, 0);
    forall k | 0 <= k < |s.kind.elifs| ensures FirstReturn(s.kind.elifs[k].body, valued).None? {
      ArmBodiesAt(s.kind.elifs, k);
      assert bs[k + 1] == arms[k];
      NoneIn(bs, valued, k + 1);
    }
    if s.kind.orelse.Else? {
      assert bs[|bs| - 1] == s.kind.orelse.block;
      NoneIn(bs, valued, |bs| - 1);
    }
  }

  lemma {:induction false} NoReturnStmt(s: Stmt, valued: bool, w: World, o: Oracle, r: Rules, fuel: nat)
    requires !IsReturn(s, valued) && FirstIn(ChildBlocks(s), valued).None?
    ensures Spares(ExecStmt(s, w, o, r, fuel), valued)
    decreases fuel, StmtSize(s), 0
  {
    hide Eval, Test, Range, FirstReturn, FirstIn, ExecExpr;
    match s.kind
    case If(c, body, elifs, orelse) =>
      NoneInIf(s, valued);
      var t := Test(c, w, o, r);
      if t.Holds? {
        if t.b {
          NoSuchReturn(body, valued, t.world, o, r, fuel);
        } else {
          NoReturnElse(elifs, ElseOf(orelse), valued, t.world, o, r, fuel);
        }
      }
    case While(c, body) =>
      NoneIn([body], valued, 0);
      NoReturnWhile(c, body, valued, w, o, r, fuel);
    case For(x, start, end, step, body, _) =>
      NoneIn([body], valued, 0);
      var bounds := Range(start, end, step, w, o, r);
      if bounds.From? { NoReturnRange(x, bounds.first, bounds.end, bounds.step, body, valued, bounds.world, o, r, fuel); }
    case ForEach(x, iterable, body) =>
      NoneIn([body], valued, 0);
      var v := Eval(iterable, w, o, r.At(false));
      if v.Ok? && v.value.VList? { NoReturnEach(x, v.value.at, 0, body, valued, v.world, o, r, fuel); }
    case _ =>
  }

  lemma {:induction false} NoReturnElse(elifs: seq<Arm>, orelse: Block, valued: bool, w: World, o: Oracle, r: Rules, fuel: nat)
    requires FirstReturn(orelse, valued).None?
    requires forall k :: 0 <= k < |elifs| ==> FirstReturn(elifs[k].body, valued).None?
    ensures Spares(ExecElse(elifs, orelse, w, o, r, fuel), valued)
    decreases fuel, ArmsSize(elifs) + BlockSize(orelse), 2
  {
    hide Eval, Test, FirstReturn, ExecBlock;
    if elifs == [] {
      NoSuchReturn(orelse, valued, w, o, r, fuel);
    } else {
      var t := Test(elifs[0].cond, w, o, r);
      if t.Holds? {
        NoSuchReturn(elifs[0].body, valued, t.world, o, r, fuel);
        NoReturnElse(elifs[1..], orelse, valued, t.world, o, r, fuel);
      }
    }
  }

  lemma {:induction false} NoReturnWhile(c: Expr, body: Block, valued: bool, w: World, o: Oracle, r: Rules, fuel: nat)
    requires FirstReturn(body, valued).None?
    ensures Spares(ExecWhile(c, body, w, o, r, fuel), valued)
    decreases fuel, BlockSize(body), 2
  {
    hide Eval, Test, FirstReturn, ExecBlock;
    var t := Test(c, w, o, r);
    if t.Holds? {
      NoSuchReturn(body, valued, t.world, o, r, fuel);
      var p := PassOf(ExecBlock(body, t.world, o, r, fuel));
      if p.Again? && fuel > 0 { NoReturnWhile(c, body, valued, p.world, o, r, fuel - 1); }
    }
  }

  lemma {:induction false} NoReturnRange(x: string, c: int, end: int, step: int, body: Block, valued: bool, w: World, o: Oracle, r: Rules, fuel: nat)
    requires FirstReturn(body, valued).None?
    ensures Spares(ExecRange(x, c, end, step, body, w, o, r, fuel), valued)
    decreases fuel, BlockSize(body), 2
  {
    hide FirstReturn, ExecBlock;
    var u := Bind(w, x, VInt(c));
    NoSuchReturn(body, valued, u, o, r, fuel);
    var p := PassOf(ExecBlock(body, u, o, r, fuel));
    if p.Again? && fuel > 0 && Stepped(c, step, r).Num? { NoReturnRange(x, Stepped(c, step, r).n, end, step, body, valued, p.world, o, r, fuel - 1); }
  }

  lemma {:induction false} NoReturnEach(x: string, at: nat, i: nat, body: Block, valued: bool, w: World, o: Oracle, r: Rules, fuel: nat)
    requires FirstReturn(body, valued).None?
    ensures Spares(ExecEach(x, at, i, body, w, o, r, fuel), valued)
    decreases fuel, BlockSize(body), 2
  {
    hide FirstReturn, ExecBlock;
    if i < |Items(w.heap, at)| && Bound(x, Items(w.heap, at)[i], w, r).Ok? {
      var u := Bind(w, x, Bound(x, Items(w.heap, at)[i], w, r).value);
      NoSuchReturn(body, valued, u, o, r, fuel);
      var p := PassOf(ExecBlock(body, u, o, r, fuel));
      if p.Again? && fuel > 0 { NoReturnEach(x, at, i + 1, body, valued, p.world, o, r, fuel - 1); }
    }
  }

  // ------------------------------------------------------- breaks stay inside

  /** Only a `break` of this block, outside its inner loops, can break out of it. */
  lemma {:induction false} OwnBreakOnly(b: Block, w: World, o: Oracle, r: Rules, fuel: nat)
    requires !HasOwnBreak(b)
    ensures !ExecBlock(b, w, o, r, fuel).Broke?
    decreases fuel, BlockSize(b), 1
  {
    if b != [] {
      OwnBreakStmt(b[0], w, o, r, fuel);
      var y := ExecStmt(b[0], w, o, r, fuel);
      if y.Next? { OwnBreakOnly(b[1..], y.world, o, r, fuel); }
    }
  }

  lemma {:induction false} OwnBreakStmt(s: Stmt, w: World, o: Oracle, r: Rules, fuel: nat)
    requires !BreaksHere(s)
    ensures !ExecStmt(s, w, o, r, fuel).Broke?
    decreases fuel, StmtSize(s), 0
  {
    assert !HasOwnBreak([]);
    hide Eval, Test, Range, ExecExpr, HasOwnBreak, ArmsBreak;
    match s.kind
    case If(c, body, elifs, orelse) =>
      var t := Test(c, w, o, r);
      if t.Holds? {
        OwnBreakOnly(body, t.world, o, r, fuel);
        OwnBreakElse(elifs, ElseOf(orelse), t.world, o, r, fuel);
      }
    case While(c, body) => LoopNeverBreaks(s, w, o, r, fuel);
    case For(x, start, end, step, body, _) => LoopNeverBreaks(s, w, o, r, fuel);
    case ForEach(x, iterable, body) => LoopNeverBreaks(s, w, o, r, fuel);
    case _ =>
  }

  lemma {:induction false} OwnBreakElse(elifs: seq<Arm>, orelse: Block, w: World, o: Oracle, r: Rules, fuel: nat)
    requires !ArmsBreak(elifs) && !HasOwnBreak(orelse)
    ensures !ExecElse(elifs, orelse, w, o, r, fuel).Broke?
    decreases fuel, ArmsSize(elifs) + BlockSize(orelse), 2
  {
    hide Eval, Test, HasOwnBreak;
    if elifs == [] {
      OwnBreakOnly(orelse, w, o, r, fuel);
    } else {
      var t := Test(elifs[0].cond, w, o, r);
      if t.Holds? {
        OwnBreakOnly(elifs[0].body, t.world, o, r, fuel);
        OwnBreakElse(elifs[1..], orelse, t.world, o, r, fuel);
      }
    }
  }

  /** A loop consumes every `break` and `continue` of its body. */
  lemma LoopNeverBreaks(s: Stmt, w: World, o: Oracle, r: Rules, fuel: nat)
    requires s.kind.While? || s.kind.For? || s.kind.ForEach?
    ensures !ExecStmt(s, w, o, r, fuel).Broke? && !ExecStmt(s, w, o, r, fuel).Continued?
  {
    hide Eval, Test, Range;
    match s.kind
    case While(c, body) => WhileNeverBreaks(c, body, w, o, r, fuel);
    case For(x, start, end, step, body, _) =>
      var bounds := Range(start, end, step, w, o, r);
      if bounds.From? { RangeNeverBreaks(x, bounds.first, bounds.end, bounds.step, body, bounds.world, o, r, fuel); }
    case ForEach(x, iterable, body) =>
      var v := Eval(iterable, w, o, r.At(false));
      if v.Ok? && v.value.VList? { EachNeverBreaks(x, v.value.at, 0, body, v.world, o, r, fuel); }
  }

  lemma {:induction false} WhileNeverBreaks(c: Expr, body: Block, w: World, o: Oracle, r: Rules, fuel: nat)
    ensures !ExecWhile(c, body, w, o, r, fuel).Broke? && !ExecWhile(c, body, w, o, r, fuel).Continued?
    decreases fuel
  {
    hide Test, ExecBlock;
    var t := Test(c, w, o, r);
    if t.Holds? {
      var p := PassOf(ExecBlock(body, t.world, o, r, fuel));
      if p.Again? && fuel > 0 { WhileNeverBreaks(c, body, p.world, o, r, fuel - 1); }
    }
  }

  lemma {:induction false} RangeNeverBreaks(x: string, c: int, end: int, step: int, body: Block, w: World, o: Oracle, r: Rules, fuel: nat)
    ensures !ExecRange(x, c, end, step, body, w, o, r, fuel).Broke? && !ExecRange(x, c, end, step, body, w, o, r, fuel).Continued?
    decreases fuel
  {
    hide ExecBlock;
    var p := PassOf(ExecBlock(body, Bind(w, x, VInt(c)), o, r, fuel));
    if p.Again? && fuel > 0 && Stepped(c, step, r).Num? { RangeNeverBreaks(x, Stepped(c, step, r).n, end, step, body, p.world, o, r, fuel - 1); }
  }

  lemma {:induction false} EachNeverBreaks(x: string, at: nat, i: nat, body: Block, w: World, o: Oracle, r: Rules, fuel: nat)
    ensures !ExecEach(x, at, i, body, w, o, r, fuel).Broke? && !ExecEach(x, at, i, body, w, o, r, fuel).Continued?
    decreases fuel
  {
    hide ExecBlock;
    if i < |Items(w.heap, at)| && Bound(x, Items(w.heap, at)[i], w, r).Ok? {
      var p := PassOf(ExecBlock(body, Bind(w, x, Bound(x, Items(w.heap, at)[i], w, r).value), o, r, fuel));
      if p.Again? && fuel > 0 { EachNeverBreaks(x, at, i + 1, body, p.world, o, r, fuel - 1); }
    }
  }

  /** With every jump inside a loop, a body never ends in a `break` or `continue`. */
  lemma {:induction false} JumpsCaught(b: Block, w: World, o: Oracle, r: Rules, fuel: nat)
    requires JumpsBound(b, false)
    ensures !ExecBlock(b, w, o, r, fuel).Broke? && !ExecBlock(b, w, o, r, fuel).Continued?
    decreases BlockSize(b), 1
  {
    if b != [] {
      JumpsCaughtStmt(b[0], w, o, r, fuel);
      var y := ExecStmt(b[0], w, o, r, fuel);
      if y.Next? { JumpsCaught(b[1..], y.world, o, r, fuel); }
    }
  }

  lemma {:induction false} JumpsCaughtStmt(s: Stmt, w: World, o: Oracle, r: Rules, fuel: nat)
    requires StmtJumpsBound(s, false)
    ensures !ExecStmt(s, w, o, r, fuel).Broke? && !ExecStmt(s, w, o, r, fuel).Continued?
    decreases StmtSize(s), 0
  {
    hide Eval, Test, Range, ExecExpr, JumpsBound, ArmsJumpsBound;
    match s.kind
    case If(c, body, elifs, orelse) =>
      var t := Test(c, w, o, r);
      if t.Holds? {
        JumpsCaught(body, t.world, o, r, fuel);
        JumpsCaughtElse(elifs, ElseOf(orelse), t.world, o, r, fuel);
      }
    case While(c, body) => LoopNeverBreaks(s, w, o, r, fuel);
    case For(x, start, end, step, body, _) => LoopNeverBreaks(s, w, o, r, fuel);
    case ForEach(x, iterable, body) => LoopNeverBreaks(s, w, o, r, fuel);
    case _ =>
  }

  lemma {:induction false} JumpsCaughtElse(elifs: seq<Arm>, orelse: Block, w: World, o: Oracle, r: Rules, fuel: nat)
    requires ArmsJumpsBound(elifs, false) && JumpsBound(orelse, false)
    ensures !ExecElse(elifs, orelse, w, o, r, fuel).Broke? && !ExecElse(elifs, orelse, w, o, r, fuel).Continued?
    decreases ArmsSize(elifs) + BlockSize(orelse), 2
  {
    hide Eval, Test, JumpsBound;
    if elifs == [] {
      JumpsCaught(orelse, w, o, r, fuel);
    } else {
      var t := Test(elifs[0].cond, w, o, r);
      if t.Holds? {
        JumpsCaught(elifs[0].body, t.world, o, r, fuel);
        JumpsCaughtElse(elifs[1..], orelse, t.world, o, r, fuel);
      }
    }
  }

  // ------------------------------------------------------- falling off is exact enough

  lemma TrueHolds(c: Expr, w: World, o: Oracle, r: Rules)
    requires c.kind == Bool(true)
    ensures Test(c, w, o, r) == Holds(true, w)
  {
  }

  lemma {:induction false} EndlessLoop(c: Expr, body: Block, w: World, o: Oracle, r: Rules, fuel: nat)
    requires c.kind == Bool(true) && !HasOwnBreak(body)
    ensures !ExecWhile(c, body, w, o, r, fuel).Next?
    decreases fuel
  {
    hide ExecBlock, HasOwnBreak, Eval;
    TrueHolds(c, w, o, r);
    OwnBreakOnly(body, w, o, r, fuel);
    var p := PassOf(ExecBlock(body, w, o, r, fuel));
    if p.Again? && fuel > 0 { EndlessLoop(c, body, p.world, o, r, fuel - 1); }
  }

  /** Control never passes the end of statements the rule says cannot fall off. */
  lemma {:induction false} NeverFallsOff(b: Block, w: World, o: Oracle, r: Rules, fuel: nat)
    requires !FallsOff(b)
    ensures !ExecBlock(b, w, o, r, fuel).Next?
    decreases BlockSize(b), 1, |b|
  {
    if b != [] {
      var y := ExecStmt(b[0], w, o, r, fuel);
      if Diverges(b[0]) {
        EndlessLoop(b[0].kind.cond, b[0].kind.body, w, o, r, fuel);
      } else if |b| == 1 {
        assert b == [b[0]];
        LastNeverFalls(b[0], w, o, r, fuel);
      } else if y.Next? {
        TailFalls(b);
        NeverFallsOff(b[1..], y.world, o, r, fuel);
      }
    }
  }

  lemma TailFalls(b: Block)
    requires |b| > 1 && !Diverges(b[0])
    ensures FallsOff(b[1..]) == FallsOff(b)
  {
    hide Diverges, ArmsFallOff;
    assert b[1..][|b| - 2] == b[|b| - 1];
  }

  lemma FallsOffOne(s: Stmt)
    requires !Diverges(s) && !FallsOff([s])
    ensures s.kind.Return? || s.kind.If?
    ensures s.kind.If? ==>
      && s.kind.orelse.Else? && !FallsOff(s.kind.body)
      && !ArmsFallOff(s.kind.elifs) && !FallsOff(s.kind.orelse.block)
  {
    hide Diverges, ArmsFallOff;
    var b := [s];
    assert b[1..] == [];
    assert !AnyDiverges(b);
    assert b[|b| - 1] == s;
  }

  lemma {:induction false} LastNeverFalls(s: Stmt, w: World, o: Oracle, r: Rules, fuel: nat)
    requires !FallsOff([s]) && !Diverges(s)
    ensures !ExecStmt(s, w, o, r, fuel).Next?
    decreases StmtSize(s), 0
  {
    hide Eval, Test, Range, Diverges, ExecExpr, FallsOff;
    FallsOffOne(s);
    if s.kind.If? {
      assert ElseOf(s.kind.orelse) == s.kind.orelse.block;
      var t := Test(s.kind.cond, w, o, r);
      if t.Holds? {
        NeverFallsOff(s.kind.body, t.world, o, r, fuel);
        ArmsNeverFall(s.kind.elifs, ElseOf(s.kind.orelse), t.world, o, r, fuel);
      }
    }
  }

  lemma {:induction false} ArmsNeverFall(elifs: seq<Arm>, orelse: Block, w: World, o: Oracle, r: Rules, fuel: nat)
    requires !ArmsFallOff(elifs) && !FallsOff(orelse)
    ensures !ExecElse(elifs, orelse, w, o, r, fuel).Next?
    decreases ArmsSize(elifs) + BlockSize(orelse), 2
  {
    hide Eval, Test, FallsOff;
    if elifs == [] {
      NeverFallsOff(orelse, w, o, r, fuel);
    } else {
      var t := Test(elifs[0].cond, w, o, r);
      if t.Holds? {
        NeverFallsOff(elifs[0].body, t.world, o, r, fuel);
        ArmsNeverFall(elifs[1..], orelse, t.world, o, r, fuel);
      }
    }
  }

  // ------------------------------------------------------- the results

  /** Silence is sound: either no run gives back a value, or every run that ends does. */
  lemma TotalOrProcedure(body: Block)
    requires JumpsBound(body, false) && !Owes(body)
    ensures || (forall w, o, r, fuel :: Spares(ExecBlock(body, w, o, r, fuel), true))
            || (forall w, o, r, fuel :: var y := ExecBlock(body, w, o, r, fuel);
                  y.Stopped? || y.Timeout? || (y.Returned? && y.result.Some?))
  {
    hide ExecBlock, FallsOff, FirstReturn, JumpsBound;
    if FirstReturn(body, true).None? {
      forall w, o, r, fuel ensures Spares(ExecBlock(body, w, o, r, fuel), true) { NoSuchReturn(body, true, w, o, r, fuel); }
    } else {
      forall w, o, r, fuel ensures var y := ExecBlock(body, w, o, r, fuel);
        y.Stopped? || y.Timeout? || (y.Returned? && y.result.Some?)
      {
        NoSuchReturn(body, false, w, o, r, fuel);
        NeverFallsOff(body, w, o, r, fuel);
        JumpsCaught(body, w, o, r, fuel);
      }
    }
  }

  lemma {:induction false} DivergesOrReturns(b: Block)
    requires AllPathsReturn(b)
    ensures !FallsOff(b) && FirstReturn(b, true).Some?
    decreases BlockSize(b), 1, |b|
  {
    if |b| > 1 {
      assert b[1..][|b| - 2] == b[|b| - 1];
      DivergesOrReturns(b[1..]);
      if !Diverges(b[0]) { TailFalls(b); }
    } else {
      assert b == [b[0]];
      if b[0].kind.If? { IfReturns(b[0]); }
    }
  }

  lemma {:induction false} IfReturns(s: Stmt)
    requires s.kind.If? && AllPathsReturn(s.kind.body) && ArmsReturn(s.kind.elifs)
    requires s.kind.orelse.Else? && AllPathsReturn(s.kind.orelse.block)
    ensures !FallsOff(s.kind.body) && !ArmsFallOff(s.kind.elifs) && !FallsOff(s.kind.orelse.block)
    ensures FirstIn(ChildBlocks(s), true).Some?
    decreases StmtSize(s), 0
  {
    hide FallsOff, AllPathsReturn;
    DivergesOrReturns(s.kind.body);
    DivergesOrReturns(s.kind.orelse.block);
    ArmsDoNotFall(s.kind.elifs);
    assert ChildBlocks(s)[0] == s.kind.body;
  }

  lemma {:induction false} ArmsDoNotFall(elifs: seq<Arm>)
    requires ArmsReturn(elifs)
    ensures !ArmsFallOff(elifs)
    decreases ArmsSize(elifs), 1
  {
    hide FallsOff, AllPathsReturn, FirstReturn;
    if elifs != [] {
      DivergesOrReturns(elifs[0].body);
      ArmsDoNotFall(elifs[1..]);
    }
  }

  /** Why a raw-result function may end in `unreachable`: its tail is never reached, and
      no run takes a bare `return`. */
  lemma TailUnreachable(body: Block, w: World, o: Oracle, r: Rules, fuel: nat)
    requires JumpsBound(body, false) && AllPathsReturn(body) && !Owes(body)
    ensures FirstReturn(body, false).None?
    ensures var y := ExecBlock(body, w, o, r, fuel); y.Stopped? || y.Timeout? || (y.Returned? && y.result.Some?)
  {
    hide ExecBlock, FallsOff, FirstReturn, JumpsBound, AllPathsReturn;
    DivergesOrReturns(body);
    NoSuchReturn(body, false, w, o, r, fuel);
    NeverFallsOff(body, w, o, r, fuel);
    JumpsCaught(body, w, o, r, fuel);
  }
}
