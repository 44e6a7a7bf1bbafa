/** Fuel only decides how long a run is watched: with more of it, a run that ended ends the
    same way. */
module Termination {
  import opened Syntax
  import opened Values
  import opened PythonSemantics

  lemma {:induction false} MoreFuel(b: Block, w: World, o: Oracle, r: Rules, f: nat, g: nat)
    requires f <= g && !ExecBlock(b, w, o, r, f).Timeout?
    ensures ExecBlock(b, w, o, r, g) == ExecBlock(b, w, o, r, f)
    decreases f, BlockSize(b), 1
  {
    if b != [] {
      hide ExecStmt;
      MoreFuelStmt(b[0], w, o, r, f, g);
      var y := ExecStmt(b[0], w, o, r, f);
      if y.Next? { MoreFuel(b[1..], y.world, o, r, f, g); }
    }
  }

  lemma {:induction false} MoreFuelStmt(s: Stmt, w: World, o: Oracle, r: Rules, f: nat, g: nat)
    requires f <= g && !ExecStmt(s, w, o, r, f).Timeout?
    ensures ExecStmt(s, w, o, r, g) == ExecStmt(s, w, o, r, f)
    decreases f, StmtSize(s), 0
  {
    hide Eval, Test, Slot, Range, ExecExpr, ExecAssign, ExecBlock, ExecElse, ExecRange, ExecEach, ExecWhile;
    match s.kind
    case If(c, body, elifs, orelse) =>
      var t := Test(c, w, o, r);
      if t.Holds? {
        if t.b { MoreFuel(body, t.world, o, r, f, g); } else { MoreFuelElse(elifs, ElseOf(orelse), t.world, o, r, f, g); }
      }
    case While(c, body) => MoreFuelWhile(c, body, w, o, r, f, g);
    case For(x, start, end, step, body, _) =>
      var bounds := Range(start, end, step, w, o, r);
      if bounds.From? { MoreFuelRange(x, bounds.first, bounds.end, bounds.step, body, bounds.world, o, r, f, g); }
    case ForEach(x, iterable, body) =>
      var v := Eval(iterable, w, o, r.At(false));
      if v.Ok? && v.value.VList? { MoreFuelEach(x, v.value.at, 0, body, v.world, o, r, f, g); }
    case _ =>
  }

  lemma {:induction false} MoreFuelElse(elifs: seq<Arm>, orelse: Block, w: World, o: Oracle, r: Rules, f: nat, g: nat)
    requires f <= g && !ExecElse(elifs, orelse, w, o, r, f).Timeout?
    ensures ExecElse(elifs, orelse, w, o, r, g) == ExecElse(elifs, orelse, w, o, r, f)
    decreases f, ArmsSize(elifs) + BlockSize(orelse), 2
  {
    hide Test, ExecBlock;
    if elifs == [] {
      MoreFuel(orelse, w, o, r, f, g);
    } else {
      var t := Test(elifs[0].cond, w, o, r);
      if t.Holds? {
        if t.b { MoreFuel(elifs[0].body, t.world, o, r, f, g); } else { MoreFuelElse(elifs[1..], orelse, t.world, o, r, f, g); }
      }
    }
  }

  lemma {:induction false} MoreFuelWhile(c: Expr, body: Block, w: World, o: Oracle, r: Rules, f: nat, g: nat)
    requires f <= g && !ExecWhile(c, body, w, o, r, f).Timeout?
    ensures ExecWhile(c, body, w, o, r, g) == ExecWhile(c, body, w, o, r, f)
    decreases f, BlockSize(body), 2
  {
    hide Test, ExecBlock;
    var t := Test(c, w, o, r);
    if t.Holds? && t.b {
      MoreFuel(body, t.world, o, r, f, g);
      var p := PassOf(ExecBlock(body, t.world, o, r, f));
      if p.Again? { MoreFuelWhile(c, body, p.world, o, r, f - 1, g - 1); }
    }
  }

  lemma {:induction false} MoreFuelRange(x: string, c: int, end: int, step: int, body: Block, w: World, o: Oracle, r: Rules, f: nat, g: nat)
    requires f <= g && !ExecRange(x, c, end, step, body, w, o, r, f).Timeout?
    ensures ExecRange(x, c, end, step, body, w, o, r, g) == ExecRange(x, c, end, step, body, w, o, r, f)
    decreases f, BlockSize(body), 2
  {
    hide ExecBlock, Exhausted, Stepped;
    if !Exhausted(c, end, step) {
      var u := Bind(w, x, VInt(c));
      MoreFuel(body, u, o, r, f, g);
      var p, d := PassOf(ExecBlock(body, u, o, r, f)), Stepped(c, step, r);
      if p.Again? && d.Num? { MoreFuelRange(x, d.n, end, step, body, p.world, o, r, f - 1, g - 1); }
    }
  }

  lemma {:induction false} MoreFuelEach(x: string, at: nat, i: nat, body: Block, w: World, o: Oracle, r: Rules, f: nat, g: nat)
    requires f <= g && !ExecEach(x, at, i, body, w, o, r, f).Timeout?
    ensures ExecEach(x, at, i, body, w, o, r, g) == ExecEach(x, at, i, body, w, o, r, f)
    decreases f, BlockSize(body), 2
  {
    hide ExecBlock, Items;
    if i < |Items(w.heap, at)| {
      var v := Bound(x, Items(w.heap, at)[i], w, r);
      if v.Ok? {
        var u := Bind(w, x, v.value);
        MoreFuel(body, u, o, r, f, g);
        var p := PassOf(ExecBlock(body, u, o, r, f));
        if p.Again? { MoreFuelEach(x, at, i + 1, body, p.world, o, r, f - 1, g - 1); }
      }
    }
  }

  /** How a run ends if it does, whatever the fuel. */
  lemma OneEnd(b: Block, w: World, o: Oracle, r: Rules, f: nat, g: nat)
    requires !ExecBlock(b, w, o, r, f).Timeout? && !ExecBlock(b, w, o, r, g).Timeout?
    ensures ExecBlock(b, w, o, r, f) == ExecBlock(b, w, o, r, g)
  {
    hide ExecBlock;
    if f <= g { MoreFuel(b, w, o, r, f, g); } else { MoreFuel(b, w, o, r, g, f); }
  }
}
