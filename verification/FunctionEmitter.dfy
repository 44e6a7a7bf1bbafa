/** The compiler's own form (src/codegen.rs): `FuncCx` hands out labels and temporaries in
    place and keeps the stack of enclosing loops; its methods emit exactly the code
    `Lowering` describes. */
module FunctionEmitter {
  import opened Syntax
  import opened Values
  import opened SlotChoice
  import opened Machine
  import opened Lowering

  class FuncCx {
    const env: Env
    var marks: nat
    var temps: nat
    var locals: seq<Local>
    var loops: seq<LoopLabels>

    ghost function Now(): Supply reads this { Supply(marks, temps, locals) }

    constructor (env: Env, locals: seq<Local>)
      ensures this.env == env && Now() == Supply(0, 0, locals) && loops == []
    {
      this.env, this.marks, this.temps, this.locals, this.loops := env, 0, 0, locals, [];
    }

    /** The emitted code, or a compile error. */
    ghost predicate Emits(spec: Lowered, r: Option<seq<Instr>>)
      reads this
    {
      if spec.Rejected? then r.None? else r == Some(spec.code) && Now() == spec.after
    }

    method FreshMark() returns (n: nat)
      modifies this`marks
      ensures n == old(marks) && Now() == Fresh(old(Now()))
    {
      n := marks;
      marks := marks + 1;
    }

    method ScratchLocal() returns (n: nat)
      modifies this`temps, this`locals
      ensures n == old(temps) && Now() == WithScratch(old(Now()))
    {
      n := temps;
      temps := temps + 1;
      locals := locals + [Scratch(n)];
    }

    method Stmts(b: Syntax.Block) returns (r: Option<seq<Instr>>)
      modifies this
      ensures loops == old(loops) && Emits(LowerBlock(b, env, old(loops), old(Now())), r)
      decreases BlockSize(b), 1
    {
      hide LowerStmt;
      var out: seq<Instr> := [];
      var i := 0;
      assert b[0..] == b;
      while i < |b|
        invariant 0 <= i <= |b| && loops == old(loops) && BlockSize(b[i..]) <= BlockSize(b)
        invariant Continues(LowerBlock(b, env, loops, old(Now())), out, LowerBlock(b[i..], env, loops, Now()))
      {
        assert b[i..][0] == b[i] && b[i..][1..] == b[i + 1..];
        ghost var before := Now();
        var code := GenStmt(b[i]);
        if code.None? { return None; }
        ghost var rest := LowerBlock(b[i + 1..], env, loops, Now());
        assert rest.Lowered? ==> out + (code.value + rest.code) == (out + code.value) + rest.code;
        out := out + code.value;
        i := i + 1;
      }
      assert b[i..] == [];
      assert out + [] == out;
      r := Some(out);
    }

    /** `out` followed by the rest is the whole. */
    static ghost predicate Continues(whole: Lowered, out: seq<Instr>, rest: Lowered) {
      if rest.Rejected? then whole.Rejected? else whole == Lowered(out + rest.code, rest.after)
    }

    method GenStmt(st: Stmt) returns (r: Option<seq<Instr>>)
      modifies this
      ensures loops == old(loops) && Emits(LowerStmt(st, env, old(loops), old(Now())), r)
      decreases StmtSize(st), 0
    {
      hide LowerBlock, LowerIf, LowerElse, LowerWhile, LowerFor, LowerForEach;
      match st.kind {
        case Assign(x, e) => r := GenAssign(x, e);
        case AnnAssign(x, e, _) => r := GenAssign(x, e);
        case ExprStmt(e) =>
          if e.kind.Call? && e.kind.func == "print" {
            r := GenPrint(e.kind.args);
          } else {
            var value := if e.kind.Call? || e.kind.MethodCall? then ValueExpr(e, env) else None;
            r := if value.None? then None else Some([Drop(value.value)]);
          }
        case Return(e) =>
          var l := LowerReturn(e, env, Supply(marks, temps, locals));
          r := if l.Rejected? then None else Some(l.code);
        case If(c, body, elifs, orelse) => r := GenIf(c, body, elifs, orelse);
        case While(c, body) => r := GenWhile(c, body);
        case For(x, start, end, step, body, _) => r := GenFor(x, start, end, step, body);
        case ForEach(x, iterable, body) => r := GenForEach(x, iterable, body);
        case Break => r := if loops == [] then None else Some([Br(loops[|loops| - 1].brk)]);
        case Continue => r := if loops == [] then None else Some([Br(loops[|loops| - 1].cont)]);
        case Def(_, _, _) => r := None;
        case Pass => r := Some([]);
        case Import => r := Some([]);
      }
    }

    method GenAssign(x: string, e: Expr) returns (r: Option<seq<Instr>>)
      ensures Emits(LowerAssign(x, e, env, Now()), r)
    {
      var value := ValueExpr(e, env);
      if value.None? { return None; }
      if x in env.typed {
        var sc := ScalarExpr(e, env);
        r := Some([SetRaw(Var(x), if sc.Some? then sc.value else UnboxCall(value.value))]);
      } else {
        r := Some([SetRef(Var(x), value.value)]);
      }
    }

    method GenPrint(args: seq<Expr>) returns (r: Option<seq<Instr>>)
      ensures r == PrintCode(args, env)
    {
      hide ValueExpr;
      var out: seq<Instr> := [];
      assert args[0..] == args;
      assert PrintCode(args, env).Some? ==> out + PrintCode(args, env).value == PrintCode(args, env).value;
      for i := 0 to |args|
        invariant PrintsOn(PrintCode(args, env), out, PrintCode(args[i..], env))
      {
        assert args[i..][0] == args[i] && args[i..][1..] == args[i + 1..];
        var value := ValueExpr(args[i], env);
        if value.None? { return None; }
        var item := if i == |args| - 1 then [PrintValue(value.value)] else [PrintValue(value.value), WriteChar(Space)];
        ghost var rest := PrintCode(args[i + 1..], env);
        assert rest.Some? ==> out + (item + rest.value) == (out + item) + rest.value;
        out := out + item;
      }
      assert args[|args|..] == [];
      r := Some(out + [WriteChar(Newline)]);
    }

    /** `out` followed by the code of the remaining arguments is the whole. */
    static ghost predicate PrintsOn(whole: Option<seq<Instr>>, out: seq<Instr>, rest: Option<seq<Instr>>) {
      if rest.None? then whole.None? else whole == Some(out + rest.value)
    }

    method GenIf(c: Expr, body: Syntax.Block, elifs: seq<Arm>, orelse: ElseBlock) returns (r: Option<seq<Instr>>)
      modifies this
      ensures loops == old(loops) && Emits(LowerIf(c, body, elifs, orelse, env, old(loops), old(Now())), r)
      decreases BlockSize(body) + ArmsSize(elifs) + BlockSize(ElseOf(orelse)), 3
    {
      hide LowerBlock, LowerElse;
      var cond := CondI32(c, env);
      if cond.None? { return None; }
      var thens := Stmts(body);
      if thens.None? { return None; }
      var elses := ElseChain(elifs, orelse);
      if elses.None? { return None; }
      r := Some([Instr.If(cond.value, thens.value, elses.value)]);
    }

    method ElseChain(elifs: seq<Arm>, orelse: ElseBlock) returns (r: Option<seq<Instr>>)
      modifies this
      ensures loops == old(loops) && Emits(LowerElse(elifs, orelse, env, old(loops), old(Now())), r)
      decreases ArmsSize(elifs) + BlockSize(ElseOf(orelse)), 2
    {
      hide LowerIf;
      if elifs != [] {
        r := GenIf(elifs[0].cond, elifs[0].body, elifs[1..], orelse);
      } else if orelse.Else? {
        r := Stmts(orelse.block);
      } else {
        r := Some([]);
      }
    }

    method GenWhile(c: Expr, body: Syntax.Block) returns (r: Option<seq<Instr>>)
      modifies this
      ensures loops == old(loops) && Emits(LowerWhile(c, body, env, old(loops), old(Now())), r)
      decreases BlockSize(body), 2
    {
      hide LowerBlock;
      var cond := CondI32(c, env);
      if cond.None? { return None; }
      var n := FreshMark();
      loops := loops + [LoopLabels(B(n), L(n))];
      var code := Stmts(body);
      loops := loops[..|loops| - 1];
      if code.None? { return None; }
      r := Some([Block(B(n), [Loop(L(n), [BrIf(B(n), Eqz(cond.value))] + code.value + [Br(L(n))])])]);
    }

    method GenFor(x: string, start: Expr, end: Expr, step: Expr, body: Syntax.Block) returns (r: Option<seq<Instr>>)
      modifies this
      ensures loops == old(loops) && Emits(LowerFor(x, start, end, step, body, env, old(loops), old(Now())), r)
      decreases BlockSize(body), 2
    {
      hide LowerBlock, I32Expr;
      var stride := StepOf(step);
      if stride.None? { return None; }
      var first := I32Expr(start, env);
      if first.None? { return None; }
      var last := I32Expr(end, env);
      if last.None? { return None; }
      var pre: seq<Instr> := [];
      var until := last.value;
      if ConstInt(end).None? {
        var t := ScratchLocal();
        pre := [SetRaw(Scratch(t), last.value)];
        until := GetRaw(Scratch(t));
      }
      var n := FreshMark();
      locals := locals + [Counter(n)];
      loops := loops + [LoopLabels(B(n), C(n))];
      var code := Stmts(body);
      loops := loops[..|loops| - 1];
      if code.None? { return None; }
      r := Some(pre + CountedCode(n, first.value, AtEnd(n, stride.value, until), SetCounted(x, n, env), stride.value, code.value));
    }

    method GenForEach(x: string, iterable: Expr, body: Syntax.Block) returns (r: Option<seq<Instr>>)
      modifies this
      ensures loops == old(loops) && Emits(LowerForEach(x, iterable, body, env, old(loops), old(Now())), r)
      decreases BlockSize(body), 2
    {
      hide LowerBlock, ValueExpr;
      var it := ValueExpr(iterable, env);
      if it.None? { return None; }
      var n := FreshMark();
      var t := ScratchLocal();
      locals := locals + [Counter(n)];
      loops := loops + [LoopLabels(B(n), C(n))];
      var code := Stmts(body);
      loops := loops[..|loops| - 1];
      if code.None? { return None; }
      r := Some([SetRef(Scratch(t), it.value)]
                + CountedCode(n, Const(0), RawOp(Compare(Ge), GetRaw(Counter(n)), PyIterLen(GetRef(Scratch(t)))), SetItem(x, n, t), 1, code.value));
    }
  }
}
