/** What the "total function" rule says is what can happen: runs in which every test is
    free to go either way, except that of a literal `while True`, give back a value, give
    back none or pass the end exactly as the rule says. */
module FreeRuns {
  import opened Syntax
  import opened MissingReturn
  import ActivityTraces

  /** How a run through statements ends; `Stuck` when no choice is left or when
      `while True` is asked to stop. */
  datatype Way = Falls | Breaks | Continues | Gives(valued: bool) | Stuck

  datatype Walk = Walk(way: Way, rest: seq<bool>)

  function WalkBlock(b: Block, cs: seq<bool>): (r: Walk)
    ensures |r.rest| <= |cs|
    decreases |cs|, BlockSize(b), 1
  {
    if b == [] then Walk(Falls, cs)
    else
      var r := WalkStmt(b[0], cs);
      if r.way.Falls? then WalkBlock(b[1..], r.rest) else r
  }

  function WalkStmt(s: Stmt, cs: seq<bool>): (r: Walk)
    ensures |r.rest| <= |cs|
    decreases |cs|, StmtSize(s), 0
  {
    match s.kind
    case Break => Walk(Breaks, cs)
    case Continue => Walk(Continues, cs)
    case Return(v) => Walk(Gives(v.Some?), cs)
    case If(_, body, elifs, orelse) => WalkIf(body, elifs, ElseOf(orelse), cs)
    case While(c, body) => WalkLoop(c.kind == Bool(true), body, cs)
    case For(_, _, _, _, body, _) => WalkLoop(false, body, cs)
    case ForEach(_, _, body) => WalkLoop(false, body, cs)
    case _ => Walk(Falls, cs)
  }

  function WalkIf(body: Block, elifs: seq<Arm>, orelse: Block, cs: seq<bool>): (r: Walk)
    ensures |r.rest| <= |cs|
    decreases |cs|, BlockSize(body) + ArmsSize(elifs) + BlockSize(orelse), 2
  {
    if cs == [] then Walk(Stuck, [])
    else if cs[0] then WalkBlock(body, cs[1..])
    else if elifs == [] then WalkBlock(orelse, cs[1..])
    else WalkIf(elifs[0].body, elifs[1..], orelse, cs[1..])
  }

  function WalkLoop(forever: bool, body: Block, cs: seq<bool>): (r: Walk)
    ensures |r.rest| <= |cs|
    decreases |cs|, BlockSize(body), 2
  {
    if cs == [] then Walk(Stuck, [])
    else if !cs[0] then Walk(if forever then Stuck else Falls, cs[1..])
    else
      var r := WalkBlock(body, cs[1..]);
      match r.way
      case Falls => WalkLoop(forever, body, r.rest)
      case Continues => WalkLoop(forever, body, r.rest)
      case Breaks => Walk(Falls, r.rest)
      case _ => r
  }

  /** Some run of the statements ends this way. */
  ghost predicate Can(b: Block, way: Way) { exists cs :: WalkBlock(b, cs).way == way }

  // --------------------------------------------------- runs are those of diagrams

  /** The end a diagram's run has for it. */
  predicate SameEnd(way: Way, end: ActivityTraces.End) {
    match way
    case Falls => end.Falls?
    case Breaks => end.Breaks?
    case Continues => end.Continues?
    case Gives(_) => end.Returns?
    case Stuck => true
  }

  /** With the same choices, the control flow of the diagrams ends alike. */
  lemma {:induction false} WalkIsTrace(b: Block, cs: seq<bool>)
    ensures var r, t := WalkBlock(b, cs), ActivityTraces.RunBlock(b, cs);
      SameEnd(r.way, t.end) && (!r.way.Stuck? ==> r.rest == t.rest)
    decreases |cs|, BlockSize(b), 1
  {
    if b != [] {
      var r := WalkStmt(b[0], cs);
      StmtIsTrace(b[0], cs);
      if r.way.Falls? { WalkIsTrace(b[1..], r.rest); }
    }
  }

  lemma {:induction false} StmtIsTrace(s: Stmt, cs: seq<bool>)
    ensures var r, t := WalkStmt(s, cs), ActivityTraces.RunStmt(s, cs);
      SameEnd(r.way, t.end) && (!r.way.Stuck? ==> r.rest == t.rest)
    decreases |cs|, StmtSize(s), 0
  {
    match s.kind {
      case If(c, body, elifs, orelse) => IfIsTrace(s.line, c, body, elifs, ElseOf(orelse), cs);
      case While(c, body) => LoopIsTrace(s.line, c.fullSpan, c.kind == Bool(true), body, cs);
      case For(_, _, _, _, body, header) => LoopIsTrace(s.line, header, false, body, cs);
      case ForEach(_, iterable, body) => LoopIsTrace(s.line, (s.span.0, iterable.fullSpan.1), false, body, cs);
      case _ =>
    }
  }

  lemma {:induction false} IfIsTrace(line: nat, c: Expr, body: Block, elifs: seq<Arm>, orelse: Block, cs: seq<bool>)
    ensures var r, t := WalkIf(body, elifs, orelse, cs), ActivityTraces.RunIf(line, c, body, elifs, orelse, cs);
      SameEnd(r.way, t.end) && (!r.way.Stuck? ==> r.rest == t.rest)
    decreases |cs|, BlockSize(body) + ArmsSize(elifs) + BlockSize(orelse), 2
  {
    if cs != [] {
      if cs[0] {
        WalkIsTrace(body, cs[1..]);
      } else if elifs == [] {
        WalkIsTrace(orelse, cs[1..]);
      } else {
        IfIsTrace(elifs[0].cond.line, elifs[0].cond, elifs[0].body, elifs[1..], orelse, cs[1..]);
      }
    }
  }

  lemma {:induction false} LoopIsTrace(line: nat, text: Span, forever: bool, body: Block, cs: seq<bool>)
    ensures var r, t := WalkLoop(forever, body, cs), ActivityTraces.RunLoop(line, text, body, cs);
      SameEnd(r.way, t.end) && (!r.way.Stuck? ==> r.rest == t.rest)
    decreases |cs|, BlockSize(body), 2
  {
    if cs != [] && cs[0] {
      var r := WalkBlock(body, cs[1..]);
      WalkIsTrace(body, cs[1..]);
      if r.way.Falls? || r.way.Continues? { LoopIsTrace(line, text, forever, body, r.rest); }
    }
  }

  // ------------------------------------------------------- putting runs together

  lemma {:induction false} MoreChoices(b: Block, cs: seq<bool>, more: seq<bool>)
    requires !WalkBlock(b, cs).way.Stuck?
    ensures var r := WalkBlock(b, cs); WalkBlock(b, cs + more) == Walk(r.way, r.rest + more)
    decreases |cs|, BlockSize(b), 1
  {
    if b != [] {
      var r := WalkStmt(b[0], cs);
      MoreStmt(b[0], cs, more);
      if r.way.Falls? { MoreChoices(b[1..], r.rest, more); }
    }
  }

  lemma {:induction false} MoreStmt(s: Stmt, cs: seq<bool>, more: seq<bool>)
    requires !WalkStmt(s, cs).way.Stuck?
    ensures var r := WalkStmt(s, cs); WalkStmt(s, cs + more) == Walk(r.way, r.rest + more)
    decreases |cs|, StmtSize(s), 0
  {
    match s.kind {
      case If(_, body, elifs, orelse) => MoreIf(body, elifs, ElseOf(orelse), cs, more);
      case While(c, body) => MoreLoop(c.kind == Bool(true), body, cs, more);
      case For(_, _, _, _, body, _) => MoreLoop(false, body, cs, more);
      case ForEach(_, _, body) => MoreLoop(false, body, cs, more);
      case _ =>
    }
  }

  lemma {:induction false} MoreIf(body: Block, elifs: seq<Arm>, orelse: Block, cs: seq<bool>, more: seq<bool>)
    requires !WalkIf(body, elifs, orelse, cs).way.Stuck?
    ensures var r := WalkIf(body, elifs, orelse, cs); WalkIf(body, elifs, orelse, cs + more) == Walk(r.way, r.rest + more)
    decreases |cs|, BlockSize(body) + ArmsSize(elifs) + BlockSize(orelse), 2
  {
    if cs != [] {
      assert (cs + more)[1..] == cs[1..] + more;
      if cs[0] {
        MoreChoices(body, cs[1..], more);
      } else if elifs == [] {
        MoreChoices(orelse, cs[1..], more);
      } else {
        MoreIf(elifs[0].body, elifs[1..], orelse, cs[1..], more);
      }
    }
  }

  lemma {:induction false} MoreLoop(forever: bool, body: Block, cs: seq<bool>, more: seq<bool>)
    requires !WalkLoop(forever, body, cs).way.Stuck?
    ensures var r := WalkLoop(forever, body, cs); WalkLoop(forever, body, cs + more) == Walk(r.way, r.rest + more)
    decreases |cs|, BlockSize(body), 2
  {
    if cs != [] {
      assert (cs + more)[1..] == cs[1..] + more;
      if cs[0] {
        var r := WalkBlock(body, cs[1..]);
        MoreChoices(body, cs[1..], more);
        if r.way.Falls? || r.way.Continues? { MoreLoop(forever, body, r.rest, more); }
      }
    }
  }

  // ------------------------------------------------------------ dead code

  /** Control never passes the statement: a jump, `while True` without a `break` of its
      own, or an `if` with `else` all of whose branches stop. */
  predicate Stops(s: Stmt)
    decreases StmtSize(s), 0
  {
    match s.kind
    case Break => true
    case Continue => true
    case Return(_) => true
    case While(c, body) => c.kind == Bool(true) && !HasOwnBreak(body)
    case If(_, body, elifs, orelse) => orelse.Else? && StopsBlock(body) && ArmsStop(elifs) && StopsBlock(orelse.block)
    case _ => false
  }

  predicate StopsBlock(b: Block)
    decreases BlockSize(b), 1
  {
    b != [] && (SizeOfLast(b); Stops(b[|b| - 1]))
  }

  predicate ArmsStop(elifs: seq<Arm>)
    decreases ArmsSize(elifs), 1
  {
    elifs == [] || (StopsBlock(elifs[0].body) && ArmsStop(elifs[1..]))
  }

  /** No statement stands behind one that stops, and no function inside this one. */
  predicate Live(b: Block)
    decreases BlockSize(b), 1
  {
    b == [] || (LiveStmt(b[0]) && (|b| > 1 ==> !Stops(b[0])) && Live(b[1..]))
  }

  predicate LiveStmt(s: Stmt)
    decreases StmtSize(s), 0
  {
    match s.kind
    case If(_, body, elifs, orelse) => Live(body) && ArmsLive(elifs) && Live(ElseOf(orelse))
    case While(_, body) => Live(body)
    case For(_, _, _, _, body, _) => Live(body)
    case ForEach(_, _, body) => Live(body)
    case Def(_, _, _) => false
    case _ => true
  }

  predicate ArmsLive(elifs: seq<Arm>)
    decreases ArmsSize(elifs), 1
  {
    elifs == [] || (Live(elifs[0].body) && ArmsLive(elifs[1..]))
  }

  // ------------------------------------------------------ what is said can happen

  lemma StopsLast(b: Block)
    requires |b| > 1
    ensures StopsBlock(b) == StopsBlock(b[1..])
  {
    assert b[1..][|b| - 2] == b[|b| - 1];
  }

  /** The choices a run uses. */
  lemma {:induction false} UsedBlock(b: Block, cs: seq<bool>) returns (used: seq<bool>)
    requires !WalkBlock(b, cs).way.Stuck?
    ensures cs == used + WalkBlock(b, cs).rest && WalkBlock(b, used) == Walk(WalkBlock(b, cs).way, [])
    decreases |cs|, BlockSize(b), 1
  {
    var all := WalkBlock(b, cs);
    if b == [] { return []; }
    var r := WalkStmt(b[0], cs);
    used := UsedStmt(b[0], cs);
    if r.way.Falls? {
      var more := UsedBlock(b[1..], r.rest);
      MoreStmt(b[0], used, more);
      assert [] + more == more;
      used := used + more;
    }
  }

  lemma {:induction false} UsedStmt(s: Stmt, cs: seq<bool>) returns (used: seq<bool>)
    requires !WalkStmt(s, cs).way.Stuck?
    ensures cs == used + WalkStmt(s, cs).rest && WalkStmt(s, used) == Walk(WalkStmt(s, cs).way, [])
    decreases |cs|, StmtSize(s), 0
  {
    match s.kind {
      case If(_, body, elifs, orelse) => used := UsedIf(body, elifs, ElseOf(orelse), cs);
      case While(c, body) => used := UsedLoop(c.kind == Bool(true), body, cs);
      case For(_, _, _, _, body, _) => used := UsedLoop(false, body, cs);
      case ForEach(_, _, body) => used := UsedLoop(false, body, cs);
      case _ => used := [];
    }
  }

  lemma {:induction false} UsedIf(body: Block, elifs: seq<Arm>, orelse: Block, cs: seq<bool>) returns (used: seq<bool>)
    requires !WalkIf(body, elifs, orelse, cs).way.Stuck?
    ensures cs == used + WalkIf(body, elifs, orelse, cs).rest
    ensures WalkIf(body, elifs, orelse, used) == Walk(WalkIf(body, elifs, orelse, cs).way, [])
    decreases |cs|, BlockSize(body) + ArmsSize(elifs) + BlockSize(orelse), 2
  {
    var more;
    if cs[0] {
      more := UsedBlock(body, cs[1..]);
    } else if elifs == [] {
      more := UsedBlock(orelse, cs[1..]);
    } else {
      more := UsedIf(elifs[0].body, elifs[1..], orelse, cs[1..]);
    }
    used := [cs[0]] + more;
    assert used[1..] == more;
  }

  lemma {:induction false} UsedLoop(forever: bool, body: Block, cs: seq<bool>) returns (used: seq<bool>)
    requires !WalkLoop(forever, body, cs).way.Stuck?
    ensures cs == used + WalkLoop(forever, body, cs).rest
    ensures WalkLoop(forever, body, used) == Walk(WalkLoop(forever, body, cs).way, [])
    decreases |cs|, BlockSize(body), 2
  {
    used := [cs[0]];
    if cs[0] {
      var r := WalkBlock(body, cs[1..]);
      var first := UsedBlock(body, cs[1..]);
      var more := [];
      if r.way.Falls? || r.way.Continues? { more := UsedLoop(forever, body, r.rest); }
      OnePass(forever, body, first, more, r.way);
      Regroups(cs, first, r.rest, more);
      used := [true] + (first + more);
    }
  }

  /** A pass that goes on, and the rest of the loop. */
  lemma OnePass(forever: bool, body: Block, first: seq<bool>, more: seq<bool>, way: Way)
    requires WalkBlock(body, first) == Walk(way, []) && !way.Stuck?
    requires !(way.Falls? || way.Continues?) ==> more == []
    ensures WalkLoop(forever, body, [true] + (first + more)) ==
            if way.Falls? || way.Continues? then WalkLoop(forever, body, more) else if way.Breaks? then Walk(Falls, []) else Walk(way, [])
  {
    MoreChoices(body, first, more);
    var all := [true] + (first + more);
    assert all[1..] == first + more && [] + more == more;
  }

  lemma Regroups(cs: seq<bool>, first: seq<bool>, rest: seq<bool>, more: seq<bool>)
    requires cs != [] && cs[1..] == first + rest
    ensures forall tail :: rest == more + tail ==> cs == [cs[0]] + (first + more) + tail
    ensures more == [] ==> cs == [cs[0]] + (first + more) + rest
  {
    assert cs == [cs[0]] + cs[1..];
    assert first + [] == first;
  }

  ghost predicate CanStmt(s: Stmt, way: Way) { exists cs :: WalkStmt(s, cs).way == way }

  /** A statement that can be passed, and then the rest. */
  lemma Then(b: Block, way: Way)
    requires b != [] && CanStmt(b[0], Falls) && Can(b[1..], way) && !way.Stuck?
    ensures Can(b, way)
  {
    var cs :| WalkStmt(b[0], cs).way == Falls;
    var used := UsedStmt(b[0], cs);
    var more :| WalkBlock(b[1..], more).way == way;
    MoreStmt(b[0], used, more);
    assert [] + more == more;
    assert WalkBlock(b, used + more).way == way;
  }

  lemma First(b: Block, way: Way)
    requires b != [] && CanStmt(b[0], way) && way != Falls
    ensures Can(b, way)
  {
    var cs :| WalkStmt(b[0], cs).way == way;
    assert WalkBlock(b, cs).way == way;
  }

  /** A loop that is entered once. */
  lemma OncePass(forever: bool, body: Block, way: Way)
    requires Can(body, way) && (way.Breaks? || way.Gives?)
    ensures exists cs :: WalkLoop(forever, body, cs).way == if way.Breaks? then Falls else way
  {
    var cs :| WalkBlock(body, cs).way == way;
    var all := [true] + cs;
    assert all[1..] == cs;
    assert WalkLoop(forever, body, all).way == if way.Breaks? then Falls else way;
  }

  /** Some branch of an `if` can end this way. */
  lemma {:induction false} SomeBranch(body: Block, elifs: seq<Arm>, orelse: Block, way: Way)
    requires Can(body, way) || (exists k :: 0 <= k < |elifs| && Can(elifs[k].body, way)) || Can(orelse, way)
    ensures exists cs :: WalkIf(body, elifs, orelse, cs).way == way
    decreases |elifs|
  {
    if Can(body, way) {
      var cs :| WalkBlock(body, cs).way == way;
      assert ([true] + cs)[1..] == cs;
      assert WalkIf(body, elifs, orelse, [true] + cs).way == way;
    } else if elifs == [] {
      var cs :| WalkBlock(orelse, cs).way == way;
      assert ([false] + cs)[1..] == cs;
      assert WalkIf(body, elifs, orelse, [false] + cs).way == way;
    } else {
      if !Can(orelse, way) {
        var k :| 0 <= k < |elifs| && Can(elifs[k].body, way);
        if k > 0 { assert elifs[1..][k - 1] == elifs[k]; }
      }
      SomeBranch(elifs[0].body, elifs[1..], orelse, way);
      var cs :| WalkIf(elifs[0].body, elifs[1..], orelse, cs).way == way;
      assert ([false] + cs)[1..] == cs;
      assert WalkIf(body, elifs, orelse, [false] + cs).way == way;
    }
  }

  lemma {:induction false} ArmsAt(elifs: seq<Arm>)
    ensures ArmsLive(elifs) <==> forall k :: 0 <= k < |elifs| ==> Live(elifs[k].body)
    ensures ArmsStop(elifs) <==> forall k :: 0 <= k < |elifs| ==> StopsBlock(elifs[k].body)
    ensures ArmsBreak(elifs) <==> exists k :: 0 <= k < |elifs| && HasOwnBreak(elifs[k].body)
    ensures ArmsFallOff(elifs) <==> exists k :: 0 <= k < |elifs| && FallsOff(elifs[k].body)
    ensures forall k :: 0 <= k < |elifs| ==> BlockSize(elifs[k].body) < ArmsSize(elifs)
    decreases |elifs|
  {
    hide Live, StopsBlock, HasOwnBreak, FallsOff;
    if elifs != [] {
      ArmsAt(elifs[1..]);
      assert forall k :: 0 < k < |elifs| ==> elifs[k] == elifs[1..][k - 1];
      assert forall k :: 0 <= k < |elifs| - 1 ==> elifs[1..][k] == elifs[k + 1];
    }
  }

  /** Statements without dead code can be passed unless they stop. */
  lemma {:induction false} PassedLive(b: Block)
    requires Live(b) && !StopsBlock(b)
    ensures Can(b, Falls)
    decreases BlockSize(b), 1
  {
    if b == [] {
      assert WalkBlock(b, []).way == Falls;
    } else {
      hide WalkStmt, LiveStmt, Stops;
      if |b| > 1 { StopsLast(b); }
      PassedStmt(b[0]);
      PassedLive(b[1..]);
      Then(b, Falls);
    }
  }

  lemma {:induction false} PassedStmt(s: Stmt)
    requires LiveStmt(s) && !Stops(s)
    ensures CanStmt(s, Falls)
    decreases StmtSize(s), 0
  {
    hide Live, StopsBlock, HasOwnBreak, ArmsLive, ArmsStop, ArmsBreak, WalkBlock, WalkIf, WalkLoop;
    match s.kind {
      case If(_, body, elifs, orelse) =>
        ArmsAt(elifs);
        if orelse.NoElse? || !StopsBlock(orelse.block) {
          if orelse.NoElse? { NothingStops(); }
          PassedLive(ElseOf(orelse));
        } else if !StopsBlock(body) {
          PassedLive(body);
        } else {
          var k :| 0 <= k < |elifs| && !StopsBlock(elifs[k].body);
          PassedLive(elifs[k].body);
        }
        SomeBranch(body, elifs, ElseOf(orelse), Falls);
        var cs :| WalkIf(body, elifs, ElseOf(orelse), cs).way == Falls;
        assert WalkStmt(s, cs).way == Falls;
      case While(c, body) =>
        if c.kind == Bool(true) {
          BreakReached(body);
          OncePass(true, body, Breaks);
          var cs :| WalkLoop(true, body, cs).way == Falls;
          assert WalkStmt(s, cs).way == Falls;
        } else {
          NoPass(body);
          assert WalkStmt(s, [false]).way == Falls;
        }
      case For(_, _, _, _, body, _) =>
        NoPass(body);
        assert WalkStmt(s, [false]).way == Falls;
      case ForEach(_, _, body) =>
        NoPass(body);
        assert WalkStmt(s, [false]).way == Falls;
      case _ => assert WalkStmt(s, []).way == Falls;
    }
  }

  lemma NoPass(body: Block)
    ensures WalkLoop(false, body, [false]).way == Falls
  {
  }

  lemma NothingStops()
    ensures !StopsBlock([]) && Live([])
  {
  }

  /** A `break` that is there can be reached. */
  lemma {:induction false} BreakReached(b: Block)
    requires Live(b) && HasOwnBreak(b)
    ensures Can(b, Breaks)
    decreases BlockSize(b), 1
  {
    hide WalkStmt, LiveStmt, Stops, BreaksHere;
    if BreaksHere(b[0]) {
      BreakStmtReached(b[0]);
      First(b, Breaks);
    } else {
      assert |b| > 1;
      PassedStmt(b[0]);
      BreakReached(b[1..]);
      Then(b, Breaks);
    }
  }

  lemma {:induction false} BreakStmtReached(s: Stmt)
    requires LiveStmt(s) && BreaksHere(s)
    ensures CanStmt(s, Breaks)
    decreases StmtSize(s), 0
  {
    hide Live, HasOwnBreak, ArmsLive, ArmsBreak, WalkBlock, WalkIf, WalkLoop;
    if s.kind.If? {
      var body, elifs, orelse := s.kind.body, s.kind.elifs, s.kind.orelse;
      ArmsAt(elifs);
      if HasOwnBreak(body) {
        BreakReached(body);
      } else if orelse.Else? && HasOwnBreak(orelse.block) {
        BreakReached(orelse.block);
      } else {
        var k :| 0 <= k < |elifs| && HasOwnBreak(elifs[k].body);
        BreakReached(elifs[k].body);
      }
      SomeBranch(body, elifs, ElseOf(orelse), Breaks);
      var cs :| WalkIf(body, elifs, ElseOf(orelse), cs).way == Breaks;
      assert WalkStmt(s, cs).way == Breaks;
    } else {
      assert WalkStmt(s, []).way == Breaks;
    }
  }

  /** A `return` that is there can be reached. */
  lemma {:induction false} ReturnReached(b: Block, valued: bool)
    requires Live(b) && FirstReturn(b, valued).Some?
    ensures Can(b, Gives(valued))
    decreases BlockSize(b), 1
  {
    hide WalkStmt, LiveStmt, Stops, FirstIn, ChildBlocks;
    if IsReturn(b[0], valued) {
      ReturnHere(b[0], valued);
      First(b, Gives(valued));
    } else if FirstIn(ChildBlocks(b[0]), valued).Some? {
      ReturnStmtReached(b[0], valued);
      First(b, Gives(valued));
    } else {
      assert |b| > 1;
      PassedStmt(b[0]);
      ReturnReached(b[1..], valued);
      Then(b, Gives(valued));
    }
  }

  lemma ReturnHere(s: Stmt, valued: bool)
    requires IsReturn(s, valued)
    ensures CanStmt(s, Gives(valued))
  {
    assert WalkStmt(s, []).way == Gives(valued);
  }

  lemma {:induction false} FoundIn(bs: seq<Block>, valued: bool)
    requires FirstIn(bs, valued).Some?
    ensures exists k :: 0 <= k < |bs| && FirstReturn(bs[k], valued).Some?
    decreases |bs|
  {
    hide FirstReturn;
    if FirstReturn(bs[0], valued).None? {
      FoundIn(bs[1..], valued);
      var k :| 0 <= k < |bs[1..]| && FirstReturn(bs[1..][k], valued).Some?;
      assert bs[k + 1] == bs[1..][k];
    }
  }

  lemma {:induction false} ReturnStmtReached(s: Stmt, valued: bool)
    requires LiveStmt(s) && FirstIn(ChildBlocks(s), valued).Some?
    ensures CanStmt(s, Gives(valued))
    decreases StmtSize(s), 0
  {
    hide Live, FirstReturn, FirstIn, ArmsLive, WalkBlock, WalkIf, WalkLoop;
    FoundIn(ChildBlocks(s), valued);
    var k :| 0 <= k < |ChildBlocks(s)| && FirstReturn(ChildBlocks(s)[k], valued).Some?;
    if s.kind.If? {
      var body, elifs, orelse := s.kind.body, s.kind.elifs, s.kind.orelse;
      ArmsAt(elifs);
      ArmBodiesCount(elifs);
      if k == 0 {
        ReturnReached(body, valued);
      } else if k <= |elifs| {
        ArmBodiesAt(elifs, k - 1);
        ReturnReached(elifs[k - 1].body, valued);
      } else {
        ReturnReached(ElseOf(orelse), valued);
      }
      SomeBranch(body, elifs, ElseOf(orelse), Gives(valued));
      var cs :| WalkIf(body, elifs, ElseOf(orelse), cs).way == Gives(valued);
      assert WalkStmt(s, cs).way == Gives(valued);
    } else {
      var body := ChildBlocks(s)[0];
      var forever := s.kind.While? && s.kind.cond.kind == Bool(true);
      ReturnReached(body, valued);
      OncePass(forever, body, Gives(valued));
      var cs :| WalkLoop(forever, body, cs).way == Gives(valued);
      assert WalkStmt(s, cs).way == Gives(valued);
    }
  }

  // ------------------------------------------------------ what can happen is said

  /** What a run does is what some statement of the text says. */
  lemma {:induction false} WaySaid(b: Block, cs: seq<bool>)
    ensures var way := WalkBlock(b, cs).way;
      && (way.Breaks? ==> HasOwnBreak(b)) && (way.Gives? ==> FirstReturn(b, way.valued).Some?)
    decreases |cs|, BlockSize(b), 1
  {
    if b != [] {
      hide WalkStmt, BreaksHere, FirstIn, ChildBlocks, IsReturn;
      StmtSaid(b[0], cs);
      var r := WalkStmt(b[0], cs);
      if r.way.Falls? { WaySaid(b[1..], r.rest); }
    }
  }

  lemma {:induction false} StmtSaid(s: Stmt, cs: seq<bool>)
    ensures var way := WalkStmt(s, cs).way;
      && (way.Breaks? ==> BreaksHere(s))
      && (way.Gives? ==> IsReturn(s, way.valued) || FirstIn(ChildBlocks(s), way.valued).Some?)
    decreases |cs|, StmtSize(s), 0
  {
    hide FirstReturn, FirstIn, WalkIf, WalkLoop, HasOwnBreak, ArmsBreak;
    var way := WalkStmt(s, cs).way;
    match s.kind {
      case If(_, body, elifs, orelse) =>
        IfSaid(body, elifs, ElseOf(orelse), cs);
        NothingSaid();
        if way.Gives? && FirstIn(ChildBlocks(s), way.valued).None? { NoneInIf(s, way.valued); }
      case While(c, body) =>
        LoopSaid(c.kind == Bool(true), body, cs);
        if way.Gives? { OneChild(body, way.valued); }
      case For(_, _, _, _, body, _) =>
        LoopSaid(false, body, cs);
        if way.Gives? { OneChild(body, way.valued); }
      case ForEach(_, _, body) =>
        LoopSaid(false, body, cs);
        if way.Gives? { OneChild(body, way.valued); }
      case _ =>
    }
  }

  lemma NothingSaid()
    ensures !HasOwnBreak([])
  {
  }

  lemma OneChild(body: Block, valued: bool)
    requires FirstReturn(body, valued).Some?
    ensures FirstIn([body], valued).Some?
  {
  }

  lemma {:induction false} IfSaid(body: Block, elifs: seq<Arm>, orelse: Block, cs: seq<bool>)
    ensures var way := WalkIf(body, elifs, orelse, cs).way;
      && (way.Breaks? ==> HasOwnBreak(body) || ArmsBreak(elifs) || HasOwnBreak(orelse))
      && (way.Gives? ==> FirstReturn(body, way.valued).Some? || FirstReturn(orelse, way.valued).Some?
                         || exists k :: 0 <= k < |elifs| && FirstReturn(elifs[k].body, way.valued).Some?)
    decreases |cs|, BlockSize(body) + ArmsSize(elifs) + BlockSize(orelse), 2
  {
    hide FirstReturn, HasOwnBreak;
    if cs != [] {
      if cs[0] {
        WaySaid(body, cs[1..]);
      } else if elifs == [] {
        WaySaid(orelse, cs[1..]);
      } else {
        IfSaid(elifs[0].body, elifs[1..], orelse, cs[1..]);
        var way := WalkIf(elifs[0].body, elifs[1..], orelse, cs[1..]).way;
        if way.Gives? && exists k :: 0 <= k < |elifs[1..]| && FirstReturn(elifs[1..][k].body, way.valued).Some? {
          var k :| 0 <= k < |elifs[1..]| && FirstReturn(elifs[1..][k].body, way.valued).Some?;
          assert elifs[k + 1] == elifs[1..][k];
        }
      }
    }
  }

  lemma {:induction false} LoopSaid(forever: bool, body: Block, cs: seq<bool>)
    ensures var way := WalkLoop(forever, body, cs).way;
      && !way.Breaks? && !way.Continues?
      && (way.Gives? ==> FirstReturn(body, way.valued).Some?)
      && (way.Falls? && forever ==> HasOwnBreak(body))
    decreases |cs|, BlockSize(body), 2
  {
    hide FirstReturn, HasOwnBreak;
    if cs != [] && cs[0] {
      var r := WalkBlock(body, cs[1..]);
      WaySaid(body, cs[1..]);
      if r.way.Falls? || r.way.Continues? { LoopSaid(forever, body, r.rest); }
    }
  }

  /** No run passes a statement that stops; none leaves statements that do not fall off. */
  lemma {:induction false} FallsSaid(b: Block, cs: seq<bool>)
    requires WalkBlock(b, cs).way.Falls?
    ensures FallsOff(b)
    decreases BlockSize(b), 1, |b|
  {
    if b != [] {
      hide WalkStmt, WalkLoop;
      var r := WalkStmt(b[0], cs);
      if Diverges(b[0]) {
        LoopSaid(true, b[0].kind.body, cs);
        LoopWalk(b[0], cs);
      } else if |b| == 1 {
        assert b == [b[0]];
        if !FallsOff([b[0]]) { LastSaid(b[0], cs); }
      } else {
        FallsSaid(b[1..], r.rest);
        TailFalls(b);
      }
    }
  }

  lemma LoopWalk(s: Stmt, cs: seq<bool>)
    requires s.kind.While?
    ensures WalkStmt(s, cs) == WalkLoop(s.kind.cond.kind == Bool(true), s.kind.body, cs)
  {
  }

  lemma {:induction false} LastSaid(s: Stmt, cs: seq<bool>)
    requires !FallsOff([s]) && !Diverges(s)
    ensures !WalkStmt(s, cs).way.Falls?
    decreases StmtSize(s), 0
  {
    hide FallsOff, Diverges;
    FallsOffOne(s);
    if s.kind.If? { BranchesSaid(s.kind.body, s.kind.elifs, s.kind.orelse.block, cs); }
  }

  lemma {:induction false} BranchesSaid(body: Block, elifs: seq<Arm>, orelse: Block, cs: seq<bool>)
    requires !FallsOff(body) && !ArmsFallOff(elifs) && !FallsOff(orelse)
    ensures !WalkIf(body, elifs, orelse, cs).way.Falls?
    decreases BlockSize(body) + ArmsSize(elifs) + BlockSize(orelse), 2
  {
    hide FallsOff;
    if cs != [] {
      if cs[0] {
        if WalkBlock(body, cs[1..]).way.Falls? { FallsSaid(body, cs[1..]); }
      } else if elifs == [] {
        if WalkBlock(orelse, cs[1..]).way.Falls? { FallsSaid(orelse, cs[1..]); }
      } else {
        BranchesSaid(elifs[0].body, elifs[1..], orelse, cs[1..]);
      }
    }
  }

  /** Where every jump is inside a loop, statements that fall off do not stop. */
  lemma {:induction false} FallsOffGoesOn(b: Block)
    requires FallsOff(b) && JumpsBound(b, false)
    ensures !StopsBlock(b)
    decreases BlockSize(b), 1, |b|
  {
    if |b| > 1 {
      hide Stops;
      StopsLast(b);
      TailFalls(b);
      FallsOffGoesOn(b[1..]);
    } else if |b| == 1 {
      assert b == [b[0]] && b[1..] == [];
      LastGoesOn(b[0]);
    }
  }

  lemma {:induction false} LastGoesOn(s: Stmt)
    requires FallsOff([s]) && StmtJumpsBound(s, false)
    ensures !Stops(s)
    decreases StmtSize(s), 0
  {
    hide JumpsBound, ArmsJumpsBound, HasOwnBreak, StopsBlock, ArmsStop, ArmsFallOff;
    assert [s][1..] == [] && [s][0] == s && !Diverges(s);
    if s.kind.If? && s.kind.orelse.Else? {
      var body, elifs, orelse := s.kind.body, s.kind.elifs, s.kind.orelse.block;
      ArmsAt(elifs);
      ArmsBoundAt(elifs, false);
      if FallsOff(body) {
        FallsOffGoesOn(body);
      } else if FallsOff(orelse) {
        FallsOffGoesOn(orelse);
      } else {
        var k :| 0 <= k < |elifs| && FallsOff(elifs[k].body);
        FallsOffGoesOn(elifs[k].body);
      }
    }
  }

  lemma {:induction false} ArmsBoundAt(elifs: seq<Arm>, inLoop: bool)
    requires ArmsJumpsBound(elifs, inLoop)
    ensures forall k :: 0 <= k < |elifs| ==> JumpsBound(elifs[k].body, inLoop)
    decreases |elifs|
  {
    if elifs != [] { ArmsBoundAt(elifs[1..], inLoop); }
  }

  // ------------------------------------------------------------------- results

  /** Without dead code a `break` is found exactly if a run can break out, in the runs of
      the diagrams, too. */
  lemma BreaksExactly(b: Block)
    requires Live(b)
    ensures HasOwnBreak(b) <==> Can(b, Breaks)
    ensures HasOwnBreak(b) ==> exists cs :: ActivityTraces.RunBlock(b, cs).end.Breaks?
  {
    if HasOwnBreak(b) {
      BreakReached(b);
      var cs :| WalkBlock(b, cs).way == Breaks;
      WalkIsTrace(b, cs);
    }
    if Can(b, Breaks) {
      var cs :| WalkBlock(b, cs).way == Breaks;
      WaySaid(b, cs);
    }
  }

  lemma FallsExactly(b: Block)
    requires Live(b) && JumpsBound(b, false)
    ensures FallsOff(b) <==> Can(b, Falls)
  {
    if FallsOff(b) {
      FallsOffGoesOn(b);
      PassedLive(b);
    }
    if Can(b, Falls) {
      var cs :| WalkBlock(b, cs).way == Falls;
      FallsSaid(b, cs);
    }
  }

  lemma ReturnsExactly(b: Block, valued: bool)
    requires Live(b)
    ensures FirstReturn(b, valued).Some? <==> Can(b, Gives(valued))
  {
    if FirstReturn(b, valued).Some? { ReturnReached(b, valued); }
    if Can(b, Gives(valued)) {
      var cs :| WalkBlock(b, cs).way == Gives(valued);
      WaySaid(b, cs);
    }
  }

  /** Main result: without dead code, a function owes a return exactly if some run gives
      back a value and some run gives back none. */
  lemma OwesExactly(body: Block)
    requires Live(body) && JumpsBound(body, false)
    ensures Owes(body) <==> Can(body, Gives(true)) && (Can(body, Falls) || Can(body, Gives(false)))
  {
    FallsExactly(body);
    ReturnsExactly(body, true);
    ReturnsExactly(body, false);
  }

  /** Whatever else stands in it, a function with two such runs owes one. */
  lemma OwesWhenMixed(body: Block)
    requires Can(body, Gives(true)) && (Can(body, Falls) || Can(body, Gives(false)))
    ensures Owes(body)
  {
    var cs :| WalkBlock(body, cs).way == Gives(true);
    WaySaid(body, cs);
    if Can(body, Falls) {
      var none :| WalkBlock(body, none).way == Falls;
      FallsSaid(body, none);
    } else {
      var none :| WalkBlock(body, none).way == Gives(false);
      WaySaid(body, none);
    }
  }

  /** What a nested function gives back counts as given back, whatever its own runs do. */
  lemma NestedCounted(name: string, params: seq<string>, body: Block, valued: bool)
    ensures FirstReturn([AsStmt(Def(name, params, body))], valued) == FirstReturn(body, valued)
    ensures FallsOff([AsStmt(Def(name, params, body))])
  {
    var s := AsStmt(Def(name, params, body));
    assert [s][1..] == [] && [s][0] == s && ChildBlocks(s) == [body] && [body][1..] == [];
    assert FirstIn([], valued) == None && FirstReturn([], valued) == None;
    assert FirstIn([body], valued) == FirstReturn(body, valued);
    assert !Diverges(s) && !AnyDiverges([]);
    assert !AnyDiverges([s]) && [s][|[s]| - 1] == s;
  }

  lemma LastPass(last: Stmt)
    requires last.kind == Pass
    ensures JumpsBound([last], false) && !AnyDiverges([last]) && !Diverges(last)
  {
    assert [last][0] == last && [last][1..] == [];
    assert StmtJumpsBound(last, false) && JumpsBound([], false) && !AnyDiverges([]);
  }

  /** Dead code can make the rule speak up for nothing: `return e`, then `pass`. */
  lemma DeadCodeBlamed(e: Expr)
    ensures var body := [AsStmt(Return(Some(e))), AsStmt(Pass)];
      Owes(body) && JumpsBound(body, false) && !Can(body, Falls) && !Can(body, Gives(false))
  {
    var first, last := AsStmt(Return(Some(e))), AsStmt(Pass);
    var body := [first, last];
    assert body[0] == first && body[1..] == [last] && body[|body| - 1] == last;
    LastPass(last);
    assert StmtJumpsBound(first, false) && !Diverges(first);
    assert FirstReturn(body, true) == Some(1);
    forall cs ensures WalkBlock(body, cs).way == Gives(true) {}
  }

  // ----------------------------------------------------- every path returns

  /** No loop stands anywhere in the statements. */
  predicate NoLoops(b: Block)
    decreases BlockSize(b), 1
  {
    b == [] || (NoLoopsIn(b[0]) && NoLoops(b[1..]))
  }

  predicate NoLoopsIn(s: Stmt)
    decreases StmtSize(s), 0
  {
    match s.kind
    case If(_, body, elifs, orelse) => NoLoops(body) && NoLoopsInArms(elifs) && NoLoops(ElseOf(orelse))
    case While(_, _) => false
    case For(_, _, _, _, _, _) => false
    case ForEach(_, _, _) => false
    case _ => true
  }

  predicate NoLoopsInArms(elifs: seq<Arm>)
    decreases ArmsSize(elifs), 1
  {
    elifs == [] || (NoLoops(elifs[0].body) && NoLoopsInArms(elifs[1..]))
  }

  lemma {:induction false} StaysReturns(b: Block)
    requires !FallsOff(b) && NoLoops(b) && FirstReturn(b, false).None?
    ensures AllPathsReturn(b)
    decreases BlockSize(b), 1, |b|
  {
    if |b| > 1 {
      hide FirstIn;
      assert b[1..][|b| - 2] == b[|b| - 1];
      TailFalls(b);
      StaysReturns(b[1..]);
    } else {
      assert b == [b[0]];
      LastReturns(b[0]);
      assert b[|b| - 1] == b[0];
    }
  }

  lemma {:induction false} LastReturns(s: Stmt)
    requires !FallsOff([s]) && NoLoopsIn(s) && !IsReturn(s, false) && FirstIn(ChildBlocks(s), false).None?
    ensures match s.kind
      case Return(v) => v.Some?
      case If(_, body, elifs, orelse) =>
        AllPathsReturn(body) && ArmsReturn(elifs) && orelse.Else? && AllPathsReturn(orelse.block)
      case _ => false
    decreases StmtSize(s), 0
  {
    hide FallsOff, FirstReturn, FirstIn, NoLoops, NoLoopsInArms, ChildBlocks, AllPathsReturn, ArmsReturn;
    FallsOffOne(s);
    if s.kind.If? {
      NoneInIf(s, false);
      StaysReturns(s.kind.body);
      StaysReturns(s.kind.orelse.block);
      ArmsStay(s.kind.elifs);
    }
  }

  lemma {:induction false} ArmsStay(elifs: seq<Arm>)
    requires !ArmsFallOff(elifs) && NoLoopsInArms(elifs)
    requires forall k :: 0 <= k < |elifs| ==> FirstReturn(elifs[k].body, false).None?
    ensures ArmsReturn(elifs)
    decreases ArmsSize(elifs), 1
  {
    hide FallsOff, FirstReturn, NoLoops, AllPathsReturn;
    if elifs != [] {
      StaysReturns(elifs[0].body);
      ArmsStay(elifs[1..]);
    }
  }

  /** Without loops, dead code and bare returns, all paths return exactly if no run passes
      the end. */
  lemma AllReturnExactly(b: Block)
    requires Live(b) && NoLoops(b) && JumpsBound(b, false) && FirstReturn(b, false).None?
    ensures AllPathsReturn(b) <==> !Can(b, Falls)
  {
    FallsExactly(b);
    if AllPathsReturn(b) { DivergesOrReturns(b); }
    if !FallsOff(b) { StaysReturns(b); }
  }
}
