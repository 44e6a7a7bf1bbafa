/** The first step of the layered layout (src/activity.rs): a depth-first search from
    the start keeps every edge except those that lead back onto the search's stack. */
module ForwardEdges {
  import opened FlatGraphs
  import opened FlatPaths

  /** What the search leaves behind.  `fin` orders nodes by when they were finished. */
  ghost predicate IsForward(graph: FlatGraph, start: nat, forward: seq<FlatEdge>, fin: map<nat, nat>) {
    && start in fin
    && (forall e :: e in graph.edges && e.from in fin ==> e.to in fin)
    && (forall e :: e in forward ==> e in graph.edges && e.from in fin && e.to in fin && fin[e.to] < fin[e.from])
    && (forall x :: x in fin ==> Reaches(forward, start, x))
    && (forall e :: e in graph.edges && e.from in fin && e !in forward ==> Reaches(forward, e.to, e.from))
    && (forall e :: e in forward ==> multiset(forward)[e] == multiset(graph.edges)[e])
  }

  lemma ReachesMore(edges: seq<FlatEdge>, more: seq<FlatEdge>, a: nat, b: nat)
    requires Reaches(edges, a, b) && (forall e :: e in edges ==> e in more)
    ensures Reaches(more, a, b)
  {
    var path :| IsPath(edges, a, b, path);
    PathMore(edges, more, a, b, path);
  }

  lemma {:induction false} PathMore(edges: seq<FlatEdge>, more: seq<FlatEdge>, a: nat, b: nat, path: seq<FlatEdge>)
    requires IsPath(edges, a, b, path) && (forall e :: e in edges ==> e in more)
    ensures IsPath(more, a, b, path)
    decreases |path|
  {
    if path != [] { PathMore(edges, more, path[0].to, b, path[1..]); }
  }

  lemma KeepReaches(edges: seq<FlatEdge>, more: seq<FlatEdge>)
    requires edges <= more
    ensures forall a: nat, b: nat :: Reaches(edges, a, b) ==> Reaches(more, a, b)
  {
    forall a: nat, b: nat | Reaches(edges, a, b) ensures Reaches(more, a, b) {
      ReachesMore(edges, more, a, b);
    }
  }

  /** A path up to `top` goes on to whatever `top` reaches. */
  lemma StackReaches(edges: seq<FlatEdge>, stack: seq<nat>, id: nat)
    requires forall i :: 0 <= i < |stack| ==> Reaches(edges, stack[i], stack[|stack| - 1])
    requires stack != [] ==> Reaches(edges, stack[|stack| - 1], id)
    ensures forall i :: 0 <= i <= |stack| ==> Reaches(edges, (stack + [id])[i], id)
  {
    forall i | 0 <= i <= |stack| ensures Reaches(edges, (stack + [id])[i], id) {
      if i == |stack| {
        ReachesSelf(edges, id);
      } else {
        var p :| IsPath(edges, stack[i], stack[|stack| - 1], p);
        var q :| IsPath(edges, stack[|stack| - 1], id, q);
        PathJoin(edges, stack[i], stack[|stack| - 1], id, p, q);
      }
    }
  }

  /** The search's sets and output, with ghost bookkeeping: the stack behind `active`,
      and when each node was finished. */
  datatype Progress = Progress(active: set<nat>, done: set<nat>, out: seq<FlatEdge>,
                                     stack: seq<nat>, fin: map<nat, nat>, clock: nat)

  ghost function All(graph: FlatGraph, start: nat): set<nat> { {start} + set e | e in graph.edges :: e.to }

  /** The stack is a forward path, and it is what `active` holds. */
  ghost predicate StackOk(graph: FlatGraph, start: nat, s: Progress) {
    && (forall x :: x in s.active <==> x in s.stack)
    && (forall i :: 0 <= i < |s.stack| ==> Reaches(s.out, s.stack[i], s.stack[|s.stack| - 1]))
    && (forall x :: x in s.active + s.done ==> Reaches(s.out, start, x))
    && s.active !! s.done && s.active + s.done <= All(graph, start)
  }

  ghost predicate FinOk(graph: FlatGraph, s: Progress) {
    && (forall x :: x in s.fin <==> x in s.done)
    && (forall x :: x in s.fin ==> s.fin[x] < s.clock)
    && (forall e :: e in s.out ==> e in graph.edges && e.from in s.active + s.done)
    && (forall e :: e in s.out && e.from in s.done ==> e.to in s.done && s.fin[e.to] < s.fin[e.from])
  }

  /** An edge already looked at was kept, or leads back to where it came from. */
  ghost predicate Seen(s: Progress, e: FlatEdge) {
    e.to in s.active + s.done && (e in s.out || Reaches(s.out, e.to, e.from))
  }

  ghost predicate SearchOk(graph: FlatGraph, start: nat, s: Progress) {
    && StackOk(graph, start, s) && FinOk(graph, s)
    && forall e :: e in graph.edges && e.from in s.done ==> Seen(s, e)
  }

  /** `s` has come from `s0` by finishing more nodes. */
  ghost predicate Grew(s0: Progress, s: Progress) {
    && s.active == s0.active && s.stack == s0.stack && s0.done <= s.done
    && s0.out <= s.out
    && forall e :: e in s.out ==> e in s0.out || e.from !in s0.active + s0.done
  }

  /** Half way through the edges of `id`, the top of the stack. */
  ghost predicate Scanning(graph: FlatGraph, start: nat, s0: Progress, s: Progress, id: nat, i: nat) {
    && SearchOk(graph, start, s) && i <= |graph.edges|
    && s.active == s0.active + {id} && s.stack == s0.stack + [id] && s0.done <= s.done
    && id !in s0.active && id !in s.done
    && s0.out <= s.out
    && (forall e :: e in s.out ==> e in s0.out || e.from !in s0.active + s0.done)
    && (forall e :: e in s.out && e.from == id ==> e.to in s.done)
    && (forall k :: 0 <= k < i && graph.edges[k].from == id ==> Seen(s, graph.edges[k]))
  }

  lemma EnterOk(graph: FlatGraph, start: nat, s0: Progress, id: nat)
    requires SearchOk(graph, start, s0)
    requires id !in s0.active && id !in s0.done && id in All(graph, start) && Reaches(s0.out, start, id)
    requires s0.stack != [] ==> Reaches(s0.out, s0.stack[|s0.stack| - 1], id)
    ensures Scanning(graph, start, s0, s0.(active := s0.active + {id}, stack := s0.stack + [id]), id, 0)
  {
    hide Reaches;
    var s := s0.(active := s0.active + {id}, stack := s0.stack + [id]);
    StackReaches(s0.out, s0.stack, id);
    forall e | e in graph.edges && e.from in s.done ensures Seen(s, e) { assert Seen(s0, e); }
  }

  /** An edge onto the stack is skipped. */
  lemma SkipOk(graph: FlatGraph, start: nat, s0: Progress, s: Progress, id: nat, i: nat)
    requires Scanning(graph, start, s0, s, id, i) && i < |graph.edges|
    requires graph.edges[i].from == id ==> graph.edges[i].to in s.active
    ensures Scanning(graph, start, s0, s, id, i + 1)
  {
    hide Reaches;
    if graph.edges[i].from == id {
      var k :| 0 <= k < |s.stack| && s.stack[k] == graph.edges[i].to;
      assert Seen(s, graph.edges[i]);
    }
  }

  /** Any other edge is kept. */
  lemma KeepOk(graph: FlatGraph, start: nat, s0: Progress, s: Progress, id: nat, i: nat)
    requires Scanning(graph, start, s0, s, id, i) && i < |graph.edges|
    requires graph.edges[i].from == id && graph.edges[i].to !in s.active
    ensures var e := graph.edges[i];
      var s1 := s.(out := s.out + [e]);
      && SearchOk(graph, start, s1) && Reaches(s1.out, start, e.to) && Reaches(s1.out, id, e.to)
      && (forall k :: 0 <= k < i && graph.edges[k].from == id ==> Seen(s1, graph.edges[k]))
      && e.to in All(graph, start)
  {
    hide Reaches;
    var e := graph.edges[i];
    var s1 := s.(out := s.out + [e]);
    KeepReaches(s.out, s1.out);
    assert e in s1.out by { assert s1.out[|s.out|] == e; }
    ReachesStep(s1.out, start, e);
    ReachesSelf(s1.out, id);
    ReachesStep(s1.out, id, e);
    forall f | f in graph.edges && f.from in s.done ensures Seen(s1, f) { assert Seen(s, f); }
    forall k | 0 <= k < i && graph.edges[k].from == id ensures Seen(s1, graph.edges[k]) { assert Seen(s, graph.edges[k]); }
  }

  /** The kept edge's target is done, now or before. */
  lemma KeptOk(graph: FlatGraph, start: nat, s0: Progress, s: Progress, id: nat, i: nat, s2: Progress)
    requires Scanning(graph, start, s0, s, id, i) && i < |graph.edges|
    requires graph.edges[i].from == id && graph.edges[i].to !in s.active
    requires var s1 := s.(out := s.out + [graph.edges[i]]);
      && SearchOk(graph, start, s2) && Grew(s1, s2) && graph.edges[i].to in s2.done
      && (forall k :: 0 <= k < i && graph.edges[k].from == id ==> Seen(s1, graph.edges[k]))
    ensures Scanning(graph, start, s0, s2, id, i + 1)
  {
    hide Reaches;
    var e := graph.edges[i];
    var s1 := s.(out := s.out + [e]);
    KeepReaches(s1.out, s2.out);
    assert e in s1.out by { assert s1.out[|s.out|] == e; }
    forall k | 0 <= k < i + 1 && graph.edges[k].from == id ensures Seen(s2, graph.edges[k]) {
      if k < i { assert Seen(s1, graph.edges[k]); }
    }
    forall f | f in s2.out ensures f in s0.out || f.from !in s0.active + s0.done {
      assert f in s1.out ==> f in s.out || f == e;
    }
  }

  lemma LeaveOk(graph: FlatGraph, start: nat, s0: Progress, s: Progress, id: nat)
    requires SearchOk(graph, start, s0) && Scanning(graph, start, s0, s, id, |graph.edges|)
    requires id !in s0.active
    ensures var s2 := Progress(s0.active, s.done + {id}, s.out, s0.stack, s.fin[id := s.clock], s.clock + 1);
      SearchOk(graph, start, s2) && Grew(s0, s2)
  {
    hide Reaches;
    var s2 := Progress(s0.active, s.done + {id}, s.out, s0.stack, s.fin[id := s.clock], s.clock + 1);
    KeepReaches(s0.out, s.out);
    assert s2.active + s2.done == s.active + s.done;
    forall e | e in graph.edges && e.from in s2.done ensures Seen(s2, e) {
      if e.from == id {
        var k :| 0 <= k < |graph.edges| && graph.edges[k] == e;
        assert Seen(s, graph.edges[k]);
      } else {
        assert Seen(s, e);
      }
    }
  }

  // --------------------------------------------------------- each edge once

  /** The edges kept out of a finished node are kept as often as the graph has them. */
  ghost predicate OnceOk(graph: FlatGraph, s: Progress) {
    forall e :: e in s.out && e.from in s.done ==> multiset(s.out)[e] == multiset(graph.edges)[e]
  }

  /** Nothing more was kept for nodes reached earlier. */
  ghost predicate SameCounts(s0: Progress, s: Progress) {
    forall e: FlatEdge :: e.from in s0.active + s0.done ==> multiset(s.out)[e] == multiset(s0.out)[e]
  }

  /** Of the first `i` edges, those out of `id` are kept unless they lead onto the stack. */
  ghost predicate KeptSoFar(graph: FlatGraph, s: Progress, id: nat, i: nat) {
    i <= |graph.edges| &&
    forall e: FlatEdge :: e.from == id ==>
      multiset(s.out)[e] == if e.to in s.active then 0 else multiset(graph.edges[..i])[e]
  }

  ghost predicate Counting(graph: FlatGraph, s0: Progress, s: Progress, id: nat, i: nat) {
    OnceOk(graph, s) && SameCounts(s0, s) && KeptSoFar(graph, s, id, i)
  }

  lemma EnterCounts(graph: FlatGraph, start: nat, s0: Progress, id: nat)
    requires SearchOk(graph, start, s0) && OnceOk(graph, s0) && id !in s0.active && id !in s0.done
    ensures Counting(graph, s0, s0.(active := s0.active + {id}, stack := s0.stack + [id]), id, 0)
  {
  }

  lemma OneMore(graph: FlatGraph, i: nat)
    requires i < |graph.edges|
    ensures multiset(graph.edges[..i + 1]) == multiset(graph.edges[..i])[graph.edges[i] := multiset(graph.edges[..i])[graph.edges[i]] + 1]
  {
    assert graph.edges[..i + 1] == graph.edges[..i] + [graph.edges[i]];
  }

  lemma SkipCounts(graph: FlatGraph, s0: Progress, s: Progress, id: nat, i: nat)
    requires Counting(graph, s0, s, id, i) && i < |graph.edges|
    requires graph.edges[i].from == id ==> graph.edges[i].to in s.active
    ensures Counting(graph, s0, s, id, i + 1)
  {
    OneMore(graph, i);
  }

  lemma KeepCounts(graph: FlatGraph, start: nat, s0: Progress, s: Progress, id: nat, i: nat)
    requires Scanning(graph, start, s0, s, id, i) && Counting(graph, s0, s, id, i) && i < |graph.edges|
    requires id !in s0.done && graph.edges[i].from == id && graph.edges[i].to !in s.active
    ensures var s1 := s.(out := s.out + [graph.edges[i]]);
      Counting(graph, s0, s1, id, i + 1) && OnceOk(graph, s1) && SameCounts(s1, s1) && Grew(s1, s1)
  {
    hide SearchOk;
    OneMore(graph, i);
  }

  lemma KeptCounts(graph: FlatGraph, s0: Progress, s1: Progress, s2: Progress, id: nat, i: nat)
    requires Counting(graph, s0, s1, id, i) && OnceOk(graph, s2) && SameCounts(s1, s2)
    requires Grew(s1, s2) && id in s1.active && s0.active <= s1.active && s0.done <= s1.done
    ensures Counting(graph, s0, s2, id, i)
  {
  }

  lemma LeaveCounts(graph: FlatGraph, s0: Progress, s: Progress, id: nat)
    requires Counting(graph, s0, s, id, |graph.edges|)
    ensures var s2 := Progress(s0.active, s.done + {id}, s.out, s0.stack, s.fin[id := s.clock], s.clock + 1);
      OnceOk(graph, s2) && SameCounts(s0, s2)
  {
    assert graph.edges[..|graph.edges|] == graph.edges;
  }

  /** Half way through the edges of `id`, with all counts right. */
  ghost predicate Scan(graph: FlatGraph, start: nat, s0: Progress, s: Progress, id: nat, i: nat) {
    Scanning(graph, start, s0, s, id, i) && Counting(graph, s0, s, id, i)
  }

  ghost predicate GrewOnce(s0: Progress, s: Progress) {
    Grew(s0, s) && SameCounts(s0, s)
  }

  lemma EnterScan(graph: FlatGraph, start: nat, s0: Progress, id: nat)
    requires SearchOk(graph, start, s0) && OnceOk(graph, s0)
    requires id !in s0.active && id !in s0.done && id in All(graph, start) && Reaches(s0.out, start, id)
    requires s0.stack != [] ==> Reaches(s0.out, s0.stack[|s0.stack| - 1], id)
    ensures Scan(graph, start, s0, s0.(active := s0.active + {id}, stack := s0.stack + [id]), id, 0)
  {
    hide SearchOk, Scanning, Counting;
    EnterOk(graph, start, s0, id);
    EnterCounts(graph, start, s0, id);
  }

  lemma SkipScan(graph: FlatGraph, start: nat, s0: Progress, s: Progress, id: nat, i: nat)
    requires Scan(graph, start, s0, s, id, i) && i < |graph.edges|
    requires graph.edges[i].from == id ==> graph.edges[i].to in s.active
    ensures Scan(graph, start, s0, s, id, i + 1)
  {
    hide Scanning, Counting;
    SkipOk(graph, start, s0, s, id, i);
    SkipCounts(graph, s0, s, id, i);
  }

  lemma KeepScan(graph: FlatGraph, start: nat, s0: Progress, s: Progress, id: nat, i: nat)
    requires Scan(graph, start, s0, s, id, i) && i < |graph.edges| && id !in s0.done
    requires graph.edges[i].from == id && graph.edges[i].to !in s.active
    ensures var e := graph.edges[i];
      var s1 := s.(out := s.out + [e]);
      && SearchOk(graph, start, s1) && OnceOk(graph, s1) && GrewOnce(s1, s1) && id !in s1.done
      && Reaches(s1.out, start, e.to) && Reaches(s1.out, id, e.to) && e.to in All(graph, start)
  {
    hide SearchOk, Reaches, All, Counting;
    KeepOk(graph, start, s0, s, id, i);
    KeepCounts(graph, start, s0, s, id, i);
  }

  lemma KeptScan(graph: FlatGraph, start: nat, s0: Progress, s: Progress, id: nat, i: nat, s2: Progress)
    requires Scan(graph, start, s0, s, id, i) && i < |graph.edges| && id !in s0.done
    requires graph.edges[i].from == id && graph.edges[i].to !in s.active
    requires SearchOk(graph, start, s2) && OnceOk(graph, s2) && graph.edges[i].to in s2.done
    requires GrewOnce(s.(out := s.out + [graph.edges[i]]), s2)
    ensures Scan(graph, start, s0, s2, id, i + 1)
    ensures s2.active == s.active && s2.stack == s.stack && s0.done <= s2.done
  {
    hide SearchOk, Reaches, All, Counting, OnceOk, SameCounts;
    KeepOk(graph, start, s0, s, id, i);
    KeepCounts(graph, start, s0, s, id, i);
    KeptOk(graph, start, s0, s, id, i, s2);
    KeptCounts(graph, s0, s.(out := s.out + [graph.edges[i]]), s2, id, i + 1);
  }

  lemma LeaveScan(graph: FlatGraph, start: nat, s0: Progress, s: Progress, id: nat)
    requires SearchOk(graph, start, s0) && Scan(graph, start, s0, s, id, |graph.edges|) && id !in s0.active
    ensures var s2 := Progress(s0.active, s.done + {id}, s.out, s0.stack, s.fin[id := s.clock], s.clock + 1);
      SearchOk(graph, start, s2) && OnceOk(graph, s2) && GrewOnce(s0, s2)
  {
    hide SearchOk, Scanning, Counting, Grew, OnceOk, SameCounts;
    LeaveOk(graph, start, s0, s, id);
    LeaveCounts(graph, s0, s, id);
  }

  class Search {
    const graph: FlatGraph
    const start: nat
    var active: set<nat>
    var done: set<nat>
    var out: seq<FlatEdge>
    ghost var stack: seq<nat>
    ghost var fin: map<nat, nat>
    ghost var clock: nat

    constructor (graph: FlatGraph, start: nat)
      ensures this.graph == graph && this.start == start && State() == Progress({}, {}, [], [], map[], 0)
    {
      this.graph, this.start := graph, start;
      active, done, out, stack, fin, clock := {}, {}, [], [], map[], 0;
    }

    ghost function State(): Progress reads this { Progress(active, done, out, stack, fin, clock) }

    /** Visits `id`, just reached from the top of the stack. */
    method Visit(id: nat)
      requires SearchOk(graph, start, State()) && OnceOk(graph, State())
      requires id !in active && id !in done && id in All(graph, start) && Reaches(out, start, id)
      requires stack != [] ==> Reaches(out, stack[|stack| - 1], id)
      modifies this
      ensures SearchOk(graph, start, State()) && OnceOk(graph, State())
      ensures GrewOnce(old(State()), State()) && id in done
      decreases All(graph, start) - active - done
    {
      hide SearchOk, Reaches, All, OnceOk, Scan, GrewOnce;
      ghost var s0 := State();
      EnterScan(graph, start, s0, id);
      active := active + {id};
      stack := stack + [id];
      var i := 0;
      while i < |graph.edges|
        invariant i <= |graph.edges| && Scan(graph, start, s0, State(), id, i)
        invariant active == s0.active + {id} && stack == s0.stack + [id] && s0.done <= done
      {
        var e := graph.edges[i];
        ghost var s := State();
        if e.from == id && e.to !in active {
          KeepScan(graph, start, s0, s, id, i);
          out := out + [e];
          ghost var s1 := State();
          assert All(graph, start) - active - done < All(graph, start) - s0.active - s0.done by {
            assert id in All(graph, start) - s0.active - s0.done && id !in All(graph, start) - active - done;
          }
          if e.to !in done { Visit(e.to); }
          KeptScan(graph, start, s0, s, id, i, State());
        } else {
          SkipScan(graph, start, s0, s, id, i);
        }
        i := i + 1;
      }
      LeaveScan(graph, start, s0, State(), id);
      active := active - {id};
      done := done + {id};
      stack := s0.stack;
      fin := fin[id := clock];
      clock := clock + 1;
      assert active == s0.active;
    }
  }

  /** Every edge except back-edges, so what is left has no cycles. */
  method ForwardOf(graph: FlatGraph, start: nat) returns (forward: seq<FlatEdge>, ghost fin: map<nat, nat>)
    ensures IsForward(graph, start, forward, fin)
  {
    var s := new Search(graph, start);
    ReachesSelf(s.out, start);
    s.Visit(start);
    forward := s.out;
    fin := s.fin;
  }

  // ------------------------------------------------------------ consequences

  lemma {:induction false} PathFin(graph: FlatGraph, start: nat, forward: seq<FlatEdge>, fin: map<nat, nat>,
                                   a: nat, b: nat, path: seq<FlatEdge>)
    requires IsForward(graph, start, forward, fin) && a in fin && IsPath(forward, a, b, path)
    ensures b in fin && fin[b] + |path| <= fin[a]
    decreases |path|
  {
    if path != [] { PathFin(graph, start, forward, fin, path[0].to, b, path[1..]); }
  }

  /** The forward edges form no cycle. */
  lemma Acyclic(graph: FlatGraph, start: nat, forward: seq<FlatEdge>, fin: map<nat, nat>, a: nat, path: seq<FlatEdge>)
    requires IsForward(graph, start, forward, fin) && IsPath(forward, a, a, path)
    ensures path == []
  {
    if path != [] { PathFin(graph, start, forward, fin, a, a, path); }
  }

  /** The search covers exactly what the start reaches in the whole graph. */
  lemma CoversReachable(graph: FlatGraph, start: nat, forward: seq<FlatEdge>, fin: map<nat, nat>, x: nat)
    requires IsForward(graph, start, forward, fin)
    ensures x in fin <==> Reaches(graph.edges, start, x)
  {
    if x in fin { ReachesMore(forward, graph.edges, start, x); }
    if Reaches(graph.edges, start, x) {
      var path :| IsPath(graph.edges, start, x, path);
      PathStays(graph.edges, start, x, path, fin.Keys);
    }
  }

  /** An edge is dropped exactly when it closes a cycle of forward edges. */
  lemma DroppedIffBack(graph: FlatGraph, start: nat, forward: seq<FlatEdge>, fin: map<nat, nat>, e: FlatEdge)
    requires IsForward(graph, start, forward, fin) && e in graph.edges && e.from in fin
    ensures e !in forward <==> Reaches(forward, e.to, e.from)
  {
    if e in forward && Reaches(forward, e.to, e.from) {
      var path :| IsPath(forward, e.to, e.from, path);
      PathFin(graph, start, forward, fin, e.to, e.from, path);
    }
  }
}
