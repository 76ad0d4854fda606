/** Closing an open triangle mesh: trace its boundary loops and cap each with a
    fan about a new vertex. */
module MeshCapping {

  datatype Edge = Edge(a: nat, b: nat)

  datatype Triangle = Triangle(a: nat, b: nat, c: nat)

  function Reverse(e: Edge): Edge { Edge(e.b, e.a) }

  function Sides(t: Triangle): seq<Edge> { [Edge(t.a, t.b), Edge(t.b, t.c), Edge(t.c, t.a)] }

  function Sighted(s: seq<Edge>, e: Edge): nat
    requires |s| == 3
  {
    (if s[0] == e then 1 else 0) + (if s[1] == e then 1 else 0) + (if s[2] == e then 1 else 0)
  }

  /** How often a directed edge occurs. */
  function Count(faces: seq<Triangle>, e: Edge): nat {
    if faces == [] then 0
    else
      Sighted(Sides(faces[0]), e) + Count(faces[1..], e)
  }

  function Directed(faces: seq<Triangle>): set<Edge> {
    if faces == [] then {} else Directed(faces[1..]) + {Edge(faces[0].a, faces[0].b), Edge(faces[0].b, faces[0].c), Edge(faces[0].c, faces[0].a)}
  }

  /** Every directed edge of the mesh occurs exactly once. */
  ghost predicate Oriented(faces: seq<Triangle>) {
    forall e :: Count(faces, e) <= 1
  }

  /** Closed: every directed edge occurs exactly once, and so does its reverse. */
  ghost predicate Closed(faces: seq<Triangle>) {
    Oriented(faces) && forall e :: Count(faces, e) == Count(faces, Reverse(e))
  }

  ghost function Boundary(faces: seq<Triangle>): set<Edge> {
    set e | e in Directed(faces) && Reverse(e) !in Directed(faces)
  }

  /** No vertex has two outgoing boundary edges. */
  ghost predicate Unforked(boundary: set<Edge>) {
    forall e, f :: e in boundary && f in boundary && e.a == f.a ==> e == f
  }

  lemma {:induction false} DirectedCounts(faces: seq<Triangle>, e: Edge)
    ensures e in Directed(faces) <==> Count(faces, e) > 0
  {
    if faces != [] { DirectedCounts(faces[1..], e); }
  }

  lemma {:induction false} CountSplits(a: seq<Triangle>, b: seq<Triangle>, e: Edge)
    ensures Count(a + b, e) == Count(a, e) + Count(b, e)
  {
    if a == [] {
      assert a + b == b;
    } else {
      assert (a + b)[1..] == a[1..] + b;
      CountSplits(a[1..], b, e);
    }
  }

  lemma CountOne(t: Triangle, e: Edge)
    ensures Count([t], e) == Sighted(Sides(t), e)
  {
    assert [t][1..] == [];
  }

  // ---------------------------------------------------------------- degrees

  function Out(edges: set<Edge>, v: nat): set<Edge> { set e | e in edges && e.a == v }

  function In(edges: set<Edge>, v: nat): set<Edge> { set e | e in edges && e.b == v }

  lemma AddEdge(edges: set<Edge>, e: Edge, v: nat)
    requires e !in edges
    ensures |Out(edges + {e}, v)| == |Out(edges, v)| + (if e.a == v then 1 else 0)
    ensures |In(edges + {e}, v)| == |In(edges, v)| + (if e.b == v then 1 else 0)
  {
    assert Out(edges + {e}, v) == if e.a == v then Out(edges, v) + {e} else Out(edges, v);
    assert In(edges + {e}, v) == if e.b == v then In(edges, v) + {e} else In(edges, v);
  }

  lemma OrientedTail(faces: seq<Triangle>)
    requires Oriented(faces) && faces != []
    ensures Oriented(faces[1..])
    ensures var s := Sides(faces[0]);
      && s[0] !in Directed(faces[1..]) && s[1] !in Directed(faces[1..]) && s[2] !in Directed(faces[1..])
      && s[0] != s[1] && s[1] != s[2] && s[2] != s[0]
  {
    var s := Sides(faces[0]);
    forall e ensures Count(faces[1..], e) <= 1 { assert Count(faces, e) <= 1; }
    DirectedCounts(faces[1..], s[0]);
    DirectedCounts(faces[1..], s[1]);
    DirectedCounts(faces[1..], s[2]);
    assert Count(faces, s[0]) <= 1 && Count(faces, s[1]) <= 1 && Count(faces, s[2]) <= 1;
  }

  /** A triangle leaves each of its corners as often as it enters it. */
  lemma {:induction false} DegreesBalance(faces: seq<Triangle>, v: nat)
    requires Oriented(faces)
    ensures |Out(Directed(faces), v)| == |In(Directed(faces), v)|
  {
    if faces == [] {
      assert Out({}, v) == {} && In({}, v) == {};
    } else {
      OrientedTail(faces);
      DegreesBalance(faces[1..], v);
      var d, s := Directed(faces[1..]), Sides(faces[0]);
      AddEdge(d, s[0], v);
      AddEdge(d + {s[0]}, s[1], v);
      AddEdge(d + {s[0]} + {s[1]}, s[2], v);
      assert Directed(faces) == d + {s[0]} + {s[1]} + {s[2]};
    }
  }

  lemma {:induction false} ReversedSize(edges: set<Edge>, reversed: set<Edge>)
    requires forall e :: e in edges <==> Reverse(e) in reversed
    ensures |edges| == |reversed|
    decreases edges
  {
    if edges == {} {
      forall e ensures e !in reversed { assert Reverse(Reverse(e)) == e && Reverse(e) !in edges; }
      assert reversed == {};
    } else {
      var e :| e in edges;
      forall f ensures f in edges - {e} <==> Reverse(f) in reversed - {Reverse(e)} {
        assert Reverse(Reverse(f)) == f && Reverse(Reverse(e)) == e;
      }
      ReversedSize(edges - {e}, reversed - {Reverse(e)});
    }
  }

  /** At every vertex as many boundary edges arrive as leave. */
  lemma BoundaryBalances(faces: seq<Triangle>, v: nat)
    requires Oriented(faces)
    ensures |Out(Boundary(faces), v)| == |In(Boundary(faces), v)|
  {
    var d, b := Directed(faces), Boundary(faces);
    var inner := d - b;
    DegreesBalance(faces, v);
    assert Out(d, v) == Out(inner, v) + Out(b, v) && Out(inner, v) !! Out(b, v);
    assert In(d, v) == In(inner, v) + In(b, v) && In(inner, v) !! In(b, v);
    forall e ensures e in Out(inner, v) <==> Reverse(e) in In(inner, v) {
      assert Reverse(Reverse(e)) == e;
    }
    ReversedSize(Out(inner, v), In(inner, v));
  }

  // ---------------------------------------------------------------- the boundary map

  type Successor = map<nat, nat>

  /** A dictionary built from the boundary edges holds, for every vertex some
      edge leaves, one of those edges. */
  ghost predicate Draws(next: Successor, boundary: set<Edge>) {
    && (forall v :: v in next ==> Edge(v, next[v]) in boundary)
    && (forall e :: e in boundary ==> e.a in next)
  }

  function Succ(next: Successor, v: nat): nat
    requires v in next
  {
    next[v]
  }

  ghost predicate Closes(next: Successor) {
    forall v {:trigger Succ(next, v)} :: v in next ==> Succ(next, v) in next
  }

  ghost predicate Injective(next: Successor) {
    forall u, v {:trigger next[u], next[v]} :: u in next && v in next && next[u] == next[v] ==> u == v
  }

  /** A permutation of its keys: there are finitely many, so staying among them
      and never meeting is enough. */
  ghost predicate Permutation(next: Successor) {
    Closes(next) && Injective(next)
  }

  lemma AtMostOne(edges: set<Edge>)
    requires forall e, f :: e in edges && f in edges ==> e == f
    ensures |edges| <= 1
  {
    if edges != {} {
      var e :| e in edges;
      assert edges == {e};
    }
  }

  lemma Alone(edges: set<Edge>, e: Edge)
    requires e in edges && |edges| <= 1
    ensures edges == {e}
  {
    assert |edges - {e}| == |edges| - 1;
    assert edges - {e} == {};
  }

  /** Out of and into every vertex runs the same number of boundary edges: one,
      or none at all. */
  lemma AtMostOneArrives(faces: seq<Triangle>, v: nat)
    requires Oriented(faces) && Unforked(Boundary(faces))
    ensures |In(Boundary(faces), v)| == |Out(Boundary(faces), v)| <= 1
  {
    BoundaryBalances(faces, v);
    AtMostOne(Out(Boundary(faces), v));
  }

  /** What arrives at a boundary vertex leaves it again, forked or not. */
  lemma ArrivalsLeave(faces: seq<Triangle>, e: Edge)
    requires Oriented(faces) && e in Boundary(faces)
    ensures exists f :: f in Boundary(faces) && f.a == e.b
  {
    var b := Boundary(faces);
    BoundaryBalances(faces, e.b);
    assert e in In(b, e.b);
    assert Out(b, e.b) != {};
    var f :| f in Out(b, e.b);
  }

  lemma ArriveTogether(faces: seq<Triangle>, e: Edge, f: Edge)
    requires Oriented(faces) && Unforked(Boundary(faces))
    requires e in Boundary(faces) && f in Boundary(faces) && e.b == f.b
    ensures e == f
  {
    var arriving := In(Boundary(faces), e.b);
    AtMostOneArrives(faces, e.b);
    Alone(arriving, e);
    assert f in arriving;
  }

  /** The edge the dictionary holds is the only one leaving its vertex. */
  lemma DrawsAll(next: Successor, boundary: set<Edge>, e: Edge)
    requires Unforked(boundary) && Draws(next, boundary) && e in boundary
    ensures e.a in next && next[e.a] == e.b
  {
    assert Edge(e.a, next[e.a]) in boundary;
  }

  lemma SuccessorExists(faces: seq<Triangle>, next: Successor, v: nat)
    requires Oriented(faces) && Draws(next, Boundary(faces)) && v in next
    ensures next[v] in next
  {
    ArrivalsLeave(faces, Edge(v, next[v]));
  }

  lemma StaysOnBoundary(faces: seq<Triangle>, next: Successor)
    requires Oriented(faces) && Draws(next, Boundary(faces))
    ensures Closes(next)
  {
    forall v | v in next ensures Succ(next, v) in next {
      SuccessorExists(faces, next, v);
    }
  }

  lemma NeverMeets(faces: seq<Triangle>, next: Successor)
    requires Oriented(faces) && Unforked(Boundary(faces)) && Draws(next, Boundary(faces))
    ensures Injective(next)
  {
    forall u, v | u in next && v in next && next[u] == next[v] ensures u == v {
      ArriveTogether(faces, Edge(u, next[u]), Edge(v, next[v]));
    }
  }

  /** On an oriented mesh with an unforked boundary the boundary map permutes
      its vertices: what leaves a vertex once also arrives once. */
  lemma BoundaryPermutes(faces: seq<Triangle>, next: Successor)
    requires Oriented(faces) && Unforked(Boundary(faces)) && Draws(next, Boundary(faces))
    ensures Permutation(next)
  {
    StaysOnBoundary(faces, next);
    NeverMeets(faces, next);
  }

  // ---------------------------------------------------------------- counting

  ghost predicate Counted(directed: map<Edge, nat>, order: seq<Edge>) {
    && (forall i, j :: 0 <= i < j < |order| ==> order[i] != order[j])
    && (forall e :: e in order <==> e in directed)
    && (forall e :: e in directed ==> directed[e] > 0)
  }

  function Tally(directed: map<Edge, nat>, e: Edge): nat { if e in directed then directed[e] else 0 }

  function Keyed(order: seq<Edge>, e: Edge): seq<Edge> { if e in order then order else order + [e] }

  /** The directed edges in the order they are first seen. */
  function FirstSeen(faces: seq<Triangle>): seq<Edge> {
    if faces == [] then []
    else
      var k := |faces| - 1;
      var s := Sides(faces[k]);
      Keyed(Keyed(Keyed(FirstSeen(faces[..k]), s[0]), s[1]), s[2])
  }

  /** One more sighting of an edge; a dictionary keeps first-seen order. */
  method Bump(directed: map<Edge, nat>, order: seq<Edge>, e: Edge) returns (counts: map<Edge, nat>, keys: seq<Edge>)
    requires Counted(directed, order)
    ensures Counted(counts, keys) && keys == Keyed(order, e)
    ensures forall f :: Tally(counts, f) == Tally(directed, f) + (if f == e then 1 else 0)
  {
    counts := directed[e := Tally(directed, e) + 1];
    keys := if e in directed then order else order + [e];
  }

  lemma OneMoreTriangle(faces: seq<Triangle>, n: nat)
    requires n < |faces|
    ensures var s := Sides(faces[n]);
      && FirstSeen(faces[..n + 1]) == Keyed(Keyed(Keyed(FirstSeen(faces[..n]), s[0]), s[1]), s[2])
      && forall e :: Count(faces[..n + 1], e) == Count(faces[..n], e) + Sighted(s, e)
  {
    assert faces[..n + 1][..n] == faces[..n];
    forall e ensures Count(faces[..n + 1], e) == Count(faces[..n], e) + Sighted(Sides(faces[n]), e) {
      assert faces[..n + 1] == faces[..n] + [faces[n]];
      CountSplits(faces[..n], [faces[n]], e);
      CountOne(faces[n], e);
    }
  }

  /** The edge counter holds exactly the multiplicities of the directed edges. */
  method CountEdges(faces: seq<Triangle>) returns (directed: map<Edge, nat>, order: seq<Edge>)
    ensures Counted(directed, order) && order == FirstSeen(faces)
    ensures forall e :: Tally(directed, e) == Count(faces, e)
  {
    directed, order := map[], [];
    assert FirstSeen(faces[..0]) == [] && forall e :: Count(faces[..0], e) == 0;
    hide FirstSeen, Count, Counted, Keyed;
    assert Counted(directed, order) by { NothingCounted(); }
    for n := 0 to |faces|
      invariant Counted(directed, order) && order == FirstSeen(faces[..n])
      invariant forall e :: Tally(directed, e) == Count(faces[..n], e)
    {
      var s := Sides(faces[n]);
      OneMoreTriangle(faces, n);
      directed, order := Bump(directed, order, s[0]);
      directed, order := Bump(directed, order, s[1]);
      directed, order := Bump(directed, order, s[2]);
    }
    assert faces[..|faces|] == faces;
  }

  lemma NothingCounted()
    ensures Counted(map[], [])
  {}

  /** What a dictionary makes of a list of edges, some of them on the boundary:
      where two start at one vertex the later one wins. */
  ghost function Entered(order: seq<Edge>, boundary: set<Edge>): Successor {
    if order == [] then map[]
    else
      var k := |order| - 1;
      var next, e := Entered(order[..k], boundary), order[k];
      if e in boundary then next[e.a := e.b] else next
  }

  /** The boundary map of a mesh, as the script enters it. */
  ghost function Boundaries(faces: seq<Triangle>): Successor { Entered(FirstSeen(faces), Boundary(faces)) }

  lemma EnteredSteps(order: seq<Edge>, n: nat, boundary: set<Edge>)
    requires n < |order|
    ensures Entered(order[..n + 1], boundary)
      == if order[n] in boundary then Entered(order[..n], boundary)[order[n].a := order[n].b] else Entered(order[..n], boundary)
  {
    assert order[..n + 1][..n] == order[..n];
  }

  /** The dictionary of boundary edges, keyed by where each starts. */
  method BoundaryMap(faces: seq<Triangle>, directed: map<Edge, nat>, order: seq<Edge>)
    returns (next: Successor, starts: seq<nat>)
    requires Counted(directed, order) && forall e :: Tally(directed, e) == Count(faces, e)
    ensures Draws(next, Boundary(faces)) && next == Entered(order, Boundary(faces))
    ensures forall v :: v in starts <==> v in next
  {
    next, starts := map[], [];
    forall e ensures e in directed <==> e in Directed(faces) {
      DirectedCounts(faces, e);
      assert Tally(directed, e) == Count(faces, e);
    }
    for n := 0 to |order|
      invariant next == Entered(order[..n], Boundary(faces))
      invariant forall v :: v in next ==> Edge(v, next[v]) in Boundary(faces)
      invariant forall i :: 0 <= i < n && order[i] in Boundary(faces) ==> order[i].a in next
      invariant forall v :: v in starts <==> v in next
    {
      var e := order[n];
      EnteredSteps(order, n, Boundary(faces));
      if Reverse(e) !in directed {
        if e.a !in next { starts := starts + [e.a]; }
        next := next[e.a := e.b];
      }
    }
    assert order[..|order|] == order;
  }

  // ---------------------------------------------------------------- tracing

  type Loop = seq<nat>

  function After(loop: Loop, i: nat): nat
    requires i < |loop|
  {
    loop[if i + 1 == |loop| then 0 else i + 1]
  }

  /** A cycle of the boundary map. */
  ghost predicate Cycles(next: Successor, loop: Loop) {
    && |loop| > 0
    && (forall i :: 0 <= i < |loop| ==> loop[i] in next)
    && (forall i {:trigger After(loop, i)} :: 0 <= i < |loop| ==> next[loop[i]] == After(loop, i))
  }

  ghost predicate Distinct(loop: Loop) {
    forall i, j :: 0 <= i < |loop| && 0 <= j < |loop| && loop[i] == loop[j] ==> i == j
  }

  ghost predicate Apart(loops: seq<Loop>) {
    forall i, j, v :: 0 <= i < |loops| && 0 <= j < |loops| && v in loops[i] && v in loops[j] ==> i == j
  }

  /** The loops partition the keys of the map into its cycles. */
  ghost predicate Traced(next: Successor, loops: seq<Loop>) {
    AllCycles(next, loops) && Apart(loops)
    && (forall v :: v in next ==> exists i :: 0 <= i < |loops| && v in loops[i])
  }

  ghost predicate Seen(seen: set<nat>, loops: seq<Loop>) {
    && (forall v :: v in seen ==> exists i :: 0 <= i < |loops| && v in loops[i])
    && (forall i, v :: 0 <= i < |loops| && v in loops[i] ==> v in seen)
  }

  /** A set of vertices no boundary edge enters or leaves. */
  ghost predicate Sealed(next: Successor, seen: set<nat>) {
    forall v {:trigger next[v]} :: v in next ==> (v in seen <==> next[v] in seen)
  }

  /** A walk along the map that has not yet come round. */
  ghost predicate Walk(next: Successor, seen: set<nat>, loop: Loop) {
    && |loop| > 0 && Distinct(loop)
    && (forall i :: 0 <= i < |loop| ==> loop[i] in next && loop[i] !in seen)
    && (forall i {:trigger next[loop[i]]} :: 0 <= i < |loop| - 1 ==> next[loop[i]] == loop[i + 1])
  }

  function Rim(loop: Loop): set<nat> { set v | v in loop }

  function Last(loop: Loop): nat
    requires |loop| > 0
  {
    loop[|loop| - 1]
  }

  /** The walk can only come back to where it began: any other vertex on it is
      already the successor of its neighbour. */
  lemma StepIsNew(next: Successor, seen: set<nat>, loop: Loop)
    requires Injective(next) && Walk(next, seen, loop) && next[Last(loop)] != loop[0]
    ensures next[Last(loop)] !in loop
  {
    forall j | 0 < j < |loop| ensures loop[j] != next[Last(loop)] {
      assert next[loop[j - 1]] == loop[j];
      assert loop[j - 1] != Last(loop);
    }
  }

  lemma StepWalks(next: Successor, seen: set<nat>, loop: Loop)
    requires Permutation(next) && Sealed(next, seen) && Walk(next, seen, loop) && next[Last(loop)] != loop[0]
    ensures Walk(next, seen, loop + [next[Last(loop)]])
  {
    StepIsNew(next, seen, loop);
    assert Last(loop) in next && Last(loop) !in seen;
    assert Succ(next, Last(loop)) in next;
  }

  lemma WalkCloses(next: Successor, seen: set<nat>, loop: Loop)
    requires Walk(next, seen, loop) && next[Last(loop)] == loop[0]
    ensures Cycles(next, loop)
  {
  }

  lemma Grown(seen: set<nat>, loop: Loop, v: nat)
    ensures seen + Rim(loop) + {v} == seen + Rim(loop + [v])
  {
  }

  /** Follow the map from an unseen vertex until it comes round. */
  method TraceLoop(next: Successor, start: nat, seen: set<nat>) returns (loop: Loop, marked: set<nat>)
    requires Permutation(next) && Sealed(next, seen) && start in next && start !in seen
    ensures Walk(next, seen, loop) && Cycles(next, loop) && loop[0] == start
    ensures marked == seen + Rim(loop)
  {
    loop, marked := [start], seen + {start};
    var v := next[start];
    assert marked == seen + Rim(loop);
    while v != start
      invariant Walk(next, seen, loop) && loop[0] == start && v == next[Last(loop)]
      invariant marked == seen + Rim(loop)
      decreases next.Keys - Rim(loop)
    {
      StepWalks(next, seen, loop);
      StepIsNew(next, seen, loop);
      ghost var was := loop;
      Grown(seen, loop, v);
      loop := loop + [v];
      marked := marked + {v};
      assert v in next.Keys - Rim(was) && Rim(loop) == Rim(was) + {v};
      v := next[v];
    }
    WalkCloses(next, seen, loop);
  }

  /** A cycle neither loses a vertex to the rest nor gains one. */
  lemma CycleHolds(next: Successor, loop: Loop, v: nat)
    requires Injective(next) && Cycles(next, loop) && v in next
    ensures v in loop <==> next[v] in loop
  {
    if v in loop {
      var i :| 0 <= i < |loop| && loop[i] == v;
      assert next[v] == After(loop, i);
    }
    if next[v] in loop {
      var j :| 0 <= j < |loop| && loop[j] == next[v];
      var i := if j == 0 then |loop| - 1 else j - 1;
      assert After(loop, i) == loop[j] && next[loop[i]] == next[v];
    }
  }

  lemma LoopIsSealed(next: Successor, seen: set<nat>, loop: Loop)
    requires Injective(next) && Sealed(next, seen) && Cycles(next, loop)
    ensures Sealed(next, seen + Rim(loop))
  {
    forall v | v in next ensures v in Rim(loop) <==> next[v] in Rim(loop) {
      CycleHolds(next, loop, v);
    }
  }

  ghost predicate AllCycles(next: Successor, loops: seq<Loop>) {
    forall i :: 0 <= i < |loops| ==> Cycles(next, loops[i]) && Distinct(loops[i])
  }

  lemma Grow(next: Successor, seen: set<nat>, loops: seq<Loop>, loop: Loop)
    requires AllCycles(next, loops) && Apart(loops) && Seen(seen, loops)
    requires Cycles(next, loop) && Walk(next, seen, loop)
    ensures AllCycles(next, loops + [loop]) && Apart(loops + [loop]) && Seen(seen + Rim(loop), loops + [loop])
  {
    var more := loops + [loop];
    assert more[|loops|] == loop;
    forall v | v in seen ensures exists i :: 0 <= i < |more| && v in more[i] {
      var i :| 0 <= i < |loops| && v in loops[i];
      assert more[i] == loops[i];
    }
  }

  /** Loop tracing ends, and its loops are the cycles of the boundary map: each
      boundary vertex lies on exactly one, at exactly one place. */
  method TraceLoops(next: Successor, starts: seq<nat>) returns (loops: seq<Loop>)
    requires Permutation(next) && forall v :: v in starts <==> v in next
    ensures Traced(next, loops)
  {
    var seen: set<nat> := {};
    loops := [];
    for n := 0 to |starts|
      invariant AllCycles(next, loops) && Apart(loops) && Seen(seen, loops) && Sealed(next, seen)
      invariant forall i :: 0 <= i < n ==> starts[i] in seen
    {
      var start := starts[n];
      if start !in seen {
        var loop, marked := TraceLoop(next, start, seen);
        LoopIsSealed(next, seen, loop);
        Grow(next, seen, loops, loop);
        assert start == loop[0] && start in Rim(loop);
        loops, seen := loops + [loop], marked;
      }
    }
    forall v | v in next ensures exists i :: 0 <= i < |loops| && v in loops[i] {
      assert v in starts && v in seen;
    }
  }

  // ---------------------------------------------------------------- fans

  function FanTriangle(loop: Loop, i: nat, center: nat): Triangle
    requires i < |loop|
  {
    Triangle(After(loop, i), loop[i], center)
  }

  /** The first n triangles of the fan over a loop. */
  function Fan(loop: Loop, n: nat, center: nat): seq<Triangle>
    requires n <= |loop|
  {
    if n == 0 then [] else Fan(loop, n - 1, center) + [FanTriangle(loop, n - 1, center)]
  }

  /** The fans over all loops, each about its own new vertex. */
  function Caps(loops: seq<Loop>, base: nat): seq<Triangle> {
    if loops == [] then []
    else
      var k := |loops| - 1;
      Caps(loops[..k], base) + Fan(loops[k], |loops[k]|, base + k)
  }

  /** Whether e is the edge at place i of the loop, turned round. */
  predicate RimEdge(loop: Loop, i: nat, e: Edge)
    requires i < |loop|
  {
    e == Edge(After(loop, i), loop[i])
  }

  function One(yes: bool): nat { if yes then 1 else 0 }

  predicate Rims(loop: Loop, n: nat, e: Edge)
    requires n <= |loop|
  {
    exists i {:trigger RimEdge(loop, i, e)} :: 0 <= i < n && RimEdge(loop, i, e)
  }

  predicate Leaves(loop: Loop, n: nat, v: nat)
    requires n <= |loop|
  {
    exists i :: 0 <= i < n && loop[i] == v
  }

  predicate Arrives(loop: Loop, n: nat, v: nat)
    requires n <= |loop|
  {
    exists i {:trigger After(loop, i)} :: 0 <= i < n && After(loop, i) == v
  }

  lemma NextStep(loop: Loop, n: nat, e: Edge)
    requires Distinct(loop) && n < |loop|
    ensures One(Rims(loop, n + 1, e)) == One(Rims(loop, n, e)) + One(RimEdge(loop, n, e))
    ensures One(Leaves(loop, n + 1, e.a)) == One(Leaves(loop, n, e.a)) + One(loop[n] == e.a)
    ensures One(Arrives(loop, n + 1, e.b)) == One(Arrives(loop, n, e.b)) + One(After(loop, n) == e.b)
  {
    assert RimEdge(loop, n, e) ==> Rims(loop, n + 1, e);
    assert loop[n] == e.a ==> Leaves(loop, n + 1, e.a);
    assert After(loop, n) == e.b ==> Arrives(loop, n + 1, e.b);
    forall i, j | 0 <= i < |loop| && 0 <= j < |loop| && After(loop, i) == After(loop, j) ensures i == j {
    }
  }

  /** A partial fan holds each turned rim edge, and each spoke in both
      directions, once. */
  lemma {:induction false} FanCounts(loop: Loop, n: nat, center: nat, e: Edge)
    requires Distinct(loop) && center !in loop && n <= |loop|
    ensures Count(Fan(loop, n, center), e)
      == One(Rims(loop, n, e)) + One(e.b == center && Leaves(loop, n, e.a)) + One(e.a == center && Arrives(loop, n, e.b))
  {
    if n > 0 {
      FanCounts(loop, n - 1, center, e);
      NextStep(loop, n - 1, e);
      var t := FanTriangle(loop, n - 1, center);
      CountSplits(Fan(loop, n - 1, center), [t], e);
      CountOne(t, e);
    }
  }

  lemma AllAround(next: Successor, loop: Loop, e: Edge)
    requires Cycles(next, loop)
    ensures Leaves(loop, |loop|, e.a) <==> e.a in loop
    ensures Arrives(loop, |loop|, e.b) <==> e.b in loop
    ensures Rims(loop, |loop|, e) <==> e.b in loop && next[e.b] == e.a
  {
    if e.b in loop {
      var j :| 0 <= j < |loop| && loop[j] == e.b;
      var i := if j == 0 then |loop| - 1 else j - 1;
      assert After(loop, i) == e.b;
      assert After(loop, j) == next[e.b];
      assert next[e.b] == e.a ==> RimEdge(loop, j, e);
    }
    if Rims(loop, |loop|, e) {
      var i :| 0 <= i < |loop| && RimEdge(loop, i, e);
      assert next[loop[i]] == After(loop, i);
    }
  }

  /** Whether v is the new vertex of a loop that u lies on. */
  predicate Spoke(loops: seq<Loop>, base: nat, u: nat, v: nat) {
    base <= v < base + |loops| && u in loops[v - base]
  }

  predicate OnSome(loops: seq<Loop>, v: nat) { exists k :: 0 <= k < |loops| && v in loops[k] }

  /** Whether e is a boundary edge, turned round, that some loop runs along. */
  predicate Turned(next: Successor, e: Edge) { e.b in next && next[e.b] == e.a }

  ghost predicate Below(loops: seq<Loop>, base: nat) {
    forall k, v :: 0 <= k < |loops| && v in loops[k] ==> v < base
  }

  lemma MoreLoops(loops: seq<Loop>, loop: Loop, base: nat, u: nat, v: nat)
    requires Below(loops + [loop], base) && Apart(loops + [loop])
    ensures One(Spoke(loops + [loop], base, u, v)) == One(Spoke(loops, base, u, v)) + One(v == base + |loops| && u in loop)
    ensures One(OnSome(loops + [loop], u)) == One(OnSome(loops, u)) + One(u in loop)
  {
    var more := loops + [loop];
    assert more[|loops|] == loop;
    assert u in loop ==> OnSome(more, u);
    if OnSome(loops, u) {
      var k :| 0 <= k < |loops| && u in loops[k];
      assert more[k] == loops[k] && u in more[k];
    }
  }

  lemma FewerLoops(next: Successor, loops: seq<Loop>, base: nat)
    requires AllCycles(next, loops) && Apart(loops) && Below(loops, base) && |loops| > 0
    ensures var k := |loops| - 1;
      && AllCycles(next, loops[..k]) && Apart(loops[..k]) && Below(loops[..k], base)
      && Cycles(next, loops[k]) && Distinct(loops[k]) && base + k !in loops[k] && loops[..k] + [loops[k]] == loops
  {
  }

  /** What the caps contribute at every directed edge. */
  lemma {:induction false} CapsCount(next: Successor, loops: seq<Loop>, base: nat, e: Edge)
    requires AllCycles(next, loops) && Apart(loops) && Below(loops, base)
    ensures Count(Caps(loops, base), e)
      == One(OnSome(loops, e.b) && Turned(next, e)) + One(Spoke(loops, base, e.a, e.b)) + One(Spoke(loops, base, e.b, e.a))
  {
    if loops != [] {
      FewerLoops(next, loops, base);
      var k := |loops| - 1;
      CapsCount(next, loops[..k], base, e);
      CountSplits(Caps(loops[..k], base), Fan(loops[k], |loops[k]|, base + k), e);
      FanCounts(loops[k], |loops[k]|, base + k, e);
      AllAround(next, loops[k], e);
      MoreLoops(loops[..k], loops[k], base, e.a, e.b);
      MoreLoops(loops[..k], loops[k], base, e.b, e.a);
      assert e.b in loops[k] ==> e.b in next;
    }
  }

  // ---------------------------------------------------------------- closure

  /** Every corner names one of the first n vertices. */
  ghost predicate Bounded(faces: seq<Triangle>, n: nat) {
    forall i :: 0 <= i < |faces| ==> faces[i].a < n && faces[i].b < n && faces[i].c < n
  }

  lemma {:induction false} BoundedCounts(faces: seq<Triangle>, n: nat, e: Edge)
    requires Bounded(faces, n) && Count(faces, e) > 0
    ensures e.a < n && e.b < n
  {
    assert faces != [];
    if Count(faces[1..], e) > 0 {
      BoundedCounts(faces[1..], n, e);
    }
  }

  lemma KeysBelow(faces: seq<Triangle>, n: nat, next: Successor, loops: seq<Loop>)
    requires Bounded(faces, n) && Draws(next, Boundary(faces)) && AllCycles(next, loops)
    ensures Below(loops, n)
  {
    forall k, v | 0 <= k < |loops| && v in loops[k] ensures v < n {
      assert v in next && Edge(v, next[v]) in Boundary(faces);
      DirectedCounts(faces, Edge(v, next[v]));
      BoundedCounts(faces, n, Edge(v, next[v]));
    }
  }

  /** What the whole capped mesh holds at every directed edge. */
  lemma CappedCount(faces: seq<Triangle>, n: nat, next: Successor, loops: seq<Loop>, e: Edge)
    requires Bounded(faces, n) && Draws(next, Boundary(faces)) && Traced(next, loops)
    ensures Count(faces + Caps(loops, n), e)
      == Count(faces, e) + One(Turned(next, e)) + One(Spoke(loops, n, e.a, e.b)) + One(Spoke(loops, n, e.b, e.a))
    ensures Count(faces, e) > 0 || Turned(next, e) ==> e.a < n && e.b < n
    ensures !(Spoke(loops, n, e.a, e.b) && Spoke(loops, n, e.b, e.a))
    ensures Spoke(loops, n, e.a, e.b) || Spoke(loops, n, e.b, e.a) ==> e.a >= n || e.b >= n
  {
    KeysBelow(faces, n, next, loops);
    CountSplits(faces, Caps(loops, n), e);
    CapsCount(next, loops, n, e);
    assert e.b in next ==> OnSome(loops, e.b);
    if Count(faces, e) > 0 { BoundedCounts(faces, n, e); }
    if Turned(next, e) {
      var f := Edge(e.b, next[e.b]);
      assert f in Boundary(faces);
      DirectedCounts(faces, f);
      BoundedCounts(faces, n, f);
    }
  }

  /** The closed mesh, edge by edge: an edge is matched exactly when the
      dictionary missed no boundary edge. */
  lemma EdgeMatched(faces: seq<Triangle>, n: nat, next: Successor, loops: seq<Loop>, e: Edge)
    requires Oriented(faces) && Bounded(faces, n) && Draws(next, Boundary(faces)) && Traced(next, loops)
    requires e in Boundary(faces) ==> next[e.a] == e.b
    requires Reverse(e) in Boundary(faces) ==> next[e.b] == e.a
    ensures Count(faces + Caps(loops, n), e) == Count(faces + Caps(loops, n), Reverse(e)) <= 1
  {
    var r := Reverse(e);
    assert Reverse(r) == e;
    CappedCount(faces, n, next, loops, e);
    CappedCount(faces, n, next, loops, r);
    DirectedCounts(faces, e);
    DirectedCounts(faces, r);
    assert Count(faces, e) <= 1 && Count(faces, r) <= 1;
    assert e in Boundary(faces) <==> Count(faces, e) == 1 && Count(faces, r) == 0;
    assert r in Boundary(faces) <==> Count(faces, r) == 1 && Count(faces, e) == 0;
    assert Turned(next, e) ==> Edge(e.b, next[e.b]) == r && r in Boundary(faces);
    assert Turned(next, r) ==> Edge(e.a, next[e.a]) == e && e in Boundary(faces);
  }

  lemma EdgeUnmatched(faces: seq<Triangle>, n: nat, next: Successor, loops: seq<Loop>, e: Edge)
    requires Oriented(faces) && Bounded(faces, n) && Draws(next, Boundary(faces)) && Traced(next, loops)
    requires e in Boundary(faces) && next[e.a] != e.b
    ensures Count(faces + Caps(loops, n), e) == 1 && Count(faces + Caps(loops, n), Reverse(e)) == 0
  {
    var r := Reverse(e);
    assert Reverse(r) == e;
    CappedCount(faces, n, next, loops, e);
    CappedCount(faces, n, next, loops, r);
    DirectedCounts(faces, e);
    DirectedCounts(faces, r);
    assert Count(faces, e) <= 1 && Count(faces, r) <= 1;
    assert r !in Boundary(faces);
  }

  /** Whenever tracing ends, the capped mesh is closed if and only if no vertex
      had two outgoing boundary edges. */
  lemma ClosedExactlyWhenUnforked(faces: seq<Triangle>, n: nat, next: Successor, loops: seq<Loop>)
    requires Oriented(faces) && Bounded(faces, n) && Draws(next, Boundary(faces)) && Traced(next, loops)
    ensures Closed(faces + Caps(loops, n)) <==> Unforked(Boundary(faces))
  {
    var b := Boundary(faces);
    if Unforked(b) {
      var capped := faces + Caps(loops, n);
      forall e ensures Count(capped, e) <= 1 && Count(capped, e) == Count(capped, Reverse(e)) {
        if e in b { DrawsAll(next, b, e); }
        if Reverse(e) in b { DrawsAll(next, b, Reverse(e)); }
        EdgeMatched(faces, n, next, loops, e);
      }
    } else {
      var e, f :| e in b && f in b && e.a == f.a && e != f;
      var lost := if next[e.a] != e.b then e else f;
      EdgeUnmatched(faces, n, next, loops, lost);
      assert Count(faces + Caps(loops, n), lost) != Count(faces + Caps(loops, n), Reverse(lost));
    }
  }

  // ---------------------------------------------------------------- when tracing never ends

  function Image(next: Successor, from: set<nat>): set<nat>
    requires from <= next.Keys
  {
    set v | v in from :: Succ(next, v)
  }

  lemma {:induction false} ImageIsNoLarger(next: Successor, from: set<nat>)
    requires from <= next.Keys
    ensures |Image(next, from)| <= |from|
    decreases from
  {
    if from == {} {
      assert Image(next, from) == {};
    } else {
      var v :| v in from;
      ImageIsNoLarger(next, from - {v});
      assert Image(next, from) == Image(next, from - {v}) + {Succ(next, v)};
    }
  }

  lemma SubsetSize(a: set<nat>, b: set<nat>)
    requires a <= b
    ensures |a| <= |b|
  {
    assert b == a + (b - a);
  }

  lemma NotCovered(k: set<nat>, image: set<nat>)
    requires |image| < |k|
    ensures exists v :: v in k && v !in image
  {
    if k <= image {
      SubsetSize(k, image);
    }
  }

  /** Where two boundary edges meet head on, some vertex is never arrived at. */
  lemma MeetingLeavesOneOut(next: Successor, u: nat, v: nat) returns (missed: nat)
    requires Closes(next) && u in next && v in next && u != v && next[u] == next[v]
    ensures missed in next && forall w {:trigger Succ(next, w)} :: w in next ==> Succ(next, w) != missed
  {
    var k := next.Keys;
    ImageIsNoLarger(next, k - {u});
    forall w | w in Image(next, k) ensures w in Image(next, k - {u}) {
      var x :| x in k && Succ(next, x) == w;
      assert Succ(next, if x == u then v else x) == w;
    }
    NotCovered(k, Image(next, k - {u}));
    missed :| missed in k && missed !in Image(next, k - {u});
    forall w | w in next ensures Succ(next, w) != missed {
      assert Succ(next, w) in Image(next, k);
    }
  }

  /** The vertex reached after k steps along the map. */
  function Nth(next: Successor, v: nat, k: nat): nat
    requires Closes(next) && v in next
    ensures Nth(next, v, k) in next
    decreases k
  {
    if k == 0 then v else Succ(next, Nth(next, v, k - 1))
  }

  /** If the boundary map is not a permutation then tracing does not end: it
      starts at some vertex (nothing leads there, so no earlier loop took it)
      and never gets back. */
  lemma TracingEndsOnlyOnPermutations(next: Successor) returns (start: nat)
    requires Closes(next) && !Injective(next)
    ensures start in next && forall k: nat :: k > 0 ==> Nth(next, start, k) != start
    ensures forall w {:trigger Succ(next, w)} :: w in next ==> Succ(next, w) != start
  {
    var u, v :| u in next && v in next && next[u] == next[v] && u != v;
    start := MeetingLeavesOneOut(next, u, v);
    forall k: nat | k > 0 ensures Nth(next, start, k) != start {
      assert Nth(next, start, k) == Succ(next, Nth(next, start, k - 1));
    }
  }

  // ---------------------------------------------------------------- the caps, and splitting their shading off

  /** A vertex: where it is, its shading normal, and whatever else it carries. */
  datatype Vertex = Vertex(position: int, normal: int, rest: int)

  /** The floating-point parts: a loop's mean vertex with its lid normal, and the
      normal of a facet turned to its lid's side. */
  datatype Shading = Shading(centroid: seq<Vertex> -> Vertex, facet: (int, int, int, int) -> int)

  function Corners(verts: seq<Vertex>, loop: Loop): seq<Vertex>
    requires forall v :: v in loop ==> v < |verts|
  {
    seq(|loop|, i requires 0 <= i < |loop| => assert loop[i] in loop; verts[loop[i]])
  }

  /** A loop's centre is the mean of its own vertices, each taken once, in order. */
  ghost predicate Centred(verts: seq<Vertex>, loop: Loop, shading: Shading, center: Vertex)
    requires forall v :: v in loop ==> v < |verts|
  {
    exists cs: seq<Vertex> ::
      |cs| == |loop| && (forall i :: 0 <= i < |loop| ==> loop[i] in loop && cs[i] == verts[loop[i]]) && center == shading.centroid(cs)
  }

  /** Vertices added since make no difference. */
  lemma CornersCentre(verts: seq<Vertex>, all: seq<Vertex>, loop: Loop, shading: Shading)
    requires (forall v :: v in loop ==> v < |verts|) && |verts| <= |all| && all[..|verts|] == verts
    ensures Centred(verts, loop, shading, shading.centroid(Corners(all, loop)))
  {
    var cs := Corners(all, loop);
    forall i | 0 <= i < |loop| ensures loop[i] in loop && cs[i] == verts[loop[i]] {
      assert loop[i] in loop;
      assert all[..|verts|][loop[i]] == verts[loop[i]];
    }
  }

  /** Give every loop a centre vertex and a fan. */
  method CapLoops(verts: seq<Vertex>, faces: seq<Triangle>, loops: seq<Loop>, shading: Shading)
    returns (all: seq<Vertex>, capped: seq<Triangle>)
    requires Below(loops, |verts|)
    ensures capped == faces + Caps(loops, |verts|)
    ensures |all| == |verts| + |loops| && all[..|verts|] == verts
    ensures forall k :: 0 <= k < |loops| ==> Centred(verts, loops[k], shading, all[|verts| + k])
  {
    hide Centred, Corners;
    all, capped := verts, faces;
    for k := 0 to |loops|
      invariant capped == faces + Caps(loops[..k], |verts|)
      invariant |all| == |verts| + k && all[..|verts|] == verts
      invariant forall j :: 0 <= j < k ==> Centred(verts, loops[j], shading, all[|verts| + j])
    {
      var loop, center := loops[k], |all|;
      CornersCentre(verts, all, loop, shading);
      all := all + [shading.centroid(Corners(all, loop))];
      for i := 0 to |loop|
        invariant capped == faces + Caps(loops[..k], |verts|) + Fan(loop, i, center)
      {
        capped := capped + [Triangle(After(loop, i), loop[i], center)];
      }
      assert loops[..k + 1][..k] == loops[..k];
    }
    assert loops[..|loops|] == loops;
  }

  function Corner(t: Triangle, j: nat): nat
    requires j < 3
  {
    if j == 0 then t.a else if j == 1 then t.b else t.c
  }

  function FacetNormal(verts: seq<Vertex>, t: Triangle, shading: Shading): int
    requires t.a < |verts| && t.b < |verts| && t.c < |verts|
  {
    shading.facet(verts[t.a].position, verts[t.b].position, verts[t.c].position, verts[t.c].normal)
  }

  /** After the split: every lid triangle has three vertices of its own, each a
      copy of the corner it stands for in all but the normal, which is the
      facet's; nothing else moved. */
  ghost predicate Split(all: seq<Vertex>, faces: seq<Triangle>, fans: seq<Triangle>, shading: Shading,
                        split: seq<Vertex>, result: seq<Triangle>, dupes: seq<(nat, nat)>)
    requires Bounded(fans, |all|)
  {
    && |split| == |all| + 3 * |fans| && split[..|all|] == all && |dupes| == 3 * |fans|
    && |result| == |faces| + |fans| && result[..|faces|] == faces
    && (forall t :: 0 <= t < |fans| ==> Copied(all, fans[t], shading, split, dupes, 3 * t))
    && (forall t :: 0 <= t < |fans| ==> result[|faces| + t] == Triangle(dupes[3 * t].1, dupes[3 * t + 1].1, dupes[3 * t + 2].1))
  }

  ghost predicate Copied(all: seq<Vertex>, t: Triangle, shading: Shading, split: seq<Vertex>, dupes: seq<(nat, nat)>, m: nat)
    requires t.a < |all| && t.b < |all| && t.c < |all|
  {
    && m + 3 <= |dupes| && |all| + m + 3 <= |split|
    && var own := |all| + m;
    var normal := shading.facet(all[t.a].position, all[t.b].position, all[t.c].position, all[t.c].normal);
    && dupes[m] == (t.a, own) && dupes[m + 1] == (t.b, own + 1) && dupes[m + 2] == (t.c, own + 2)
    && split[own] == all[t.a].(normal := normal)
    && split[own + 1] == all[t.b].(normal := normal)
    && split[own + 2] == all[t.c].(normal := normal)
  }

  /** Three fresh vertices for one lid triangle. */
  method SplitTriangle(verts: seq<Vertex>, dupes: seq<(nat, nat)>, t: Triangle, n: int)
    returns (more: seq<Vertex>, pairs: seq<(nat, nat)>, own: Triangle)
    requires t.a < |verts| && t.b < |verts| && t.c < |verts|
    ensures more == verts + [verts[t.a].(normal := n), verts[t.b].(normal := n), verts[t.c].(normal := n)]
    ensures pairs == dupes + [(t.a, |verts|), (t.b, |verts| + 1), (t.c, |verts| + 2)]
    ensures own == Triangle(|verts|, |verts| + 1, |verts| + 2)
  {
    more, pairs := verts, dupes;
    for j := 0 to 3
      invariant more == verts + [verts[t.a].(normal := n), verts[t.b].(normal := n), verts[t.c].(normal := n)][..j]
      invariant pairs == dupes + [(t.a, |verts|), (t.b, |verts| + 1), (t.c, |verts| + 2)][..j]
    {
      var v := Corner(t, j);
      pairs := pairs + [(v, |more|)];
      more := more + [more[v].(normal := n)];
    }
    own := Triangle(|verts|, |verts| + 1, |verts| + 2);
  }

  /** The unweld: each triangle of the caps gets its own three vertices. */
  method Unweld(all: seq<Vertex>, faces: seq<Triangle>, fans: seq<Triangle>, shading: Shading)
    returns (split: seq<Vertex>, result: seq<Triangle>, dupes: seq<(nat, nat)>)
    requires Bounded(fans, |all|)
    ensures Split(all, faces, fans, shading, split, result, dupes)
  {
    split, result, dupes := all, faces, [];
    for t := 0 to |fans|
      invariant Split(all, faces, fans[..t], shading, split, result, dupes)
    {
      var own;
      split, dupes, own := SplitTriangle(split, dupes, fans[t], FacetNormal(split, fans[t], shading));
      result := result + [own];
    }
    assert fans[..|fans|] == fans;
  }

  /** The vertex each vertex of the split mesh is a copy of. */
  function Origin(n: nat, dupes: seq<(nat, nat)>, v: nat): nat {
    if v < n || v - n >= |dupes| then v else dupes[v - n].0
  }

  function Welded(n: nat, dupes: seq<(nat, nat)>, faces: seq<Triangle>): (welded: seq<Triangle>)
    ensures |welded| == |faces|
  {
    seq(|faces|, i requires 0 <= i < |faces| =>
      var t := faces[i];
      Triangle(Origin(n, dupes, t.a), Origin(n, dupes, t.b), Origin(n, dupes, t.c)))
  }

  /** The split is a shading change and nothing else: every copy stands where its
      original stands, and identifying copies with originals gives back the
      capped mesh, triangle for triangle. */
  lemma SplitWeldsBack(all: seq<Vertex>, faces: seq<Triangle>, fans: seq<Triangle>, shading: Shading,
                       split: seq<Vertex>, result: seq<Triangle>, dupes: seq<(nat, nat)>)
    requires Bounded(faces, |all|) && Bounded(fans, |all|) && Split(all, faces, fans, shading, split, result, dupes)
    ensures Welded(|all|, dupes, result) == faces + fans
    ensures forall v :: 0 <= v < |split| ==>
      && Origin(|all|, dupes, v) < |all|
      && split[v].position == all[Origin(|all|, dupes, v)].position && split[v].rest == all[Origin(|all|, dupes, v)].rest
  {
    forall t | 0 <= t < |fans|
      ensures Welded(|all|, dupes, result)[|faces| + t] == fans[t]
    {
      assert Copied(all, fans[t], shading, split, dupes, 3 * t);
    }
    forall i | 0 <= i < |faces| ensures Welded(|all|, dupes, result)[i] == faces[i] {
      assert result[i] == result[..|faces|][i];
    }
    assert Welded(|all|, dupes, result) == faces + fans;
    forall v | |all| <= v < |split|
      ensures Origin(|all|, dupes, v) < |all|
      ensures split[v].position == all[Origin(|all|, dupes, v)].position && split[v].rest == all[Origin(|all|, dupes, v)].rest
    {
      var t, j := (v - |all|) / 3, (v - |all|) % 3;
      assert Copied(all, fans[t], shading, split, dupes, 3 * t);
      assert v == |all| + 3 * t + j && 0 <= j < 3;
    }
    forall v | 0 <= v < |all| ensures split[v] == all[v] {
      assert split[v] == split[..|all|][v];
    }
  }

  // ---------------------------------------------------------------- the whole script

  lemma {:induction false} FanBounded(loop: Loop, n: nat, center: nat)
    requires n <= |loop| && forall v :: v in loop ==> v < center
    ensures Bounded(Fan(loop, n, center), center + 1)
  {
    if n > 0 {
      FanBounded(loop, n - 1, center);
      assert After(loop, n - 1) in loop && loop[n - 1] in loop;
    }
  }

  lemma {:induction false} CapsBounded(loops: seq<Loop>, base: nat)
    requires Below(loops, base)
    ensures Bounded(Caps(loops, base), base + |loops|)
  {
    if loops != [] {
      var k := |loops| - 1;
      CapsBounded(loops[..k], base);
      assert forall v :: v in loops[k] ==> v < base;
      FanBounded(loops[k], |loops[k]|, base + k);
    }
  }

  /** The script's first check: every directed edge was seen exactly once. */
  method Orientable(faces: seq<Triangle>, directed: map<Edge, nat>) returns (ok: bool)
    requires forall e :: Tally(directed, e) == Count(faces, e)
    requires forall e :: e in directed ==> directed[e] > 0
    ensures ok <==> Oriented(faces)
  {
    ok := forall e :: e in directed ==> directed[e] == 1;
    if ok {
      forall e ensures Count(faces, e) <= 1 { assert Tally(directed, e) == Count(faces, e); }
    } else {
      var e :| e in directed && directed[e] != 1;
      assert Tally(directed, e) == Count(faces, e) > 1;
    }
  }

  /** Its second: every directed edge's reverse was seen exactly once. */
  method ClosingCheck(faces: seq<Triangle>) returns (ok: bool)
    ensures ok <==> Closed(faces)
  {
    var check, _ := CountEdges(faces);
    ok := forall e :: e in check ==> Tally(check, Reverse(e)) == 1;
    if ok {
      forall e ensures Count(faces, e) <= 1 && Count(faces, e) == Count(faces, Reverse(e)) {
        assert Reverse(Reverse(e)) == e;
        assert Tally(check, e) == Count(faces, e) && Tally(check, Reverse(e)) == Count(faces, Reverse(e));
      }
    } else {
      var e :| e in check && Tally(check, Reverse(e)) != 1;
      assert Tally(check, e) == Count(faces, e) > 0 && Tally(check, Reverse(e)) == Count(faces, Reverse(e));
    }
  }

  datatype Outcome = Unorientable | Unclosed | Capped

  /** The script from a mesh to a capped and unwelded one. It comes to an end on
      the meshes whose boundary map never lets two edges meet, and on no other
      oriented mesh (TracingEndsOnlyOnPermutations). It then succeeds exactly if
      the boundary does not fork; its own closing check finds every fork. */
  method Curate(verts: seq<Vertex>, faces: seq<Triangle>, shading: Shading)
    returns (outcome: Outcome, capped: seq<Triangle>, all: seq<Vertex>, split: seq<Vertex>, result: seq<Triangle>, dupes: seq<(nat, nat)>, loops: seq<Loop>)
    requires Bounded(faces, |verts|)
    requires Oriented(faces) ==> Injective(Boundaries(faces))
    ensures outcome.Unorientable? <==> !Oriented(faces)
    ensures outcome.Capped? <==> Oriented(faces) && Unforked(Boundary(faces))
    ensures outcome.Capped? ==> Traced(Boundaries(faces), loops) && Below(loops, |verts|)
    ensures outcome.Capped? ==> Closed(capped) && capped == faces + Caps(loops, |verts|)
    ensures outcome.Capped? ==> |all| == |verts| + |loops| && forall k :: 0 <= k < |loops| ==> Centred(verts, loops[k], shading, all[|verts| + k])
    ensures outcome.Capped? ==> Bounded(Caps(loops, |verts|), |all|) && Split(all, faces, Caps(loops, |verts|), shading, split, result, dupes)
    ensures outcome.Capped? ==> |verts| <= |all| <= |split| && split[..|verts|] == verts && split[..|all|] == all
    ensures outcome.Capped? ==> Welded(|all|, dupes, result) == capped
    ensures outcome.Capped? ==> forall v :: 0 <= v < |split| ==>
      && Origin(|all|, dupes, v) < |all| && split[v].position == all[Origin(|all|, dupes, v)].position
  {
    hide Count, Directed, Boundary, Caps, Split, Welded, Origin, Closed, Oriented, Unforked, Draws, AllCycles, Apart, Below, FirstSeen, Entered, Injective, Closes, Centred;
    capped, all, split, result, dupes, loops := [], [], [], [], [], [];
    var directed, order := CountEdges(faces);
    var orientable := Orientable(faces, directed);
    if !orientable { return Unorientable, capped, all, split, result, dupes, loops; }
    var next, starts := BoundaryMap(faces, directed, order);
    StaysOnBoundary(faces, next);
    loops := TraceLoops(next, starts);
    KeysBelow(faces, |verts|, next, loops);
    CapsBounded(loops, |verts|);
    all, capped := CapLoops(verts, faces, loops, shading);
    ClosedExactlyWhenUnforked(faces, |verts|, next, loops);
    var closed := ClosingCheck(capped);
    if !closed { return Unclosed, capped, all, split, result, dupes, loops; }
    var fans := capped[|faces|..];
    assert fans == Caps(loops, |verts|);
    split, result, dupes := Unweld(all, faces, fans, shading);
    SplitWeldsBack(all, faces, fans, shading, split, result, dupes);
    assert split[..|verts|] == split[..|all|][..|verts|];
    outcome := Capped;
  }

  /** So it does on every unforked mesh. */
  lemma UnforkedEnds(faces: seq<Triangle>)
    requires Oriented(faces) && Unforked(Boundary(faces))
    ensures Injective(Boundaries(faces))
  {
    BoundariesDraws(faces);
    BoundaryPermutes(faces, Boundaries(faces));
  }

  lemma OneMore(faces: seq<Triangle>, e: Edge)
    requires faces != []
    ensures var k := |faces| - 1;
      Count(faces, e) > 0 <==> Count(faces[..k], e) > 0 || e in Sides(faces[k])
  {
    var k := |faces| - 1;
    assert faces == faces[..k] + [faces[k]];
    CountSplits(faces[..k], [faces[k]], e);
    CountOne(faces[k], e);
  }

  lemma {:induction false} SeenAll(faces: seq<Triangle>, e: Edge)
    ensures e in FirstSeen(faces) <==> Count(faces, e) > 0
  {
    if faces != [] {
      OneMore(faces, e);
      hide Count;
      SeenAll(faces[..|faces| - 1], e);
    }
  }

  lemma {:induction false} EnteredDraws(order: seq<Edge>, boundary: set<Edge>)
    ensures forall v :: v in Entered(order, boundary) ==> Edge(v, Entered(order, boundary)[v]) in boundary
    ensures forall e :: e in order && e in boundary ==> e.a in Entered(order, boundary)
  {
    if order != [] { EnteredDraws(order[..|order| - 1], boundary); }
  }

  lemma BoundariesDraws(faces: seq<Triangle>)
    ensures Draws(Boundaries(faces), Boundary(faces))
  {
    EnteredDraws(FirstSeen(faces), Boundary(faces));
    forall e | e in Boundary(faces) ensures e in FirstSeen(faces) { SeenAll(faces, e); DirectedCounts(faces, e); }
  }

  // ---------------------------------------------------------------- a mesh that forks

  /** Two triangles touching at one corner. */
  const BOWTIE := [Triangle(0, 1, 2), Triangle(0, 3, 4)]

  lemma BowtieEdges()
    ensures Directed(BOWTIE) == {Edge(0, 1), Edge(1, 2), Edge(2, 0), Edge(0, 3), Edge(3, 4), Edge(4, 0)}
    ensures Boundary(BOWTIE) == Directed(BOWTIE)
    ensures Oriented(BOWTIE)
  {
    assert BOWTIE[1..] == [Triangle(0, 3, 4)] && BOWTIE[1..][1..] == [];
    assert Directed([Triangle(0, 3, 4)]) == {Edge(0, 3), Edge(3, 4), Edge(4, 0)};
    forall e ensures Count(BOWTIE, e) <= 1 {
      CountOne(Triangle(0, 3, 4), e);
      assert Count(BOWTIE, e) == Sighted(Sides(Triangle(0, 1, 2)), e) + Count([Triangle(0, 3, 4)], e);
    }
  }

  /** It passes the script's first check, its boundary forks at the shared
      corner, and whichever of the two ways out the dictionary keeps, two
      boundary edges meet there: tracing some loop never ends. */
  lemma BowtieNeverEnds(next: Successor) returns (start: nat)
    requires Draws(next, Boundary(BOWTIE))
    ensures Oriented(BOWTIE) && !Unforked(Boundary(BOWTIE)) && Closes(next) && !Injective(next)
    ensures start in next && forall k: nat :: k > 0 ==> Nth(next, start, k) != start
  {
    BowtieEdges();
    hide Directed, Count, Boundary;
    StaysOnBoundary(BOWTIE, next);
    assert Edge(0, 1) in Boundary(BOWTIE) && Edge(0, 3) in Boundary(BOWTIE);
    assert Edge(2, 0) in Boundary(BOWTIE) && Edge(4, 0) in Boundary(BOWTIE);
    assert Edge(2, next[2]) in Boundary(BOWTIE) && Edge(4, next[4]) in Boundary(BOWTIE);
    assert next[2] == 0 && next[4] == 0;
    start := TracingEndsOnlyOnPermutations(next);
  }
}
