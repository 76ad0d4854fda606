/** Instancers: pure arithmetic that geometry consumes. */
module Instancing {
  import opened Options
  import opened SceneServer

  /** The arithmetic of transforms, rounding included: any product at all, and
      the conversion to the wire, which fails on a placement the server would
      refuse as not invertible. */
  datatype Calculus = Calculus(identity: Matrix, times: (Matrix, Matrix) -> Matrix, wire: Matrix -> Option<Matrix>)

  /** One instancer that copies a prim, and the prototype root it copies it under. */
  datatype Copier = Copier(path: Path, root: Path)

  /** The instance-rate transform channels; an absent channel is empty. */
  datatype Samplers = Samplers(translations: seq<Matrix>, rotations: seq<Matrix>, scales: seq<Matrix>, matrices: seq<Matrix>)

  /** An instancer prim as read: `indices` are the surviving instances per
      prototype root, in order, the mask already folded in. */
  datatype Instancer = Instancer(visible: bool, world: Matrix, indices: map<Path, seq<int>>, samplers: Samplers, parents: seq<Copier>)

  /** Every registered instancer, with the prim it finds in the scene, if any. */
  type Copiers = map<Path, Option<Instancer>>

  function Sampled(k: Calculus, channel: seq<Matrix>, index: int, placement: Matrix): Matrix {
    if 0 <= index < |channel| then k.times(channel[index], placement) else placement
  }

  /** One instance's placement: matrix . scale . rotate . translate . instancer. */
  function Compose(k: Calculus, s: Samplers, index: int, world: Matrix): Matrix {
    Sampled(k, s.matrices, index,
      Sampled(k, s.scales, index,
        Sampled(k, s.rotations, index,
          Sampled(k, s.translations, index, world))))
  }

  function Surviving(i: Instancer, root: Path): seq<int> {
    if root in i.indices then i.indices[root] else []
  }

  function ComposeAll(k: Calculus, i: Instancer, indices: seq<int>): (r: seq<Matrix>)
    ensures |r| == |indices|
    ensures forall n :: 0 <= n < |indices| ==> r[n] == Compose(k, i.samplers, indices[n], i.world)
  {
    seq(|indices|, n requires 0 <= n < |indices| => Compose(k, i.samplers, indices[n], i.world))
  }

  function TimesAll(k: Calculus, children: seq<Matrix>, parent: Matrix): (r: seq<Matrix>)
    ensures |r| == |children|
    ensures forall n :: 0 <= n < |children| ==> r[n] == k.times(children[n], parent)
  {
    seq(|children|, n requires 0 <= n < |children| => k.times(children[n], parent))
  }

  /** Every parent copy places the whole set of child copies. */
  function Cartesian(k: Calculus, children: seq<Matrix>, above: seq<Matrix>): seq<Matrix> {
    if above == [] then [] else TimesAll(k, children, above[0]) + Cartesian(k, children, above[1..])
  }

  /** The instancer a copier stands for, when it is registered, found in the
      scene and visible. */
  function Active(copiers: Copiers, path: Path): Option<Instancer> {
    if path in copiers && copiers[path].Some? && copiers[path].value.visible then copiers[path] else None
  }

  /** The placements an instancer contributes to one of its prototypes. `open`
      holds the instancers not already on the chain below: on acyclic nesting
      it leaves nothing out (OpenIsIrrelevant). */
  function Placed(k: Calculus, copiers: Copiers, open: set<Path>, c: Copier): seq<Matrix>
    decreases |open|, 1, 0
  {
    var i := Active(copiers, c.path);
    if i.None? || c.path !in open then []
    else
      var own := ComposeAll(k, i.value, Surviving(i.value, c.root));
      if own == [] || i.value.parents == [] then own
      else
        Smaller(open, c.path);
        PlacedAbove(k, copiers, open - {c.path}, own, i.value.parents)
  }

  function PlacedAbove(k: Calculus, copiers: Copiers, open: set<Path>, own: seq<Matrix>, parents: seq<Copier>): seq<Matrix>
    decreases |open|, 2, |parents|
  {
    if parents == [] then []
    else Cartesian(k, own, Placed(k, copiers, open, parents[0])) + PlacedAbove(k, copiers, open, own, parents[1..])
  }

  function Placements(k: Calculus, copiers: Copiers, c: Copier): seq<Matrix> {
    Placed(k, copiers, copiers.Keys, c)
  }

  lemma Smaller(s: set<Path>, p: Path)
    requires p in s
    ensures |s - {p}| < |s|
  {
    assert s == (s - {p}) + {p};
  }

  // ---------------------------------------------------------------- acyclic nesting

  /** A rank that falls along every step from a visible instancer to a registered parent. */
  ghost predicate Ranked(copiers: Copiers, rank: map<Path, nat>) {
    && rank.Keys == copiers.Keys
    && forall p, j ::
      (p in copiers && Active(copiers, p).Some? && 0 <= j < |Active(copiers, p).value.parents|) ==>
        var q := Active(copiers, p).value.parents[j].path;
        q in copiers ==> rank[q] < rank[p]
  }

  ghost predicate Acyclic(copiers: Copiers) {
    exists rank: map<Path, nat> :: Ranked(copiers, rank)
  }

  /** `open` still holds every instancer ranked no higher than `p`. */
  ghost predicate HoldsBelow(copiers: Copiers, rank: map<Path, nat>, open: set<Path>, p: Path)
    requires rank.Keys == copiers.Keys
  {
    p in copiers ==> forall q :: q in copiers && rank[q] <= rank[p] ==> q in open
  }

  /** On acyclic nesting the chain below never gets in the way. */
  lemma {:induction false} OpenIsIrrelevant(k: Calculus, copiers: Copiers, rank: map<Path, nat>, a: set<Path>, b: set<Path>, c: Copier)
    requires Ranked(copiers, rank)
    requires HoldsBelow(copiers, rank, a, c.path) && HoldsBelow(copiers, rank, b, c.path)
    ensures Placed(k, copiers, a, c) == Placed(k, copiers, b, c)
    decreases if c.path in copiers then rank[c.path] + 1 else 0, 0
  {
    var i := Active(copiers, c.path);
    if i.Some? && Surviving(i.value, c.root) != [] && i.value.parents != [] {
      var own := ComposeAll(k, i.value, Surviving(i.value, c.root));
      AboveIsIrrelevant(k, copiers, rank, a - {c.path}, b - {c.path}, own, c.path, 0);
    }
  }

  lemma {:induction false} AboveIsIrrelevant(k: Calculus, copiers: Copiers, rank: map<Path, nat>, a: set<Path>, b: set<Path>, own: seq<Matrix>, p: Path, j: nat)
    requires Ranked(copiers, rank) && Active(copiers, p).Some? && j <= |Active(copiers, p).value.parents|
    requires forall q :: q in copiers && rank[q] < rank[p] ==> q in a && q in b
    ensures var ps := Active(copiers, p).value.parents[j..];
      PlacedAbove(k, copiers, a, own, ps) == PlacedAbove(k, copiers, b, own, ps)
    decreases rank[p], |Active(copiers, p).value.parents| - j
  {
    var ps := Active(copiers, p).value.parents;
    if j < |ps| {
      OpenIsIrrelevant(k, copiers, rank, a, b, ps[j]);
      AboveIsIrrelevant(k, copiers, rank, a, b, own, p, j + 1);
      assert ps[j..][1..] == ps[j + 1..] && ps[j..][0] == ps[j];
    }
  }

  /** Each parent copies the whole set below it: the recursion as it is run. */
  function Nested(k: Calculus, copiers: Copiers, own: seq<Matrix>, parents: seq<Copier>): seq<Matrix> {
    if parents == [] then []
    else Nested(k, copiers, own, parents[..|parents| - 1]) + Cartesian(k, own, Placements(k, copiers, parents[|parents| - 1]))
  }

  lemma {:induction false} AboveIsNested(k: Calculus, copiers: Copiers, open: set<Path>, own: seq<Matrix>, parents: seq<Copier>)
    requires forall c :: c in parents ==> Placed(k, copiers, open, c) == Placements(k, copiers, c)
    ensures PlacedAbove(k, copiers, open, own, parents) == Nested(k, copiers, own, parents)
  {
    if |parents| > 0 {
      var n := |parents| - 1;
      AboveIsNested(k, copiers, open, own, parents[..n]);
      AboveSplits(k, copiers, open, own, parents[..n], [parents[n]]);
      assert parents[..n] + [parents[n]] == parents;
      assert PlacedAbove(k, copiers, open, own, [parents[n]])
        == Cartesian(k, own, Placed(k, copiers, open, parents[n])) + [];
    }
  }

  lemma {:induction false} AboveSplits(k: Calculus, copiers: Copiers, open: set<Path>, own: seq<Matrix>, a: seq<Copier>, b: seq<Copier>)
    ensures PlacedAbove(k, copiers, open, own, a + b)
      == PlacedAbove(k, copiers, open, own, a) + PlacedAbove(k, copiers, open, own, b)
  {
    if a == [] {
      assert a + b == b;
    } else {
      assert (a + b)[1..] == a[1..] + b;
      AboveSplits(k, copiers, open, own, a[1..], b);
    }
  }

  lemma {:induction false} PlacementsUnfold(k: Calculus, copiers: Copiers, rank: map<Path, nat>, c: Copier)
    requires Ranked(copiers, rank)
    ensures Placements(k, copiers, c) == (
      var i := Active(copiers, c.path);
      if i.None? then []
      else
        var own := ComposeAll(k, i.value, Surviving(i.value, c.root));
        if own == [] || i.value.parents == [] then own else Nested(k, copiers, own, i.value.parents))
  {
    var i := Active(copiers, c.path);
    if i.Some? && Surviving(i.value, c.root) != [] && i.value.parents != [] {
      var open := copiers.Keys - {c.path};
      var ps := i.value.parents;
      forall p | p in ps ensures Placed(k, copiers, open, p) == Placements(k, copiers, p) {
        var j :| 0 <= j < |ps| && ps[j] == p;
        OpenIsIrrelevant(k, copiers, rank, open, copiers.Keys, p);
      }
      AboveIsNested(k, copiers, open, ComposeAll(k, i.value, Surviving(i.value, c.root)), ps);
    }
  }

  lemma CartesianGrows(k: Calculus, own: seq<Matrix>, above: seq<Matrix>, n: nat)
    requires n < |above|
    ensures Cartesian(k, own, above[..n + 1]) == Cartesian(k, own, above[..n]) + TimesAll(k, own, above[n])
  {
    CartesianSplits(k, own, above[..n], [above[n]]);
    assert above[..n] + [above[n]] == above[..n + 1];
    assert Cartesian(k, own, [above[n]]) == TimesAll(k, own, above[n]) + [];
  }

  lemma {:induction false} CartesianSplits(k: Calculus, own: seq<Matrix>, a: seq<Matrix>, b: seq<Matrix>)
    ensures Cartesian(k, own, a + b) == Cartesian(k, own, a) + Cartesian(k, own, b)
  {
    if a == [] {
      assert a + b == b;
    } else {
      assert (a + b)[1..] == a[1..] + b;
      CartesianSplits(k, own, a[1..], b);
    }
  }

  method ComposeCopies(k: Calculus, prim: Instancer, indices: seq<int>) returns (placements: seq<Matrix>)
    ensures placements == ComposeAll(k, prim, indices)
  {
    placements := [];
    for n := 0 to |indices|
      invariant placements == ComposeAll(k, prim, indices)[..n]
    {
      placements := placements + [Compose(k, prim.samplers, indices[n], prim.world)];
    }
  }

  /** One parent's contribution appended: parents outside, children inside. */
  method AppendCopies(k: Calculus, placements: seq<Matrix>, above: seq<Matrix>, before: seq<Matrix>) returns (nested: seq<Matrix>)
    ensures nested == before + Cartesian(k, placements, above)
  {
    nested := before;
    for a := 0 to |above|
      invariant nested == before + Cartesian(k, placements, above[..a])
    {
      CartesianGrows(k, placements, above, a);
      ghost var row := nested;
      for child := 0 to |placements|
        invariant nested == row + TimesAll(k, placements, above[a])[..child]
      {
        nested := nested + [k.times(placements[child], above[a])];
      }
    }
    assert above[..|above|] == above;
  }

  /** The translator's own computation: recursion up the parents, loops over
      the copies. Acyclic nesting is what makes it return. */
  method ComputePlacements(k: Calculus, copiers: Copiers, c: Copier, ghost rank: map<Path, nat>) returns (nested: seq<Matrix>)
    requires Ranked(copiers, rank)
    ensures nested == Placements(k, copiers, c)
    decreases if c.path in copiers then rank[c.path] + 1 else 0
  {
    PlacementsUnfold(k, copiers, rank, c);
    if c.path !in copiers || copiers[c.path].None? || !copiers[c.path].value.visible {
      return [];
    }
    var prim := copiers[c.path].value;
    var indices := Surviving(prim, c.root);
    if indices == [] { return []; }
    var placements := ComposeCopies(k, prim, indices);
    if prim.parents == [] { return placements; }
    nested := [];
    for p := 0 to |prim.parents|
      invariant nested == Nested(k, copiers, placements, prim.parents[..p])
    {
      assert prim.parents[..p + 1][..p] == prim.parents[..p];
      var parent := prim.parents[p];
      if parent.path in copiers {
        assert Active(copiers, c.path).value.parents[p] == parent;
        var above := ComputePlacements(k, copiers, parent, rank);
        nested := AppendCopies(k, placements, above, nested);
      }
    }
    assert prim.parents[..|prim.parents|] == prim.parents;
  }

  // ---------------------------------------------------------------- enumeration of chains

  /** A route climbs from a copier to an instancer nobody copies, through
      visible registered instancers. */
  ghost predicate IsRoute(copiers: Copiers, route: seq<Copier>) {
    && route != []
    && (forall j :: 0 <= j < |route| ==> Visible(copiers, route[j].path))
    && (forall j :: 0 <= j < |route| - 1 ==> route[j + 1] in copiers[route[j].path].value.parents)
    && copiers[route[|route| - 1].path].value.parents == []
  }

  predicate Visible(copiers: Copiers, path: Path) {
    path in copiers && copiers[path].Some? && copiers[path].value.visible
  }

  /** How many copies of its prototype a copier makes. */
  function CopiesAt(copiers: Copiers, c: Copier): nat
    requires c.path in copiers && copiers[c.path].Some?
  {
    var indices := copiers[c.path].value.indices;
    if c.root in indices then |indices[c.root]| else 0
  }

  /** The placements one route contributes: the copies at its foot, each
      multiplied by every placement of the rest, which varies slowest. */
  ghost function Grid(k: Calculus, copiers: Copiers, route: seq<Copier>): seq<Matrix>
    requires IsRoute(copiers, route)
  {
    var i := Active(copiers, route[0].path).value;
    var own := ComposeAll(k, i, Surviving(i, route[0].root));
    if |route| == 1 then own else Cartesian(k, own, Grid(k, copiers, route[1..]))
  }

  /** The number of instances each link of the route contributes, multiplied. */
  ghost function Copies(copiers: Copiers, route: seq<Copier>): nat
    requires IsRoute(copiers, route)
  {
    var own := CopiesAt(copiers, route[0]);
    if |route| == 1 then own else own * Copies(copiers, route[1..])
  }

  /** All routes from a copier, in the order the parents are listed. */
  ghost function Routes(copiers: Copiers, open: set<Path>, c: Copier): (rs: seq<seq<Copier>>)
    ensures forall r :: r in rs ==> IsRoute(copiers, r) && r[0] == c
    decreases |open|, 1, 0
  {
    var i := Active(copiers, c.path);
    if i.None? || c.path !in open then []
    else if i.value.parents == [] then [[c]]
    else
      Smaller(open, c.path);
      RoutesAbove(copiers, open - {c.path}, c, 0)
  }

  ghost function RoutesAbove(copiers: Copiers, open: set<Path>, c: Copier, j: nat): (rs: seq<seq<Copier>>)
    requires Active(copiers, c.path).Some? && j <= |Active(copiers, c.path).value.parents|
    ensures forall r :: r in rs ==> IsRoute(copiers, r) && r[0] == c && |r| > 1
    decreases |open|, 2, |Active(copiers, c.path).value.parents| - j
  {
    var ps := Active(copiers, c.path).value.parents;
    if j == |ps| then []
    else
      var up := Routes(copiers, open, ps[j]);
      Extended(copiers, c, up) + RoutesAbove(copiers, open, c, j + 1)
  }

  lemma RouteExtends(copiers: Copiers, c: Copier, up: seq<Copier>)
    requires Active(copiers, c.path).Some?
    requires IsRoute(copiers, up) && up[0] in Active(copiers, c.path).value.parents
    ensures IsRoute(copiers, [c] + up)
  {
    var r := [c] + up;
    forall j | 0 <= j < |r| ensures Active(copiers, r[j].path).Some? {
      if j > 0 { assert r[j] == up[j - 1]; }
    }
    forall j | 0 <= j < |r| - 1 ensures r[j + 1] in Active(copiers, r[j].path).value.parents {
      if j > 0 { assert r[j] == up[j - 1] && r[j + 1] == up[(j - 1) + 1]; }
    }
    assert r[|r| - 1] == up[|up| - 1];
  }

  ghost function Extended(copiers: Copiers, c: Copier, up: seq<seq<Copier>>): (rs: seq<seq<Copier>>)
    requires Active(copiers, c.path).Some?
    requires forall r :: r in up ==> IsRoute(copiers, r) && r[0] in Active(copiers, c.path).value.parents
    ensures |rs| == |up| && forall n :: 0 <= n < |up| ==> rs[n] == [c] + up[n]
    ensures forall r :: r in rs ==> IsRoute(copiers, r) && r[0] == c && |r| > 1
  {
    if up == [] then []
    else
      RouteExtends(copiers, c, up[0]);
      [[c] + up[0]] + Extended(copiers, c, up[1..])
  }

  ghost function AllGrids(k: Calculus, copiers: Copiers, routes: seq<seq<Copier>>): seq<Matrix>
    requires forall r :: r in routes ==> IsRoute(copiers, r)
  {
    if routes == [] then [] else Grid(k, copiers, routes[0]) + AllGrids(k, copiers, routes[1..])
  }

  lemma {:induction false} GridsSplit(k: Calculus, copiers: Copiers, a: seq<seq<Copier>>, b: seq<seq<Copier>>)
    requires forall r :: r in a + b ==> IsRoute(copiers, r)
    ensures (forall r :: r in a ==> r in a + b) && (forall r :: r in b ==> r in a + b)
    ensures AllGrids(k, copiers, a + b) == AllGrids(k, copiers, a) + AllGrids(k, copiers, b)
  {
    hide IsRoute, Grid;
    if a == [] {
      assert a + b == b;
    } else {
      assert (a + b)[1..] == a[1..] + b;
      GridsSplit(k, copiers, a[1..], b);
    }
  }

  lemma {:induction false} GridsOfExtended(k: Calculus, copiers: Copiers, c: Copier, up: seq<seq<Copier>>)
    requires Active(copiers, c.path).Some?
    requires forall r :: r in up ==> IsRoute(copiers, r) && r[0] in Active(copiers, c.path).value.parents
    ensures var i := Active(copiers, c.path).value;
      AllGrids(k, copiers, Extended(copiers, c, up))
        == Cartesian(k, ComposeAll(k, i, Surviving(i, c.root)), AllGrids(k, copiers, up))
  {
    var i := Active(copiers, c.path).value;
    var own := ComposeAll(k, i, Surviving(i, c.root));
    if up != [] {
      var ext := Extended(copiers, c, up);
      GridsOfExtended(k, copiers, c, up[1..]);
      assert ext[0][1..] == up[0];
      assert Grid(k, copiers, ext[0]) == Cartesian(k, own, Grid(k, copiers, up[0]));
      CartesianSplits(k, own, Grid(k, copiers, up[0]), AllGrids(k, copiers, up[1..]));
      assert ext[1..] == Extended(copiers, c, up[1..]);
    }
  }

  lemma {:induction false} CartesianOfNone(k: Calculus, above: seq<Matrix>)
    ensures Cartesian(k, [], above) == []
  {
    if above != [] { CartesianOfNone(k, above[1..]); }
  }

  /** The recursion lists the routes' grids, in order. */
  lemma {:induction false} PlacedEnumerates(k: Calculus, copiers: Copiers, open: set<Path>, c: Copier)
    ensures Placed(k, copiers, open, c) == AllGrids(k, copiers, Routes(copiers, open, c))
    decreases |open|, 1, 0
  {
    var i := Active(copiers, c.path);
    if i.Some? && c.path in open {
      var own := ComposeAll(k, i.value, Surviving(i.value, c.root));
      if i.value.parents == [] {
        assert AllGrids(k, copiers, [[c]]) == own + [];
      } else {
        Smaller(open, c.path);
        AboveEnumerates(k, copiers, open - {c.path}, c, 0);
        assert i.value.parents[0..] == i.value.parents;
        if own == [] { AboveOfNone(k, copiers, open - {c.path}, i.value.parents); }
      }
    }
  }

  lemma {:induction false} AboveOfNone(k: Calculus, copiers: Copiers, open: set<Path>, parents: seq<Copier>)
    ensures PlacedAbove(k, copiers, open, [], parents) == []
  {
    if parents != [] {
      CartesianOfNone(k, Placed(k, copiers, open, parents[0]));
      AboveOfNone(k, copiers, open, parents[1..]);
    }
  }

  lemma {:induction false} AboveEnumerates(k: Calculus, copiers: Copiers, open: set<Path>, c: Copier, j: nat)
    requires Active(copiers, c.path).Some? && j <= |Active(copiers, c.path).value.parents|
    ensures var i := Active(copiers, c.path).value;
      PlacedAbove(k, copiers, open, ComposeAll(k, i, Surviving(i, c.root)), i.parents[j..])
        == AllGrids(k, copiers, RoutesAbove(copiers, open, c, j))
    decreases |open|, 2, |Active(copiers, c.path).value.parents| - j
  {
    var ps := Active(copiers, c.path).value.parents;
    if j < |ps| {
      var up := Routes(copiers, open, ps[j]);
      PlacedEnumerates(k, copiers, open, ps[j]);
      AboveEnumerates(k, copiers, open, c, j + 1);
      GridsOfExtended(k, copiers, c, up);
      GridsSplit(k, copiers, Extended(copiers, c, up), RoutesAbove(copiers, open, c, j + 1));
      assert ps[j..][1..] == ps[j + 1..] && ps[j..][0] == ps[j];
    }
  }

  /** On acyclic nesting the routes listed are all the routes there are. */
  lemma {:induction false} RoutesAreComplete(copiers: Copiers, rank: map<Path, nat>, open: set<Path>, route: seq<Copier>)
    requires Ranked(copiers, rank) && IsRoute(copiers, route) && HoldsBelow(copiers, rank, open, route[0].path)
    ensures route in Routes(copiers, open, route[0])
    decreases |route|
  {
    var c := route[0];
    var ps := Active(copiers, c.path).value.parents;
    if |route| == 1 {
      assert route == [c];
    } else {
      var up := route[1..];
      assert route[0 + 1] in ps;
      var j :| 0 <= j < |ps| && ps[j] == up[0];
      forall n | 0 <= n < |up| - 1 ensures up[n + 1] in Active(copiers, up[n].path).value.parents {
        assert up[n] == route[n + 1] && up[n + 1] == route[(n + 1) + 1];
      }
      RoutesAreComplete(copiers, rank, open - {c.path}, up);
      ListedAbove(copiers, open - {c.path}, c, 0, j, up);
      assert [c] + up == route;
    }
  }

  lemma {:induction false} ListedAbove(copiers: Copiers, open: set<Path>, c: Copier, from: nat, j: nat, up: seq<Copier>)
    requires Active(copiers, c.path).Some? && from <= j < |Active(copiers, c.path).value.parents|
    requires up in Routes(copiers, open, Active(copiers, c.path).value.parents[j])
    ensures [c] + up in RoutesAbove(copiers, open, c, from)
    decreases j - from
  {
    hide Routes, IsRoute, Extended;
    var routes := Routes(copiers, open, Active(copiers, c.path).value.parents[from]);
    if from == j {
      var n :| 0 <= n < |routes| && routes[n] == up;
      assert Extended(copiers, c, routes)[n] == [c] + up;
    } else {
      ListedAbove(copiers, open, c, from + 1, j, up);
    }
  }

  lemma {:induction false} GridSize(k: Calculus, copiers: Copiers, route: seq<Copier>)
    requires IsRoute(copiers, route)
    ensures |Grid(k, copiers, route)| == Copies(copiers, route)
  {
    if |route| > 1 {
      var i := Active(copiers, route[0].path).value;
      GridSize(k, copiers, route[1..]);
      CartesianSize(k, ComposeAll(k, i, Surviving(i, route[0].root)), Grid(k, copiers, route[1..]));
    }
  }

  lemma {:induction false} CartesianSize(k: Calculus, own: seq<Matrix>, above: seq<Matrix>)
    ensures |Cartesian(k, own, above)| == |own| * |above|
  {
    if above != [] { CartesianSize(k, own, above[1..]); }
  }

  /** The order inside a grid: the parent varies slowest, the child fastest,
      and each entry is child times parent. */
  lemma {:induction false} CartesianAt(k: Calculus, own: seq<Matrix>, above: seq<Matrix>, parent: nat, child: nat)
    requires parent < |above| && child < |own|
    ensures 0 <= parent * |own| + child < |Cartesian(k, own, above)|
    ensures Cartesian(k, own, above)[parent * |own| + child] == k.times(own[child], above[parent])
  {
    if parent > 0 {
      CartesianAt(k, own, above[1..], parent - 1, child);
      assert parent * |own| + child == |own| + ((parent - 1) * |own| + child);
    }
  }

  /** How transforms move points: a product moves as its left factor does, and
      then its right. */
  ghost predicate Acts(k: Calculus, act: (Matrix, int) -> int) {
    forall a, b, p :: act(k.times(a, b), p) == act(b, act(a, p))
  }

  function Through(act: (Matrix, int) -> int, channel: seq<Matrix>, index: int, p: int): int {
    if 0 <= index < |channel| then act(channel[index], p) else p
  }

  /** One copy of one instancer: its own matrix, scaled, rotated, translated, and
      carried by the instancer; a channel that has no such index does nothing. */
  function Moved(act: (Matrix, int) -> int, i: Instancer, index: int, p: int): int {
    var matrixed := Through(act, i.samplers.matrices, index, p);
    var scaled := Through(act, i.samplers.scales, index, matrixed);
    var rotated := Through(act, i.samplers.rotations, index, scaled);
    var translated := Through(act, i.samplers.translations, index, rotated);
    act(i.world, translated)
  }

  /** A point carried up a route, through one copy of each instancer on it. */
  ghost function Climb(act: (Matrix, int) -> int, copiers: Copiers, route: seq<Copier>, picks: seq<int>, p: int): int
    requires |picks| == |route| && forall j :: 0 <= j < |route| ==> Active(copiers, route[j].path).Some?
    decreases route
  {
    if route == [] then p
    else Climb(act, copiers, route[1..], picks[1..], Moved(act, Active(copiers, route[0].path).value, picks[0], p))
  }

  lemma SampledActs(k: Calculus, act: (Matrix, int) -> int, channel: seq<Matrix>, index: int, placement: Matrix, p: int)
    requires Acts(k, act)
    ensures act(Sampled(k, channel, index, placement), p) == act(placement, Through(act, channel, index, p))
  {
    if 0 <= index < |channel| {
      var a := channel[index];
      assert act(k.times(a, placement), p) == act(placement, act(a, p));
    }
  }

  lemma ComposeActs(k: Calculus, act: (Matrix, int) -> int, i: Instancer, index: int, p: int)
    requires Acts(k, act)
    ensures act(Compose(k, i.samplers, index, i.world), p) == Moved(act, i, index, p)
  {
    var s := i.samplers;
    var translated := Sampled(k, s.translations, index, i.world);
    var rotated := Sampled(k, s.rotations, index, translated);
    var scaled := Sampled(k, s.scales, index, rotated);
    hide Acts, Sampled, Through;
    SampledActs(k, act, s.matrices, index, scaled, p);
    var p1 := Through(act, s.matrices, index, p);
    SampledActs(k, act, s.scales, index, rotated, p1);
    var p2 := Through(act, s.scales, index, p1);
    SampledActs(k, act, s.rotations, index, translated, p2);
    SampledActs(k, act, s.translations, index, i.world, Through(act, s.rotations, index, p2));
  }

  lemma CartesianSplitsAt(k: Calculus, own: seq<Matrix>, above: seq<Matrix>, n: nat) returns (parent: nat, child: nat)
    requires n < |Cartesian(k, own, above)|
    ensures parent < |above| && child < |own| && Cartesian(k, own, above)[n] == k.times(own[child], above[parent])
    decreases above
  {
    if n < |own| { return 0, n; }
    parent, child := CartesianSplitsAt(k, own, above[1..], n - |own|);
    parent := parent + 1;
  }

  /** This matrix is these copies of the route's instancers, foot first, acting
      one after another. */
  ghost predicate IsCopy(act: (Matrix, int) -> int, copiers: Copiers, route: seq<Copier>, picks: seq<int>, m: Matrix)
    requires IsRoute(copiers, route)
  {
    && |picks| == |route|
    && (forall j :: 0 <= j < |route| ==>
          var i := copiers[route[j].path].value;
          route[j].root in i.indices && picks[j] in i.indices[route[j].root])
    && forall p :: act(m, p) == Climb(act, copiers, route, picks, p)
  }

  lemma FootIsCopy(k: Calculus, act: (Matrix, int) -> int, copiers: Copiers, route: seq<Copier>, index: int)
    requires Acts(k, act) && IsRoute(copiers, route) && |route| == 1
    requires index in Surviving(Active(copiers, route[0].path).value, route[0].root)
    ensures var i := Active(copiers, route[0].path).value; IsCopy(act, copiers, route, [index], Compose(k, i.samplers, index, i.world))
  {
    var i := Active(copiers, route[0].path).value;
    assert route[0].root in i.indices;
    hide Compose, Moved, Surviving;
    assert [index][1..] == [] && route[1..] == [];
    forall p ensures act(Compose(k, i.samplers, index, i.world), p) == Climb(act, copiers, route, [index], p) {
      ComposeActs(k, act, i, index, p);
      assert Climb(act, copiers, [], [], Moved(act, i, index, p)) == Moved(act, i, index, p);
    }
  }

  lemma LinkIsCopy(k: Calculus, act: (Matrix, int) -> int, copiers: Copiers, route: seq<Copier>, index: int, up: seq<int>, above: Matrix)
    requires Acts(k, act) && IsRoute(copiers, route) && |route| > 1 && IsRoute(copiers, route[1..])
    requires index in Surviving(Active(copiers, route[0].path).value, route[0].root)
    requires IsCopy(act, copiers, route[1..], up, above)
    ensures var i := Active(copiers, route[0].path).value;
      IsCopy(act, copiers, route, [index] + up, k.times(Compose(k, i.samplers, index, i.world), above))
  {
    var i := Active(copiers, route[0].path).value;
    var own, picks := Compose(k, i.samplers, index, i.world), [index] + up;
    assert route[0].root in i.indices;
    hide Compose, Moved, Surviving, IsRoute;
    assert picks[1..] == up && route == [route[0]] + route[1..];
    forall p ensures act(k.times(own, above), p) == Climb(act, copiers, route, picks, p) {
      ComposeActs(k, act, i, index, p);
      assert act(k.times(own, above), p) == act(above, act(own, p));
    }
  }

  /** Every placement of a route is one surviving copy of each instancer on it. */
  lemma {:induction false} GridActs(k: Calculus, act: (Matrix, int) -> int, copiers: Copiers, route: seq<Copier>, n: nat) returns (picks: seq<int>)
    requires Acts(k, act) && IsRoute(copiers, route) && n < |Grid(k, copiers, route)|
    ensures IsCopy(act, copiers, route, picks, Grid(k, copiers, route)[n])
    decreases |route|
  {
    var i := Active(copiers, route[0].path).value;
    var indices := Surviving(i, route[0].root);
    var own := ComposeAll(k, i, indices);
    if |route| == 1 {
      hide Compose, Surviving, IsCopy, Acts;
      FootIsCopy(k, act, copiers, route, indices[n]);
      return [indices[n]];
    }
    var above := Grid(k, copiers, route[1..]);
    hide Compose, Surviving, IsCopy, Acts, IsRoute;
    var parent, child := CartesianSplitsAt(k, own, above, n);
    var up := GridActs(k, act, copiers, route[1..], parent);
    LinkIsCopy(k, act, copiers, route, indices[child], up, above[parent]);
    return [indices[child]] + up;
  }

  ghost function TotalCopies(copiers: Copiers, routes: seq<seq<Copier>>): nat
    requires forall r :: r in routes ==> IsRoute(copiers, r)
  {
    if routes == [] then 0 else Copies(copiers, routes[0]) + TotalCopies(copiers, routes[1..])
  }

  lemma {:induction false} AllGridsSize(k: Calculus, copiers: Copiers, routes: seq<seq<Copier>>)
    requires forall r :: r in routes ==> IsRoute(copiers, r)
    ensures |AllGrids(k, copiers, routes)| == TotalCopies(copiers, routes)
  {
    if routes != [] {
      GridSize(k, copiers, routes[0]);
      AllGridsSize(k, copiers, routes[1..]);
    }
  }

  /** Nested instancing is the enumeration of the routes up the nesting: in
      order, one grid per route, and every route is there. */
  lemma NestingEnumeratesRoutes(k: Calculus, copiers: Copiers, c: Copier)
    requires Acyclic(copiers)
    ensures var routes := Routes(copiers, copiers.Keys, c);
      && Placements(k, copiers, c) == AllGrids(k, copiers, routes)
      && |Placements(k, copiers, c)| == TotalCopies(copiers, routes)
      && forall r :: r in routes <==> IsRoute(copiers, r) && r[0] == c
  {
    var routes := Routes(copiers, copiers.Keys, c);
    PlacedEnumerates(k, copiers, copiers.Keys, c);
    AllGridsSize(k, copiers, routes);
    var rank: map<Path, nat> :| Ranked(copiers, rank);
    forall r | IsRoute(copiers, r) && r[0] == c ensures r in routes {
      RoutesAreComplete(copiers, rank, copiers.Keys, r);
    }
  }

  /** Some instancer on the route copies nothing. */
  ghost predicate Broken(copiers: Copiers, route: seq<Copier>)
    requires IsRoute(copiers, route)
  {
    exists j :: 0 <= j < |route| && CopiesAt(copiers, route[j]) == 0
  }

  lemma {:induction false} NoCopiesOnRoute(copiers: Copiers, route: seq<Copier>)
    requires IsRoute(copiers, route)
    ensures Copies(copiers, route) == 0 <==> Broken(copiers, route)
  {
    if |route| > 1 {
      var up := route[1..];
      NoCopiesOnRoute(copiers, up);
      assert forall j :: 0 <= j < |up| ==> up[j] == route[j + 1];
      var own := CopiesAt(copiers, route[0]);
      var rest := Copies(copiers, up);
      if own > 0 && rest > 0 { Positive(own, rest); }
      if Broken(copiers, route) {
        var j :| 0 <= j < |route| && CopiesAt(copiers, route[j]) == 0;
        if j > 0 { assert up[j - 1] == route[j]; }
      }
      if rest == 0 {
        var j :| 0 <= j < |up| && CopiesAt(copiers, up[j]) == 0;
        assert route[j + 1] == up[j];
      }
    }
  }

  lemma Positive(a: nat, b: nat)
    requires a > 0 && b > 0
    ensures a * b > 0
  {}

  lemma {:induction false} NoCopies(copiers: Copiers, routes: seq<seq<Copier>>)
    requires forall r :: r in routes ==> IsRoute(copiers, r)
    ensures TotalCopies(copiers, routes) == 0 <==> forall r :: r in routes ==> Copies(copiers, r) == 0
  {
    if routes != [] {
      NoCopies(copiers, routes[1..]);
      assert routes[0] in routes;
      forall r | r in routes && r != routes[0] ensures r in routes[1..] {}
    }
  }

  /** A prototype is placed nowhere exactly when no route climbs to the top
      through instancers that each copy it at least once. */
  lemma PlacedNowhere(k: Calculus, copiers: Copiers, c: Copier)
    requires Acyclic(copiers)
    ensures Placements(k, copiers, c) == [] <==>
      forall r: seq<Copier> :: IsRoute(copiers, r) && r[0] == c ==> Broken(copiers, r)
  {
    NestingEnumeratesRoutes(k, copiers, c);
    var routes := Routes(copiers, copiers.Keys, c);
    NoCopies(copiers, routes);
    forall r: seq<Copier> | IsRoute(copiers, r) ensures Copies(copiers, r) == 0 <==> Broken(copiers, r) {
      NoCopiesOnRoute(copiers, r);
    }
  }
}
