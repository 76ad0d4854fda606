/** The geometry translator: one prim becomes a payload, a companion material
    and an instance, kept up to date by the patches it appends. */
module Geometry {
  import opened Options
  import opened SceneServer
  import opened Instancing

  /** A geometry prim as read from the scene. `payload` is what reading its
      topology and primvars yields, if anything publishable. */
  datatype Prim = Prim(
    curves: bool, payload: Option<int>, color: int,
    visible: bool, world: Matrix, instancedBy: seq<Copier>, binding: Path)

  /** Which server objects a change touches. */
  datatype Dirt = Dirt(geometry: bool, color: bool, placement: bool, binding: bool)

  const EVERYTHING := Dirt(true, true, true, true)

  /** What a translator believes stands on the server, its binding, and the
      placement inputs it cached. */
  datatype Ledger = Ledger(
    payload: Option<Kind>, instanceLive: bool, binding: Path, wearsBinding: bool,
    visible: bool, protoXform: Matrix, instancedBy: seq<Copier>)

  /** What the other registries answer when asked: the materials on the wire,
      and the instancers. */
  datatype Registries = Registries(published: set<Path>, copiers: Copiers)

  /** What a step does: the ledger it leaves and the ops it appends. */
  datatype Effect = Effect(ledger: Ledger, ops: seq<Op>)

  function Companion(name: Path): Path { Child(name, "displayColor") }

  function KindOf(curves: bool): Kind { if curves then Curves else Mesh }

  function Worn(name: Path, l: Ledger): Path {
    if l.wearsBinding then l.binding else Companion(name)
  }

  function Idle(l: Ledger): Effect { Effect(l, []) }

  function Append(e: Effect, op: Op): Effect { Effect(e.ledger, e.ops + [op]) }

  function Followed(e: Effect, next: Effect): Effect { Effect(next.ledger, e.ops + next.ops) }

  predicate Bindable(near: Registries, binding: Path) {
    binding != EmptyPath && binding in near.published
  }

  // ---------------------------------------------------------------- placements

  /** The placements the server would accept, in order. */
  function Placeable(k: Calculus, proto: Matrix, chains: seq<Matrix>): seq<Matrix> {
    if chains == [] then []
    else
      var one := k.wire(k.times(proto, chains[0]));
      (if one.Some? then [one.value] else []) + Placeable(k, proto, chains[1..])
  }

  /** Every instancer's contribution in turn; an unregistered one parks the prim. */
  function Gathered(k: Calculus, copiers: Copiers, proto: Matrix, through: seq<Copier>): Option<seq<Matrix>> {
    if through == [] then Some([])
    else if through[0].path !in copiers then None
    else
      var rest := Gathered(k, copiers, proto, through[1..]);
      if rest.None? then None
      else Some(Placeable(k, proto, Placements(k, copiers, through[0])) + rest.value)
  }

  /** Where a prim stands, given the instancers; `None` is "nowhere yet". */
  function Standing(k: Calculus, copiers: Copiers, visible: bool, proto: Matrix, through: seq<Copier>): Option<seq<Matrix>> {
    if !visible then None
    else if through == [] then
      var lone := k.wire(proto);
      if lone.None? then None else Some([lone.value])
    else Gathered(k, copiers, proto, through)
  }

  // Where a prim stands, said on its own: not how the list is built, but what is on it.

  /** The list keeps the present values of what was tried, all of them, in order. */
  ghost predicate Kept(kept: seq<Matrix>, tried: seq<Option<Matrix>>) {
    exists picks: seq<int> :: Picks(kept, tried, picks)
  }

  ghost predicate Picks(kept: seq<Matrix>, tried: seq<Option<Matrix>>, picks: seq<int>) {
    && |picks| == |kept|
    && (forall n :: 0 <= n < |picks| ==> 0 <= picks[n] < |tried| && tried[picks[n]] == Some(kept[n]))
    && (forall m, n :: 0 <= m < n < |picks| ==> picks[m] < picks[n])
    && forall i :: 0 <= i < |tried| && tried[i].Some? ==> i in picks
  }

  /** The list is the parts, end to end. */
  ghost predicate Joined(all: seq<Matrix>, parts: seq<seq<Matrix>>) {
    exists cuts: seq<int> :: Cuts(all, parts, cuts)
  }

  ghost predicate Cuts(all: seq<Matrix>, parts: seq<seq<Matrix>>, cuts: seq<int>) {
    && |cuts| == |parts| + 1 && cuts[0] == 0 && cuts[|parts|] == |all|
    && forall n :: 0 <= n < |parts| ==> Cut(all, parts[n], cuts[n], cuts[n + 1])
  }

  ghost predicate Cut(all: seq<Matrix>, part: seq<Matrix>, from: int, to: int) {
    0 <= from <= to <= |all| && all[from..to] == part
  }

  /** A prim's own transform under each of a copier's chains, on the wire. */
  function Tried(k: Calculus, proto: Matrix, chains: seq<Matrix>): seq<Option<Matrix>> {
    seq(|chains|, n requires 0 <= n < |chains| => k.wire(k.times(proto, chains[n])))
  }

  ghost predicate Copied(k: Calculus, copiers: Copiers, proto: Matrix, through: seq<Copier>, all: seq<Matrix>, parts: seq<seq<Matrix>>) {
    && |parts| == |through| && Joined(all, parts)
    && forall n :: 0 <= n < |through| ==> Kept(parts[n], Tried(k, proto, Placements(k, copiers, through[n])))
  }

  /** A hidden prim stands nowhere. A lone one stands once, where it says, if the
      wire takes it. A copied one waits for every instancer, and then stands
      wherever one of them puts it, one instancer after another, chain by chain,
      less what the wire refuses. */
  ghost predicate Stands(k: Calculus, copiers: Copiers, visible: bool, proto: Matrix, through: seq<Copier>, standing: Option<seq<Matrix>>) {
    && (standing.Some? <==> visible && (through == [] ==> k.wire(proto).Some?) && forall n :: 0 <= n < |through| ==> through[n].path in copiers)
    && (standing.Some? && through == [] ==> |standing.value| == 1 && Some(standing.value[0]) == k.wire(proto))
    && (standing.Some? && through != [] ==> exists parts :: Copied(k, copiers, proto, through, standing.value, parts))
  }

  /** The same picks, one place on. */
  ghost predicate Ahead(later: seq<int>, picks: seq<int>, first: nat) {
    |picks| == first + |later| && (first == 1 ==> picks[0] == 0) && forall n :: 0 <= n < |later| ==> picks[first + n] == later[n] + 1
  }

  lemma PickAt(kept: seq<Matrix>, tried: seq<Option<Matrix>>, picks: seq<int>, n: nat)
    requires Picks(kept, tried, picks) && n < |picks|
    ensures n < |kept| && 0 <= picks[n] < |tried| && tried[picks[n]] == Some(kept[n])
  {}

  lemma AheadAt(later: seq<int>, picks: seq<int>, first: nat, m: nat)
    requires Ahead(later, picks, first) && m < |later|
    ensures first + m < |picks| && picks[first + m] == later[m] + 1
  {}

  lemma AheadFinds(kept: seq<Matrix>, tried: seq<Option<Matrix>>, later: seq<int>, picks: seq<int>, first: nat, all: seq<Matrix>)
    requires tried != [] && Picks(kept, tried[1..], later) && first <= 1 && Ahead(later, picks, first)
    requires |all| == |picks| == first + |later| && |kept| == |later| && all[first..] == kept
    requires first == 1 ==> picks[0] == 0 && tried[0] == Some(all[0])
    ensures forall n :: 0 <= n < |picks| ==> 0 <= picks[n] < |tried| && tried[picks[n]] == Some(all[n])
  {
    hide Picks, Ahead;
    forall n | first <= n < |picks| ensures 0 <= picks[n] < |tried| && tried[picks[n]] == Some(all[n]) {
      var m := n - first;
      PickAt(kept, tried[1..], later, m);
      AheadAt(later, picks, first, m);
      assert all[first..][m] == all[n] && tried[1..][later[m]] == tried[later[m] + 1];
    }
  }

  lemma AheadRises(later: seq<int>, picks: seq<int>, first: nat)
    requires (forall m, n :: 0 <= m < n < |later| ==> later[m] < later[n]) && (forall n :: 0 <= n < |later| ==> 0 <= later[n])
    requires first <= 1 && Ahead(later, picks, first)
    ensures forall m, n :: 0 <= m < n < |picks| ==> picks[m] < picks[n]
  {
    forall m, n | 0 <= m < n < |picks| ensures picks[m] < picks[n] {
      assert picks[first + (n - first)] == later[n - first] + 1;
      if m >= first { assert picks[first + (m - first)] == later[m - first] + 1; }
    }
  }

  lemma AheadHoldsAll(kept: seq<Matrix>, tried: seq<Option<Matrix>>, later: seq<int>, picks: seq<int>, first: nat)
    requires tried != [] && Picks(kept, tried[1..], later) && first == (if tried[0].Some? then 1 else 0) && Ahead(later, picks, first)
    ensures forall i :: 0 <= i < |tried| && tried[i].Some? ==> i in picks
  {
    forall i | 0 <= i < |tried| && tried[i].Some? ensures i in picks {
      if i == 0 {
        assert picks[0] == 0;
      } else {
        assert tried[1..][i - 1].Some?;
        var n :| 0 <= n < |later| && later[n] == i - 1;
        assert picks[first + n] == i;
      }
    }
  }

  /** One more thing tried, in front. */
  lemma PicksMore(kept: seq<Matrix>, tried: seq<Option<Matrix>>, later: seq<int>) returns (picks: seq<int>)
    requires tried != [] && Picks(kept, tried[1..], later)
    ensures Picks((if tried[0].Some? then [tried[0].value] else []) + kept, tried, picks)
  {
    var first := if tried[0].Some? then 1 else 0;
    var shifted := seq(|later|, n requires 0 <= n < |later| => later[n] + 1);
    picks := (if tried[0].Some? then [0] else []) + shifted;
    assert Ahead(later, picks, first);
    var all := (if tried[0].Some? then [tried[0].value] else []) + kept;
    assert |kept| == |later| && all[first..] == kept;
    AheadHoldsAll(kept, tried, later, picks, first);
    AheadFinds(kept, tried, later, picks, first, all);
    AheadRises(later, picks, first);
    hide Ahead;
  }

  lemma {:induction false} PlaceableKeeps(k: Calculus, proto: Matrix, chains: seq<Matrix>) returns (picks: seq<int>)
    ensures Picks(Placeable(k, proto, chains), Tried(k, proto, chains), picks)
  {
    if chains == [] { return []; }
    var later := PlaceableKeeps(k, proto, chains[1..]);
    assert Tried(k, proto, chains)[1..] == Tried(k, proto, chains[1..]);
    hide Picks;
    picks := PicksMore(Placeable(k, proto, chains[1..]), Tried(k, proto, chains), later);
  }

  /** Two rising lists of the same numbers agree place by place. */
  lemma {:induction false} SameRising(p: seq<int>, q: seq<int>, n: nat)
    requires (forall i, j :: 0 <= i < j < |p| ==> p[i] < p[j]) && (forall i, j :: 0 <= i < j < |q| ==> q[i] < q[j])
    requires (forall x :: x in p ==> x in q) && (forall x :: x in q ==> x in p) && n <= |p|
    ensures n <= |q| && p[..n] == q[..n]
  {
    if n > 0 {
      SameRising(p, q, n - 1);
      assert forall m :: 0 <= m < n - 1 ==> p[..n - 1][m] == p[m] && q[..n - 1][m] == q[m];
      assert p[n - 1] in q;
      var j :| 0 <= j < |q| && q[j] == p[n - 1];
      if q[n - 1] != p[n - 1] {
        assert q[n - 1] in p;
        var i :| 0 <= i < |p| && p[i] == q[n - 1];
      }
    }
  }

  lemma KeptOnce(a: seq<Matrix>, b: seq<Matrix>, tried: seq<Option<Matrix>>)
    requires Kept(a, tried) && Kept(b, tried)
    ensures a == b
  {
    var p :| Picks(a, tried, p);
    var q :| Picks(b, tried, q);
    SameRising(p, q, |p|);
    SameRising(q, p, |q|);
    assert p == p[..|p|] && q == q[..|q|];
    forall n | 0 <= n < |a| ensures a[n] == b[n] { assert tried[p[n]] == Some(a[n]) && tried[q[n]] == Some(b[n]); }
  }

  lemma {:induction false} GatheredJoins(k: Calculus, copiers: Copiers, proto: Matrix, through: seq<Copier>) returns (parts: seq<seq<Matrix>>, cuts: seq<int>)
    ensures Gathered(k, copiers, proto, through).Some? <==> forall n :: 0 <= n < |through| ==> through[n].path in copiers
    ensures |parts| == |through| && forall n :: 0 <= n < |through| ==> parts[n] == Placeable(k, proto, Placements(k, copiers, through[n]))
    ensures Gathered(k, copiers, proto, through).Some? ==> Cuts(Gathered(k, copiers, proto, through).value, parts, cuts)
  {
    hide Placements, Placeable;
    if through == [] { return [], [0]; }
    var later, places := GatheredJoins(k, copiers, proto, through[1..]);
    var first := Placeable(k, proto, Placements(k, copiers, through[0]));
    parts := [first] + later;
    cuts := [0] + seq(|places|, n requires 0 <= n < |places| => places[n] + |first|);
    if forall n :: 0 <= n < |through| ==> through[n].path in copiers {
      assert forall n :: 0 <= n < |through[1..]| ==> through[1..][n] == through[n + 1];
      var all := Gathered(k, copiers, proto, through).value;
      CutsShift(first, all[|first|..], later, places, all, cuts);
    } else {
      var n :| 0 <= n < |through| && through[n].path !in copiers;
      if n > 0 { assert through[1..][n - 1] == through[n]; }
    }
  }

  lemma CutsShift(first: seq<Matrix>, rest: seq<Matrix>, later: seq<seq<Matrix>>, places: seq<int>, all: seq<Matrix>, cuts: seq<int>)
    requires Cuts(rest, later, places) && all == first + rest
    requires cuts == [0] + seq(|places|, n requires 0 <= n < |places| => places[n] + |first|)
    ensures Cuts(all, [first] + later, cuts)
  {
    var parts := [first] + later;
    forall n | 0 <= n < |parts| ensures Cut(all, parts[n], cuts[n], cuts[n + 1]) {
      if n > 0 {
        assert Cut(rest, later[n - 1], places[n - 1], places[(n - 1) + 1]);
        assert all[cuts[n]..cuts[n + 1]] == rest[places[n - 1]..places[n]];
      }
    }
  }

  lemma {:induction false} JoinedOnce(a: seq<Matrix>, b: seq<Matrix>, parts: seq<seq<Matrix>>, c: seq<int>, d: seq<int>, n: nat)
    requires Cuts(a, parts, c) && Cuts(b, parts, d) && n <= |parts|
    ensures 0 <= c[n] == d[n] && c[n] <= |a| && d[n] <= |b| && a[..c[n]] == b[..d[n]]
  {
    if n > 0 {
      JoinedOnce(a, b, parts, c, d, n - 1);
      assert Cut(a, parts[n - 1], c[n - 1], c[(n - 1) + 1]) && Cut(b, parts[n - 1], d[n - 1], d[(n - 1) + 1]);
      assert a[..c[n]] == a[..c[n - 1]] + a[c[n - 1]..c[n]] && b[..d[n]] == b[..d[n - 1]] + b[d[n - 1]..d[n]];
    }
  }

  lemma CopiedIsGathered(k: Calculus, copiers: Copiers, proto: Matrix, through: seq<Copier>, all: seq<Matrix>, parts: seq<seq<Matrix>>)
    requires Copied(k, copiers, proto, through, all, parts) && Gathered(k, copiers, proto, through).Some?
    ensures all == Gathered(k, copiers, proto, through).value
  {
    hide Placements, Gathered, Placeable;
    var own, places := GatheredJoins(k, copiers, proto, through);
    forall n | 0 <= n < |through| ensures parts[n] == own[n] {
      var chains := Placements(k, copiers, through[n]);
      var picks := PlaceableKeeps(k, proto, chains);
      KeptOnce(parts[n], own[n], Tried(k, proto, chains));
    }
    assert parts == own;
    var cuts :| Cuts(all, parts, cuts);
    var other := Gathered(k, copiers, proto, through).value;
    JoinedOnce(all, other, parts, cuts, places, |parts|);
    assert all == all[..|all|] && other == other[..|other|];
  }

  lemma GatheredIsCopied(k: Calculus, copiers: Copiers, proto: Matrix, through: seq<Copier>)
    requires Gathered(k, copiers, proto, through).Some?
    ensures exists parts :: Copied(k, copiers, proto, through, Gathered(k, copiers, proto, through).value, parts)
  {
    hide Placements, Gathered, Placeable, Picks;
    var all := Gathered(k, copiers, proto, through).value;
    var parts, cuts := GatheredJoins(k, copiers, proto, through);
    forall n | 0 <= n < |through| ensures Kept(parts[n], Tried(k, proto, Placements(k, copiers, through[n]))) {
      var picks := PlaceableKeeps(k, proto, Placements(k, copiers, through[n]));
    }
    hide Tried, Kept;
    assert Joined(all, parts);
    assert Copied(k, copiers, proto, through, all, parts);
  }

  /** What is computed is where the prim stands, and nothing else is. */
  lemma StandingIs(k: Calculus, copiers: Copiers, visible: bool, proto: Matrix, through: seq<Copier>, standing: Option<seq<Matrix>>)
    ensures Stands(k, copiers, visible, proto, through, standing) <==> standing == Standing(k, copiers, visible, proto, through)
  {
    hide Placements, Gathered, Copied, Placeable;
    var parts, cuts := GatheredJoins(k, copiers, proto, through);
    var s := Standing(k, copiers, visible, proto, through);
    if through == [] {
      if standing.Some? && |standing.value| == 1 { assert standing.value == [standing.value[0]]; }
    } else if s.Some? {
      GatheredIsCopied(k, copiers, proto, through);
      if Stands(k, copiers, visible, proto, through, standing) {
        var own :| Copied(k, copiers, proto, through, standing.value, own);
        CopiedIsGathered(k, copiers, proto, through, standing.value, own);
      }
    }
  }

  function ComposePlacements(k: Calculus, copiers: Copiers, l: Ledger): Option<seq<Matrix>> {
    Standing(k, copiers, l.visible, l.protoXform, l.instancedBy)
  }

  // ---------------------------------------------------------------- the steps

  function WithdrawInstance(name: Path, l: Ledger): Effect {
    if l.instanceLive then Effect(l.(instanceLive := false), [Remove(Key(Instance, name))]) else Idle(l)
  }

  function Withdraw(name: Path, l: Ledger): Effect {
    var e := WithdrawInstance(name, l);
    if l.payload.Some? then
      Effect(e.ledger.(payload := None),
        e.ops + [Remove(Key(l.payload.value, name)), Remove(Key(Material, Companion(name)))])
    else e
  }

  function CreateInstance(near: Registries, name: Path, curves: bool, l: Ledger, placements: seq<Matrix>): Effect {
    var dressed := l.(wearsBinding := Bindable(near, l.binding), instanceLive := true);
    Effect(dressed, [Patch(Key(Instance, name), BLANK.(
      target := Some(Key(KindOf(curves), name)),
      material := Some(Worn(name, dressed)),
      transforms := Some(placements)))])
  }

  function Place(k: Calculus, near: Registries, name: Path, curves: bool, l: Ledger): Effect {
    var placements := ComposePlacements(k, near.copiers, l);
    if placements.None? then WithdrawInstance(name, l)
    else if !l.instanceLive then CreateInstance(near, name, curves, l, placements.value)
    else Effect(l, [Patch(Key(Instance, name), BLANK.(transforms := placements))])
  }

  function ResolveBinding(near: Registries, name: Path, l: Ledger): Effect {
    var bindable := Bindable(near, l.binding);
    if !l.instanceLive || bindable == l.wearsBinding then Idle(l)
    else
      var dressed := l.(wearsBinding := bindable);
      Effect(dressed, [Patch(Key(Instance, name), BLANK.(material := Some(Worn(name, dressed))))])
  }

  function RecomposeInstancing(k: Calculus, near: Registries, name: Path, curves: bool, l: Ledger): Effect {
    if l.instancedBy == [] || l.payload.None? then Idle(l) else Place(k, near, name, curves, l)
  }

  function Read(curves: bool, prim: Prim): Option<int> {
    if prim.curves == curves then prim.payload else None
  }

  function SourcePatch(name: Path, curves: bool, source: int): Op {
    Patch(Key(KindOf(curves), name), BLANK.(source := Some(source)))
  }

  function ColorPatch(name: Path, prim: Prim): Op {
    Patch(Key(Material, Companion(name)), BLANK.(baseColor := Some(prim.color)))
  }

  /** A payload of the other kind goes first. */
  function Cleared(name: Path, curves: bool, l: Ledger): Effect {
    if l.payload.Some? && l.payload.value != KindOf(curves) then Withdraw(name, l) else Idle(l)
  }

  /** Publish what was read, or withdraw; a payload that was not up brings its
      companion along. */
  function Filled(name: Path, curves: bool, prim: Prim, l: Ledger): Effect {
    var source := Read(curves, prim);
    if source.None? then Withdraw(name, l)
    else if l.payload.Some? then Effect(l, [SourcePatch(name, curves, source.value)])
    else Effect(l.(payload := Some(KindOf(curves))), [SourcePatch(name, curves, source.value), ColorPatch(name, prim)])
  }

  /** The geometry lane. */
  function PublishPayload(name: Path, curves: bool, prim: Prim, l: Ledger): Effect {
    var cleared := Cleared(name, curves, l);
    Followed(cleared, Filled(name, curves, prim, cleared.ledger))
  }

  predicate Born(name: Path, curves: bool, prim: Prim, l: Ledger) {
    && Read(curves, prim).Some?
    && (l.payload.None? || l.payload.value != KindOf(curves))
  }

  /** The displayColor and binding lanes. */
  function ColorAndBind(name: Path, prim: Prim, dirt: Dirt, born: bool, l: Ledger): Effect {
    var colored := if dirt.color && !born then Effect(l, [ColorPatch(name, prim)]) else Idle(l);
    if born || dirt.binding then colored.(ledger := l.(binding := prim.binding)) else colored
  }

  /** The placement lane: refresh the cached inputs, then place from them. */
  function PlaceAgain(k: Calculus, near: Registries, name: Path, curves: bool, prim: Prim, l: Ledger): Effect {
    Place(k, near, name, curves, l.(visible := prim.visible, protoXform := prim.world, instancedBy := prim.instancedBy))
  }

  /** The lanes behind the payload's: color, binding, placement, wear. */
  function DressAndPlace(k: Calculus, near: Registries, name: Path, curves: bool, prim: Prim, dirt: Dirt, born: bool, l: Ledger): Effect {
    var bound := ColorAndBind(name, prim, dirt, born, l);
    var placed :=
      if born || dirt.placement then Followed(bound, PlaceAgain(k, near, name, curves, prim, bound.ledger)) else bound;
    Followed(placed, ResolveBinding(near, name, placed.ledger))
  }

  function Reconcile(k: Calculus, near: Registries, name: Path, curves: bool, prim: Prim, dirt: Dirt, l: Ledger): Effect {
    var published := if dirt.geometry then PublishPayload(name, curves, prim, l) else Idle(l);
    if published.ledger.payload.None? then published
    else
      var born := dirt.geometry && Born(name, curves, prim, l);
      Followed(published, DressAndPlace(k, near, name, curves, prim, dirt, born, published.ledger))
  }

  /** A newcomer inherits the standing of the translator it supersedes, not
      its cached inputs. */
  function Inherited(k: Calculus, previous: Option<Ledger>): Ledger {
    var unborn := Ledger(None, false, EmptyPath, false, true, k.identity, []);
    if previous.None? then unborn
    else unborn.(
      payload := previous.value.payload, instanceLive := previous.value.instanceLive,
      binding := previous.value.binding, wearsBinding := previous.value.wearsBinding)
  }

  /** A birth or a resync: bring everything in line, or withdraw when there is
      no prim to read. */
  function AddEffect(k: Calculus, near: Registries, name: Path, curves: bool, prim: Option<Prim>, l: Ledger): Effect {
    if prim.Some? then Reconcile(k, near, name, curves, prim.value, EVERYTHING, l) else Withdraw(name, l)
  }

  // ---------------------------------------------------------------- what the server shows

  /** The values behind a prim's objects on the server. */
  datatype Content = Content(source: int, color: int, material: Path, placements: seq<Matrix>)

  function When<T>(up: bool, value: T): Option<T> { if up then Some(value) else None }

  function PayloadOf(up: bool, c: Content): Option<Fields> { When(up, BLANK.(source := Some(c.source))) }

  function CompanionOf(up: bool, c: Content): Option<Fields> { When(up, BLANK.(baseColor := Some(c.color))) }

  function InstanceOf(up: bool, name: Path, curves: bool, c: Content): Option<Fields> {
    When(up, BLANK.(target := Some(Key(KindOf(curves), name)), material := Some(c.material), transforms := Some(c.placements)))
  }

  /** The server holds exactly the objects the ledger records, with these values. */
  ghost predicate Shows(db: Db, name: Path, l: Ledger, c: Content) {
    && (l.payload.Some? ==> l.payload.value == Mesh || l.payload.value == Curves)
    && (l.instanceLive ==> l.payload.Some?)
    && Get(db, Key(Mesh, name)) == PayloadOf(l.payload == Some(Mesh), c)
    && Get(db, Key(Curves, name)) == PayloadOf(l.payload == Some(Curves), c)
    && Get(db, Key(Material, Companion(name))) == CompanionOf(l.payload.Some?, c)
    && Get(db, Key(Instance, name)) == InstanceOf(l.instanceLive, name, l.payload == Some(Curves), c)
  }

  /** The kinds that stand under a geometry prim's own name. */
  predicate Own(kind: Kind) { kind == Mesh || kind == Curves || kind == Instance }

  predicate Owned(name: Path, key: Key) {
    if key.kind == Material then key.name == Companion(name) else Own(key.kind) && key.name == name
  }

  /** Only the prim's own objects differ. */
  ghost predicate Apart(before: Db, after: Db, name: Path) {
    forall key :: !Owned(name, key) ==> Get(before, key) == Get(after, key)
  }

  /** Replaying an effect from a server that shows the ledger. */
  ghost predicate Lands(db: Db, name: Path, e: Effect, after: Db, c: Content) {
    && Replay(db, e.ops) == Some(after)
    && Shows(after, name, e.ledger, c)
    && Apart(db, after, name)
  }

  lemma LandsFollowed(db: Db, name: Path, e: Effect, mid: Db, next: Effect, after: Db, c: Content, d: Content)
    requires Lands(db, name, e, mid, c) && Lands(mid, name, next, after, d)
    ensures Lands(db, name, Followed(e, next), after, d)
  {
    ReplaySplits(db, e.ops, next.ops);
    forall key | !Owned(name, key) ensures Get(db, key) == Get(after, key) {
      assert Get(db, key) == Get(mid, key);
    }
  }

  lemma LandsIdle(db: Db, name: Path, l: Ledger, c: Content)
    requires Shows(db, name, l, c)
    ensures Lands(db, name, Idle(l), db, c)
  {}

  lemma WithdrawInstanceLands(db: Db, name: Path, l: Ledger, c: Content) returns (after: Db)
    requires Shows(db, name, l, c)
    ensures Lands(db, name, WithdrawInstance(name, l), after, c)
  {
    after := db;
    if l.instanceLive {
      var op := Remove(Key(Instance, name));
      ReplayOne(db, op);
      after := Apply(db, op).value;
    }
  }

  lemma WithdrawLands(db: Db, name: Path, l: Ledger, c: Content) returns (after: Db)
    requires Shows(db, name, l, c)
    ensures Lands(db, name, Withdraw(name, l), after, c)
  {
    var e := WithdrawInstance(name, l);
    after := WithdrawInstanceLands(db, name, l, c);
    if l.payload.Some? {
      var drop, fade := Remove(Key(l.payload.value, name)), Remove(Key(Material, Companion(name)));
      var mid := after;
      ReplayOne(mid, drop);
      var less := Apply(mid, drop).value;
      ReplayOne(less, fade);
      after := Apply(less, fade).value;
      ReplaySplits(mid, [drop], [fade]);
      var next := Effect(e.ledger.(payload := None), [drop] + [fade]);
      assert Lands(mid, name, next, after, c);
      LandsFollowed(db, name, e, mid, next, after, c, c);
      assert Followed(e, next) == Withdraw(name, l);
    }
  }

  /** One patch to an object of the prim's own. */
  lemma PatchLands(db: Db, name: Path, l: Ledger, op: Op, c: Content) returns (after: Db)
    requires op.Patch? && Owned(name, op.key)
    requires Shows(Apply(db, op).value, name, l, c)
    ensures Lands(db, name, Effect(l, [op]), after, c)
  {
    ReplayOne(db, op);
    after := Apply(db, op).value;
  }

  /** What placing leaves: the instance stands where the cached inputs put it,
      and only an instance that was not up is dressed. */
  ghost predicate PlacedFrom(k: Calculus, near: Registries, name: Path, l: Ledger, c: Content, m: Ledger, d: Content) {
    var p := ComposePlacements(k, near.copiers, l);
    && m == l.(instanceLive := p.Some?, wearsBinding := m.wearsBinding)
    && (p.Some? ==> d.placements == p.value)
    && d.source == c.source && d.color == c.color
    && (l.instanceLive || p.None? ==> d.material == c.material && m.wearsBinding == l.wearsBinding)
    && (!l.instanceLive && p.Some? ==> m.wearsBinding == Bindable(near, l.binding) && d.material == Worn(name, m))
  }

  lemma PlaceLands(k: Calculus, near: Registries, db: Db, name: Path, curves: bool, l: Ledger, c: Content)
      returns (after: Db, d: Content)
    requires Shows(db, name, l, c) && l.payload == Some(KindOf(curves))
    ensures var e := Place(k, near, name, curves, l);
      && Lands(db, name, e, after, d)
      && PlacedFrom(k, near, name, l, c, e.ledger, d)
  {
    var e := Place(k, near, name, curves, l);
    var p := ComposePlacements(k, near.copiers, l);
    d := c;
    if p.None? {
      after := WithdrawInstanceLands(db, name, l, c);
    } else if !l.instanceLive {
      d := c.(placements := p.value, material := Worn(name, e.ledger));
      after := PatchLands(db, name, e.ledger, e.ops[0], d);
    } else {
      d := c.(placements := p.value);
      after := PatchLands(db, name, e.ledger, e.ops[0], d);
    }
  }

  lemma ResolveLands(near: Registries, db: Db, name: Path, l: Ledger, c: Content) returns (after: Db, d: Content)
    requires Shows(db, name, l, c)
    ensures var e := ResolveBinding(near, name, l);
      && Lands(db, name, e, after, d)
      && Resolved(near, name, l, c, e.ledger, d)
  {
    var e := ResolveBinding(near, name, l);
    if e.ops == [] {
      after, d := db, c;
    } else {
      d := c.(material := Worn(name, e.ledger));
      after := PatchLands(db, name, e.ledger, e.ops[0], d);
    }
  }

  /** A payload that was not up arrives with its companion. */
  lemma BirthLands(db: Db, name: Path, curves: bool, prim: Prim, l: Ledger, c: Content) returns (after: Db)
    requires Shows(db, name, l, c) && l.payload.None? && Read(curves, prim).Some?
    ensures Lands(db, name,
      Effect(l.(payload := Some(KindOf(curves))), [SourcePatch(name, curves, Read(curves, prim).value), ColorPatch(name, prim)]),
      after, c.(source := Read(curves, prim).value, color := prim.color))
  {
    var op, color := SourcePatch(name, curves, Read(curves, prim).value), ColorPatch(name, prim);
    var d := c.(source := Read(curves, prim).value, color := prim.color);
    var up := l.(payload := Some(KindOf(curves)));
    ReplayOne(db, op);
    var more := Apply(db, op).value;
    after := PatchLands(more, name, up, color, d);
    ReplaySplits(db, [op], [color]);
    assert [op] + [color] == [op, color];
  }

  /** A payload that is already up is replaced in place. */
  lemma RefillLands(db: Db, name: Path, curves: bool, prim: Prim, l: Ledger, c: Content) returns (after: Db)
    requires Shows(db, name, l, c) && l.payload == Some(KindOf(curves)) && Read(curves, prim).Some?
    ensures Lands(db, name,
      Effect(l, [SourcePatch(name, curves, Read(curves, prim).value)]), after, c.(source := Read(curves, prim).value))
  {
    after := PatchLands(db, name, l, SourcePatch(name, curves, Read(curves, prim).value), c.(source := Read(curves, prim).value));
  }

  lemma ClearedLands(db: Db, name: Path, curves: bool, l: Ledger, c: Content) returns (mid: Db)
    requires Shows(db, name, l, c)
    ensures var e := Cleared(name, curves, l);
      && Lands(db, name, e, mid, c) && Shows(mid, name, e.ledger, c)
      && e.ledger == l.(payload := if l.payload == Some(KindOf(curves)) then l.payload else None,
                        instanceLive := l.instanceLive && l.payload == Some(KindOf(curves)))
  {
    if l.payload.Some? && l.payload.value != KindOf(curves) { mid := WithdrawLands(db, name, l, c); }
    else { mid := db; LandsIdle(db, name, l, c); }
  }

  lemma FilledLands(db: Db, name: Path, curves: bool, prim: Prim, l: Ledger, c: Content) returns (after: Db, d: Content)
    requires Shows(db, name, l, c) && (l.payload.None? || l.payload == Some(KindOf(curves)))
    ensures var e, source := Filled(name, curves, prim, l), Read(curves, prim);
      && Lands(db, name, e, after, d)
      && e.ledger == l.(payload := When(source.Some?, KindOf(curves)), instanceLive := l.instanceLive && source.Some?)
      && d == c.(source := if source.Some? then source.value else c.source,
                 color := if source.Some? && l.payload.None? then prim.color else c.color)
  {
    d := c;
    if Read(curves, prim).None? {
      after := WithdrawLands(db, name, l, c);
    } else if l.payload.Some? {
      d := c.(source := Read(curves, prim).value);
      after := RefillLands(db, name, curves, prim, l, c);
    } else {
      d := c.(source := Read(curves, prim).value, color := prim.color);
      after := BirthLands(db, name, curves, prim, l, c);
    }
  }

  lemma PublishLands(db: Db, name: Path, curves: bool, prim: Prim, l: Ledger, c: Content) returns (after: Db, d: Content)
    requires Shows(db, name, l, c)
    ensures var e := PublishPayload(name, curves, prim, l);
      var source := Read(curves, prim);
      && Lands(db, name, e, after, d)
      && e.ledger.payload == When(source.Some?, KindOf(curves))
      && (source.Some? ==> d.source == source.value)
      && d.material == c.material && d.placements == c.placements
      && d.color == (if Born(name, curves, prim, l) then prim.color else c.color)
      && e.ledger == l.(payload := e.ledger.payload, instanceLive := l.instanceLive && l.payload == e.ledger.payload)
  {
    assert l.instanceLive ==> l.payload.Some?;
    hide Shows, Lands, Cleared, Filled;
    var cleared := Cleared(name, curves, l);
    var mid := ClearedLands(db, name, curves, l, c);
    after, d := FilledLands(mid, name, curves, prim, cleared.ledger, c);
    LandsFollowed(db, name, cleared, mid, Filled(name, curves, prim, cleared.ledger), after, c, d);
  }

  /** The edit the binding lane misses: a live instance that wears its binding
      is moved from it straight to another material on the wire, so the wear
      it compares has not changed. */
  predicate MissesRepoint(k: Calculus, near: Registries, name: Path, curves: bool, prim: Prim, dirt: Dirt, l: Ledger) {
    && dirt.binding && l.instanceLive && l.wearsBinding
    && prim.binding != l.binding && Bindable(near, prim.binding)
    && (dirt.geometry ==> Read(curves, prim).Some? && l.payload == Some(KindOf(curves)))
    && (dirt.placement ==> Standing(k, near.copiers, prim.visible, prim.world, prim.instancedBy).Some?)
  }

  /** The instance wears on the server what the ledger says it wears. */
  ghost predicate Wears(name: Path, l: Ledger, c: Content) {
    l.instanceLive ==> c.material == Worn(name, l)
  }

  /** The ledger says "the bound material" exactly when it is on the wire. */
  ghost predicate Squared(near: Registries, l: Ledger) {
    l.instanceLive ==> (l.wearsBinding <==> Bindable(near, l.binding))
  }

  ghost predicate Dressed(near: Registries, name: Path, l: Ledger, c: Content) {
    Wears(name, l, c) && Squared(near, l)
  }

  /** The instance stands exactly where its cached inputs put it. */
  ghost predicate Stood(k: Calculus, copiers: Copiers, l: Ledger, c: Content) {
    l.payload.Some? ==>
      var p := ComposePlacements(k, copiers, l);
      (l.instanceLive <==> p.Some?) && (p.Some? ==> c.placements == p.value)
  }

  lemma ColorAndBindLands(db: Db, name: Path, prim: Prim, dirt: Dirt, born: bool, l: Ledger, c: Content)
      returns (after: Db, d: Content)
    requires Shows(db, name, l, c) && l.payload.Some?
    requires born ==> c.color == prim.color
    ensures var e := ColorAndBind(name, prim, dirt, born, l);
      && Lands(db, name, e, after, d)
      && d == c.(color := if dirt.color then prim.color else c.color)
      && e.ledger == l.(binding := if born || dirt.binding then prim.binding else l.binding)
  {
    after, d := db, c;
    if dirt.color && !born {
      d := c.(color := prim.color);
      after := PatchLands(db, name, l, ColorPatch(name, prim), d);
    }
  }

  /** What placing again leaves: the inputs are the prim's, the instance stands
      where they put it, and only an instance that was not up is dressed. */
  lemma PlaceAgainLands(k: Calculus, near: Registries, db: Db, name: Path, curves: bool, prim: Prim, l: Ledger, c: Content)
      returns (after: Db, d: Content)
    requires Shows(db, name, l, c) && l.payload == Some(KindOf(curves))
    ensures var e := PlaceAgain(k, near, name, curves, prim, l);
      && Lands(db, name, e, after, d)
      && Relocated(k, near, name, prim, l, c, e.ledger, d)
  {
    var cached := l.(visible := prim.visible, protoXform := prim.world, instancedBy := prim.instancedBy);
    after, d := PlaceLands(k, near, db, name, curves, cached, c);
  }

  ghost predicate Relocated(k: Calculus, near: Registries, name: Path, prim: Prim, l: Ledger, c: Content, m: Ledger, d: Content) {
    && m == l.(visible := prim.visible, protoXform := prim.world, instancedBy := prim.instancedBy,
               instanceLive := m.instanceLive, wearsBinding := m.wearsBinding)
    && Stood(k, near.copiers, m, d)
    && d.source == c.source && d.color == c.color
    && (l.instanceLive || !m.instanceLive ==> d.material == c.material && m.wearsBinding == l.wearsBinding)
    && (!l.instanceLive && m.instanceLive ==> m.wearsBinding == Bindable(near, l.binding) && d.material == Worn(name, m))
  }

  /** What the lanes behind the payload's leave. The last clause is the exact
      condition under which the instance ends up dressed. */
  ghost predicate DressedAndPlaced(k: Calculus, near: Registries, name: Path, prim: Prim, dirt: Dirt, born: bool, l: Ledger, c: Content, m: Ledger, d: Content) {
    && m.payload == l.payload
    && d.source == c.source
    && d.color == (if dirt.color then prim.color else c.color)
    && m.binding == (if born || dirt.binding then prim.binding else l.binding)
    && (if born || dirt.placement then
          && m.visible == prim.visible && m.protoXform == prim.world && m.instancedBy == prim.instancedBy
          && Stood(k, near.copiers, m, d)
        else
          && m.visible == l.visible && m.protoXform == l.protoXform && m.instancedBy == l.instancedBy
          && m.instanceLive == l.instanceLive && d.placements == c.placements)
    && Squared(near, m)
    && (Wears(name, m, d) <==>
         !(dirt.binding && l.instanceLive && l.wearsBinding && prim.binding != l.binding && Bindable(near, prim.binding)
           && m.instanceLive))
  }

  /** What settling the wear leaves. */
  ghost predicate Resolved(near: Registries, name: Path, l: Ledger, c: Content, m: Ledger, d: Content) {
    && m == l.(wearsBinding := if l.instanceLive then Bindable(near, l.binding) else l.wearsBinding)
    && d == c.(material := if m == l then c.material else Worn(name, m))
  }

  lemma LanesCompose(k: Calculus, near: Registries, name: Path, prim: Prim, dirt: Dirt, born: bool,
      l: Ledger, c: Content, l1: Ledger, c1: Content, l2: Ledger, c2: Content, m: Ledger, d: Content)
    requires l.payload.Some? && Dressed(near, name, l, c)
    requires born ==> !l.instanceLive && c.color == prim.color
    requires l1 == l.(binding := if born || dirt.binding then prim.binding else l.binding)
    requires c1 == c.(color := if dirt.color then prim.color else c.color)
    requires if born || dirt.placement then Relocated(k, near, name, prim, l1, c1, l2, c2) else l2 == l1 && c2 == c1
    requires Resolved(near, name, l2, c2, m, d)
    ensures DressedAndPlaced(k, near, name, prim, dirt, born, l, c, m, d)
  {}

  lemma LanesLand(k: Calculus, near: Registries, db: Db, name: Path, curves: bool, prim: Prim, placing: bool, bound: Effect, db1: Db, c1: Content)
      returns (placed: Effect, after: Db, d: Content)
    requires Lands(db, name, bound, db1, c1) && bound.ledger.payload == Some(KindOf(curves))
    ensures placed == if placing then Followed(bound, PlaceAgain(k, near, name, curves, prim, bound.ledger)) else bound
    ensures Lands(db, name, placed, after, d)
    ensures if placing then Relocated(k, near, name, prim, bound.ledger, c1, placed.ledger, d)
      else placed.ledger == bound.ledger && d == c1
  {
    placed, after, d := bound, db1, c1;
    if placing {
      var again := PlaceAgain(k, near, name, curves, prim, bound.ledger);
      after, d := PlaceAgainLands(k, near, db1, name, curves, prim, bound.ledger, c1);
      placed := Followed(bound, again);
      LandsFollowed(db, name, bound, db1, again, after, c1, d);
    }
  }

  lemma DressAndPlaceLands(k: Calculus, near: Registries, db: Db, name: Path, curves: bool, prim: Prim, dirt: Dirt, born: bool, l: Ledger, c: Content)
      returns (after: Db, d: Content)
    requires Shows(db, name, l, c) && l.payload == Some(KindOf(curves))
    requires Dressed(near, name, l, c)
    requires born ==> !l.instanceLive && c.color == prim.color
    ensures var e := DressAndPlace(k, near, name, curves, prim, dirt, born, l);
      && Lands(db, name, e, after, d)
      && DressedAndPlaced(k, near, name, prim, dirt, born, l, c, e.ledger, d)
  {
    var bound := ColorAndBind(name, prim, dirt, born, l);
    var db1, c1 := ColorAndBindLands(db, name, prim, dirt, born, l, c);
    var placed, db2, c2 := LanesLand(k, near, db, name, curves, prim, born || dirt.placement, bound, db1, c1);
    var last := ResolveBinding(near, name, placed.ledger);
    after, d := ResolveLands(near, db2, name, placed.ledger, c2);
    LandsFollowed(db, name, placed, db2, last, after, c2, d);
    LanesCompose(k, near, name, prim, dirt, born, l, c, bound.ledger, c1, placed.ledger, c2, last.ledger, d);
  }

  /** What a reconcile leaves, lane by lane; the last clause is exact. */
  ghost predicate Reconciled(k: Calculus, near: Registries, name: Path, curves: bool, prim: Prim, dirt: Dirt, l: Ledger, c: Content, m: Ledger, d: Content) {
    var born := l.payload != Some(KindOf(curves));
    && (if dirt.geometry then
          && m.payload == When(Read(curves, prim).Some?, KindOf(curves))
          && (m.payload.Some? ==> d.source == Read(curves, prim).value)
        else m.payload == l.payload && d.source == c.source)
    && (m.payload.Some? ==>
          && d.color == (if born || dirt.color then prim.color else c.color)
          && m.binding == (if born || dirt.binding then prim.binding else l.binding)
          && (if born || dirt.placement then
                && m.visible == prim.visible && m.protoXform == prim.world && m.instancedBy == prim.instancedBy
                && Stood(k, near.copiers, m, d)
              else
                && m.visible == l.visible && m.protoXform == l.protoXform && m.instancedBy == l.instancedBy
                && m.instanceLive == l.instanceLive && d.placements == c.placements))
    && Squared(near, m)
    && (Wears(name, m, d) <==> !MissesRepoint(k, near, name, curves, prim, dirt, l))
  }

  lemma ReconcileLands(k: Calculus, near: Registries, db: Db, name: Path, curves: bool, prim: Prim, dirt: Dirt, l: Ledger, c: Content)
      returns (after: Db, d: Content)
    requires Shows(db, name, l, c) && Dressed(near, name, l, c)
    requires dirt.geometry || l.payload.None? || l.payload == Some(KindOf(curves))
    ensures var e := Reconcile(k, near, name, curves, prim, dirt, l);
      && Lands(db, name, e, after, d)
      && Reconciled(k, near, name, curves, prim, dirt, l, c, e.ledger, d)
  {
    var published, mid, d1 := ReconcileHead(db, name, curves, prim, dirt, l, c);
    if published.ledger.payload.None? {
      after, d := mid, d1;
      ReconcileStops(k, near, name, curves, prim, dirt, l, c, published, d);
    } else {
      after, d := ReconcileContinues(k, near, db, mid, name, curves, prim, dirt, l, c, published, d1);
    }
  }

  lemma ReconcileStops(k: Calculus, near: Registries, name: Path, curves: bool, prim: Prim, dirt: Dirt, l: Ledger, c: Content, published: Effect, d: Content)
    requires published == if dirt.geometry then PublishPayload(name, curves, prim, l) else Idle(l)
    requires published.ledger.payload.None? && !published.ledger.instanceLive && (!dirt.geometry ==> d.source == c.source)
    requires l.instanceLive ==> l.payload.Some?
    requires dirt.geometry ==> Read(curves, prim).None?
    ensures Reconcile(k, near, name, curves, prim, dirt, l) == published
    ensures Reconciled(k, near, name, curves, prim, dirt, l, c, published.ledger, d)
  {}

  lemma ReconcileContinues(k: Calculus, near: Registries, db: Db, mid: Db, name: Path, curves: bool, prim: Prim, dirt: Dirt, l: Ledger, c: Content, published: Effect, d1: Content)
      returns (after: Db, d: Content)
    requires published == if dirt.geometry then PublishPayload(name, curves, prim, l) else Idle(l)
    requires Lands(db, name, published, mid, d1) && published.ledger.payload == Some(KindOf(curves))
    requires Dressed(near, name, l, c) && (l.instanceLive ==> l.payload.Some?)
    requires dirt.geometry || l.payload == Some(KindOf(curves))
    requires dirt.geometry ==> Read(curves, prim).Some? && d1.source == Read(curves, prim).value
    requires var born := l.payload != Some(KindOf(curves));
      && published.ledger == l.(payload := published.ledger.payload, instanceLive := l.instanceLive && !born)
      && d1 == c.(source := if dirt.geometry then d1.source else c.source, color := if born then prim.color else c.color)
    ensures var e := Reconcile(k, near, name, curves, prim, dirt, l);
      && Lands(db, name, e, after, d)
      && Reconciled(k, near, name, curves, prim, dirt, l, c, e.ledger, d)
  {
    var born := dirt.geometry && Born(name, curves, prim, l);
    after, d := ReconcileTail(k, near, db, mid, name, curves, prim, dirt, born, published, d1);
    var next := DressAndPlace(k, near, name, curves, prim, dirt, born, published.ledger);
    ReconcileComposes(k, near, name, curves, prim, dirt, born, l, c, published.ledger, d1, next.ledger, d);
  }

  lemma ReconcileHead(db: Db, name: Path, curves: bool, prim: Prim, dirt: Dirt, l: Ledger, c: Content)
      returns (published: Effect, mid: Db, d1: Content)
    requires Shows(db, name, l, c)
    requires dirt.geometry || l.payload.None? || l.payload == Some(KindOf(curves))
    ensures published == if dirt.geometry then PublishPayload(name, curves, prim, l) else Idle(l)
    ensures Lands(db, name, published, mid, d1)
    ensures dirt.geometry ==> published.ledger.payload == When(Read(curves, prim).Some?, KindOf(curves))
    ensures dirt.geometry && Read(curves, prim).Some? ==> d1.source == Read(curves, prim).value
    ensures var born := dirt.geometry && Born(name, curves, prim, l);
      && published.ledger == l.(payload := published.ledger.payload, instanceLive := l.instanceLive && l.payload == published.ledger.payload)
      && d1 == c.(source := if dirt.geometry then d1.source else c.source, color := if born then prim.color else c.color)
  {
    if dirt.geometry { mid, d1 := PublishLands(db, name, curves, prim, l, c); published := PublishPayload(name, curves, prim, l); }
    else { published, mid, d1 := Idle(l), db, c; }
  }

  lemma ReconcileTail(k: Calculus, near: Registries, db: Db, mid: Db, name: Path, curves: bool, prim: Prim, dirt: Dirt, born: bool, published: Effect, d1: Content)
      returns (after: Db, d: Content)
    requires Lands(db, name, published, mid, d1) && published.ledger.payload == Some(KindOf(curves))
    requires Dressed(near, name, published.ledger, d1)
    requires born ==> !published.ledger.instanceLive && d1.color == prim.color
    ensures var next := DressAndPlace(k, near, name, curves, prim, dirt, born, published.ledger);
      && Lands(db, name, Followed(published, next), after, d)
      && DressedAndPlaced(k, near, name, prim, dirt, born, published.ledger, d1, next.ledger, d)
  {
    after, d := DressAndPlaceLands(k, near, mid, name, curves, prim, dirt, born, published.ledger, d1);
    LandsFollowed(db, name, published, mid, DressAndPlace(k, near, name, curves, prim, dirt, born, published.ledger), after, d1, d);
  }

  /** The exact condition for a missed repoint, from the two stages. */
  lemma ReconcileComposes(k: Calculus, near: Registries, name: Path, curves: bool, prim: Prim, dirt: Dirt, born: bool,
      l: Ledger, c: Content, p: Ledger, d1: Content, m: Ledger, d: Content)
    requires (l.instanceLive ==> l.payload.Some?) && Dressed(near, name, l, c)
    requires dirt.geometry || l.payload == Some(KindOf(curves))
    requires born == (l.payload != Some(KindOf(curves)))
    requires p == l.(payload := Some(KindOf(curves)), instanceLive := l.instanceLive && !born)
    requires dirt.geometry ==> Read(curves, prim).Some? && d1.source == Read(curves, prim).value
    requires d1 == c.(source := if dirt.geometry then d1.source else c.source, color := if born then prim.color else c.color)
    requires DressedAndPlaced(k, near, name, prim, dirt, born, p, d1, m, d)
    ensures Reconciled(k, near, name, curves, prim, dirt, l, c, m, d)
  {
    if dirt.placement {
      assert m.instanceLive <==> Standing(k, near.copiers, prim.visible, prim.world, prim.instancedBy).Some?;
    }
  }
}
