/** A scene announced prim by prim, in any order: the host's own opening run. */
module Populations {

  import opened Options
  import opened SceneServer
  import opened Instancing
  import opened Geometry
  import opened SharedList
  import opened SharedRuns
  import T = Translators

  /** A notice that a prim is there, of the type the scene gives it. */
  predicate Births(scene: T.Scene, e: Event) {
    e.OnPrims? &&
    match e.prim
    case GeometryAdded(g, curves) => g in scene.geometry && scene.geometry[g].curves == curves
    case MaterialAdded(q, _) => q in scene.materials
    case InstancerAdded(q, _) => q in scene.instancers
    case _ => false
  }

  predicate IsBirthOf(e: Event, g: Path) { e.OnPrims? && e.prim.GeometryAdded? && e.prim.path == g }

  predicate IsMaterialOf(e: Event, q: Path) { e.OnPrims? && e.prim.MaterialAdded? && e.prim.path == q }

  predicate IsInstancerOf(e: Event, q: Path) { e.OnPrims? && e.prim.InstancerAdded? && e.prim.path == q }

  /** No geometry is born twice, and none that is born is registered yet. */
  ghost predicate BornOnce(registered: set<Path>, births: seq<Event>) {
    && (forall n, g :: 0 <= n < |births| && IsBirthOf(births[n], g) ==> g !in registered)
    && forall m, n, g :: 0 <= m < n < |births| && IsBirthOf(births[m], g) ==> !IsBirthOf(births[n], g)
  }

  /** Every prim of the scene is announced. */
  ghost predicate Everybody(scene: T.Scene, births: seq<Event>) {
    && (forall g :: g in scene.geometry ==> exists n :: 0 <= n < |births| && IsBirthOf(births[n], g))
    && (forall q :: q in scene.materials ==> exists n :: 0 <= n < |births| && IsMaterialOf(births[n], q))
    && forall q :: q in scene.instancers ==> exists n :: 0 <= n < |births| && IsInstancerOf(births[n], q)
  }

  // ---------------------------------------------------------------- what a birth leaves alone

  lemma {:induction false} RepointStays(w: T.World, walk: seq<Path>)
    ensures var y := T.RepointGeometry(w, walk); y.scene == w.scene && y.geometry.Keys == w.geometry.Keys
    decreases |walk|
  {
    if walk != [] {
      hide ResolveBinding;
      if walk[0] !in w.geometry {
        RepointStays(w, walk[1..]);
      } else {
        var en := w.geometry[walk[0]];
        RepointStays(T.Took(w, walk[0], en.curves, ResolveBinding(T.Near(w), walk[0], en.ledger)), walk[1..]);
      }
    }
  }

  lemma {:induction false} PokeStays(k: Calculus, w: T.World, walk: seq<Path>)
    ensures var y := T.PokeGeometry(k, w, walk); y.scene == w.scene && y.geometry.Keys == w.geometry.Keys
    decreases |walk|
  {
    if walk != [] {
      hide RecomposeInstancing;
      if walk[0] !in w.geometry {
        PokeStays(k, w, walk[1..]);
      } else {
        var en := w.geometry[walk[0]];
        PokeStays(k, T.Took(w, walk[0], en.curves, RecomposeInstancing(k, T.Near(w), walk[0], en.curves, en.ledger)), walk[1..]);
      }
    }
  }

  lemma BirthStays(k: Calculus, x: World, e: Event)
    requires Births(x.prims.scene, e)
    ensures var y := Step(k, x, e);
      && y.prims.scene == x.prims.scene
      && forall g :: g in y.prims.geometry ==> g in x.prims.geometry || IsBirthOf(e, g)
  {
    hide AddEffect, T.RepointGeometry, T.PokeGeometry;
    match e.prim
    case MaterialAdded(q, walk) =>
      var registered := x.prims.(materials := x.prims.materials[q := q in x.prims.materials && x.prims.materials[q]]);
      RepointStays(T.NetworkSent(registered, q), walk);
    case InstancerAdded(q, walk) =>
      PokeStays(k, x.prims.(instancers := x.prims.instancers + {q}), walk);
    case GeometryAdded(_, _) =>
  }

  /** A first birth has no binding to have moved. */
  lemma FirstBirthMissesNothing(k: Calculus, x: World, e: Event)
    requires Births(x.prims.scene, e) && BornOnce(x.prims.geometry.Keys, [e])
    ensures !T.Misses(k, x.prims, e.prim)
  {
    if e.prim.GeometryAdded? { assert IsBirthOf([e][0], e.prim.path); }
  }

  // ---------------------------------------------------------------- what it pays

  predicate Settles(e: Event, d: T.Debt) {
    match d
    case MaterialPresence(q) => IsMaterialOf(e, q)
    case NetworkOwed(q) => IsMaterialOf(e, q)
    case InstancerPresence(q) => IsInstancerOf(e, q)
    case CopiesOwed(q) => IsInstancerOf(e, q)
    case _ => IsBirthOf(e, d.path)
  }

  lemma BirthPays(x: World, owed: iset<T.Debt>, e: Event)
    requires Births(x.prims.scene, e)
    ensures forall d :: d in Owing(x, owed, e) <==> d in owed && !Settles(e, d)
  {}

  lemma {:induction false} PopulationKeeps(k: Calculus, x: World, owed: iset<T.Debt>, births: seq<Event>)
    requires forall n :: 0 <= n < |births| ==> Births(x.prims.scene, births[n])
    requires BornOnce(x.prims.geometry.Keys, births)
    ensures CoveredRun(k, x, births) && NeverMisses(k, x, births)
    ensures forall d, n :: d in OwedAfter(k, x, owed, births) && 0 <= n < |births| ==> !Settles(births[n], d)
    ensures forall d :: d in OwedAfter(k, x, owed, births) ==> d in owed
    decreases |births|
  {
    if births != [] {
      var e, rest := births[0], births[1..];
      var y := Step(k, x, e);
      assert forall n :: 0 <= n < |rest| ==> rest[n] == births[n + 1];
      BirthStays(k, x, e);
      BirthPays(x, owed, e);
      assert BornOnce(x.prims.geometry.Keys, [e]);
      FirstBirthMissesNothing(k, x, e);
      assert BornOnce(y.prims.geometry.Keys, rest);
      hide Step, Owing, Settles, Births, T.Misses, BornOnce;
      PopulationKeeps(k, y, Owing(x, owed, e), rest);
      forall d, n | d in OwedAfter(k, x, owed, births) && 0 <= n < |births| ensures !Settles(births[n], d) {
        if n > 0 { assert births[n] == rest[n - 1]; }
      }
    }
  }

  /** Every debt of a scene that was not there before is about one of its prims. */
  lemma DebtsNameTheScene(scene: T.Scene, births: seq<Event>, d: T.Debt)
    requires T.Incurs(T.Scene(map[], map[], map[]), scene, d) && Everybody(scene, births)
    ensures exists n :: 0 <= n < |births| && Settles(births[n], d)
  {
    match d
    case GeometryPresence(g) =>
      var n :| 0 <= n < |births| && IsBirthOf(births[n], g);
      assert Settles(births[n], d);
    case MaterialPresence(q) =>
      var n :| 0 <= n < |births| && IsMaterialOf(births[n], q);
      assert Settles(births[n], d);
    case InstancerPresence(q) =>
      var n :| 0 <= n < |births| && IsInstancerOf(births[n], q);
      assert Settles(births[n], d);
    case CopiesOwed(q) =>
      var n :| 0 <= n < |births| && IsInstancerOf(births[n], q);
      assert Settles(births[n], d);
    case _ =>
  }

  /** So the theorem of runs speaks of every scene: announce all of it, in any
      order, each geometry once, and nothing is owed, nothing is missed, and the
      next delivered change set leaves the server holding the scene's translation. */
  lemma PopulationTranslates(k: Calculus, server: Db, resolved: Budget, scene: T.Scene, births: seq<Event>)
    requires (forall n :: 0 <= n < |births| ==> Births(scene, births[n])) && BornOnce({}, births) && Everybody(scene, births)
    requires LegalRun(k, Start(server, resolved), [OnPrims(T.SceneBecomes(scene))] + births)
    ensures var events := [OnPrims(T.SceneBecomes(scene))] + births;
      var y := After(k, Start(server, resolved), events);
      Complete(k, Start(server, resolved), events) && Translated(k, y, Step(k, y, Update(true)).prims.server)
  {
    var x, first := Start(server, resolved), OnPrims(T.SceneBecomes(scene));
    var events := [first] + births;
    var y := Step(k, x, first);
    assert events[0] == first && events[1..] == births;
    PopulationKeeps(k, y, Owing(x, iset{}, first), births);
    forall d ensures d !in OwedAfter(k, y, Owing(x, iset{}, first), births) {
      if d in OwedAfter(k, y, Owing(x, iset{}, first), births) { DebtsNameTheScene(scene, births, d); }
    }
    assert OwedAfter(k, x, iset{}, events) == iset{};
    assert Complete(k, x, events);
    hide Translated, Complete, Start, After, Step;
    RunEqualsFromScratch(k, server, resolved, events);
  }
}
