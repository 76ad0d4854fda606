/** What the geometry, material and instancer translators leave on the server is
    the scene translated from nothing; and the runs in which it is not. */
module TranslatorRuns {
  import opened Options
  import opened SceneServer
  import opened Instancing
  import opened Geometry
  import opened Translators

  // ---------------------------------------------------------------- from scratch

  function Everyone(scene: Scene): Copiers {
    map q | q in scene.instancers :: Some(scene.instancers[q])
  }

  function Dress(scene: Scene, g: Path, prim: Prim): Path {
    if prim.binding != EmptyPath && prim.binding in scene.materials then prim.binding else Child(g, "displayColor")
  }

  /** A scene translated from nothing, object by object: a payload and a
      companion per readable prim, an instance where the prim is visible and
      placeable, every material's network. */
  function Translation(k: Calculus, scene: Scene, key: Key): Option<Fields> {
    var g := key.name;
    var readable := g in scene.geometry && scene.geometry[g].payload.Some?;
    match key.kind
    case Mesh => if readable && !scene.geometry[g].curves then Some(BLANK.(source := scene.geometry[g].payload)) else None
    case Curves => if readable && scene.geometry[g].curves then Some(BLANK.(source := scene.geometry[g].payload)) else None
    case Material =>
      if g in scene.materials then
        Some(BLANK.(baseColor := Some(scene.materials[g].baseColor), shading := Some(scene.materials[g].shading)))
      else if g.Child? && g.name == "displayColor" && g.parent in scene.geometry && scene.geometry[g.parent].payload.Some? then
        Some(BLANK.(baseColor := Some(scene.geometry[g.parent].color)))
      else None
    case Instance =>
      if !readable then None
      else
        var prim := scene.geometry[g];
        var placements := Standing(k, Everyone(scene), prim.visible, prim.world, prim.instancedBy);
        if placements.None? then None
        else Some(BLANK.(
          target := Some(Key(if prim.curves then Curves else Mesh, g)), material := Some(Dress(scene, g, prim)), transforms := placements))
    case _ => None
  }

  /** An instance object against the scene: it is there just when the prim reads,
      is visible, and either stands alone on a transform the wire takes or has
      every one of its instancers registered; it names the payload and what the
      prim wears, and its transforms are where the prim stands. */
  ghost predicate InstanceSaid(k: Calculus, scene: Scene, g: Path, at: Option<Fields>) {
    && (at.Some? <==>
          && g in scene.geometry && scene.geometry[g].payload.Some? && scene.geometry[g].visible
          && var p := scene.geometry[g];
          if p.instancedBy == [] then k.wire(p.world).Some? else forall n :: 0 <= n < |p.instancedBy| ==> p.instancedBy[n].path in scene.instancers)
    && (at.Some? ==>
          var p, fields := scene.geometry[g], at.value;
          && fields == BLANK.(
               target := Some(Key(if p.curves then Curves else Mesh, g)),
               material := Some(Dress(scene, g, p)),
               transforms := fields.transforms)
          && Stands(k, Everyone(scene), true, p.world, p.instancedBy, fields.transforms))
  }

  lemma TranslationSays(k: Calculus, scene: Scene, g: Path)
    ensures InstanceSaid(k, scene, g, Translation(k, scene, Key(Instance, g)))
  {
    if g in scene.geometry && scene.geometry[g].payload.Some? {
      var p := scene.geometry[g];
      StandingIs(k, Everyone(scene), p.visible, p.world, p.instancedBy, Standing(k, Everyone(scene), p.visible, p.world, p.instancedBy));
    }
  }

  ghost predicate Translated(k: Calculus, scene: Scene, db: Db) {
    forall key :: Get(db, key) == Translation(k, scene, key)
  }

  lemma RegistriesSettle(w: World)
    requires Presences(w, iset{})
    ensures w.geometry.Keys == w.scene.geometry.Keys && w.materials.Keys == w.scene.materials.Keys
    ensures CopiersOf(w.scene, w.instancers) == Everyone(w.scene)
  {
    assert forall q :: InstancerPresence(q) !in iset{};
  }

  lemma MaterialSettles(k: Calculus, w: World, db: Db, q: Path)
    requires Consistent(k, w, iset{}, db) && w.geometry.Keys == w.scene.geometry.Keys && w.materials.Keys == w.scene.materials.Keys
    requires q in w.scene.materials
    ensures Get(db, Key(Material, q)) == Translation(k, w.scene, Key(Material, q)) && w.materials[q]
  {
    assert MaterialFits(w.scene, iset{}, db, q, w.materials[q]);
  }

  /** A prim whose ledger is the scene's own shows just what its translation says. */
  lemma ShownAsTranslated(k: Calculus, scene: Scene, db: Db, g: Path, l: Ledger, c: Content)
    requires g in scene.geometry && Companion(g) !in scene.materials
    requires Shows(db, g, l, c) && Wears(g, l, c)
    requires l.payload == When(scene.geometry[g].payload.Some?, KindOf(scene.geometry[g].curves))
    requires l.payload.Some? ==> Some(c.source) == scene.geometry[g].payload && c.color == scene.geometry[g].color
    requires l.payload.Some? ==>
      var p := scene.geometry[g];
      var standing := Standing(k, Everyone(scene), p.visible, p.world, p.instancedBy);
      l.instanceLive == standing.Some? && (standing.Some? ==> c.placements == standing.value)
    requires l.instanceLive ==> Worn(g, l) == Dress(scene, g, scene.geometry[g])
    ensures forall kind :: Own(kind) ==> Get(db, Key(kind, g)) == Translation(k, scene, Key(kind, g))
    ensures Get(db, Key(Material, Companion(g))) == Translation(k, scene, Key(Material, Companion(g)))
  {
    hide Standing, Everyone, Worn, Dress, Get;
  }

  lemma GeometrySettles(k: Calculus, w: World, db: Db, g: Path)
    requires Consistent(k, w, iset{}, db) && g in w.geometry && g in w.scene.geometry
    requires CopiersOf(w.scene, w.instancers) == Everyone(w.scene)
    requires forall q :: q in w.scene.materials ==> q in w.materials && w.materials[q]
    requires w.materials.Keys == w.scene.materials.Keys
    ensures forall kind :: Own(kind) ==> Get(db, Key(kind, g)) == Translation(k, w.scene, Key(kind, g))
    ensures Get(db, Key(Material, Companion(g))) == Translation(k, w.scene, Key(Material, Companion(g)))
  {
    hide UpToDate, Standing, Translation, NoStrays, MaterialsFit, Presences;
    var en, prim := w.geometry[g], w.scene.geometry[g];
    assert Fits(k, w, iset{}, db, g) && Squared(Near(w), en.ledger);
    var c: Content :| Shows(db, g, en.ledger, c) && Wears(g, en.ledger, c)
      && UpToDate(k, Some(prim), Near(w).copiers, PaidFor(w.instancers, iset{}, g), en, c);
    GeometryReads(k, Near(w), Some(prim), PaidFor(w.instancers, iset{}, g), en, c);
    assert Bindable(Near(w), prim.binding) <==> prim.binding != EmptyPath && prim.binding in w.scene.materials;
    assert Companion(g) !in w.materials;
    ShownAsTranslated(k, w.scene, db, g, en.ledger, c);
  }

  /** With nothing owed the ledger is the prim. */
  lemma GeometryReads(k: Calculus, near: Registries, prim: Option<Prim>, paid: Paid, en: Entry, c: Content)
    requires UpToDate(k, prim, near.copiers, paid, en, c) && paid == Paid(true, true, true, true, true, true)
    ensures prim.Some? && en.curves == prim.value.curves
    ensures var l, p := en.ledger, prim.value;
      && l.payload == When(p.payload.Some?, KindOf(p.curves))
      && (l.payload.Some? ==>
            && Some(c.source) == p.payload && c.color == p.color && l.binding == p.binding
            && var standing := Standing(k, near.copiers, p.visible, p.world, p.instancedBy);
            l.instanceLive == standing.Some? && (standing.Some? ==> c.placements == standing.value))
  {}

  lemma NothingElseStands(k: Calculus, w: World, db: Db, key: Key)
    requires NoStrays(w, db) && w.geometry.Keys == w.scene.geometry.Keys && w.materials.Keys == w.scene.materials.Keys
    requires !Accounted(w.geometry.Keys, w.materials.Keys, key)
    ensures Get(db, key) == Translation(k, w.scene, key)
  {}

  /** With every notice delivered, what the incremental translators leave on
      the server is the scene translated from scratch. */
  lemma IncrementalIsFromScratch(k: Calculus, w: World)
    requires Inv(k, w, iset{})
    ensures Mirror(w).Some? && Translated(k, w.scene, Mirror(w).value)
  {
    var db := Mirror(w).value;
    RegistriesSettle(w);
    forall q | q in w.scene.materials
      ensures Get(db, Key(Material, q)) == Translation(k, w.scene, Key(Material, q)) && w.materials[q]
    { MaterialSettles(k, w, db, q); }
    forall key ensures Get(db, key) == Translation(k, w.scene, key) {
      KeySettles(k, w, db, key);
    }
  }

  lemma KeySettles(k: Calculus, w: World, db: Db, key: Key)
    requires Consistent(k, w, iset{}, db) && w.geometry.Keys == w.scene.geometry.Keys && w.materials.Keys == w.scene.materials.Keys
    requires CopiersOf(w.scene, w.instancers) == Everyone(w.scene)
    requires forall q :: q in w.scene.materials ==> w.materials[q] && Get(db, Key(Material, q)) == Translation(k, w.scene, Key(Material, q))
    ensures Get(db, key) == Translation(k, w.scene, key)
  {
    if !Accounted(w.geometry.Keys, w.materials.Keys, key) {
      NothingElseStands(k, w, db, key);
    } else if key.kind != Material {
      GeometrySettles(k, w, db, key.name);
    } else if key.name !in w.materials {
      GeometrySettles(k, w, db, key.name.parent);
      assert key == Key(Material, Companion(key.name.parent));
    }
  }

  // ---------------------------------------------------------------- runs

  /** Before anything is heard: an empty scene, empty registries, and whatever
      the server happens to hold. */
  function Start(server: Db): World {
    World(Scene(map[], map[], map[]), map[], map[], {}, [], server, false)
  }

  ghost function After(k: Calculus, w: World, events: seq<Event>): World
    decreases |events|
  {
    if events == [] then w else After(k, Step(k, w, events[0]), events[1..])
  }

  ghost predicate LegalRun(k: Calculus, w: World, events: seq<Event>)
    decreases |events|
  {
    events != [] ==> Legal(w, events[0]) && LegalRun(k, Step(k, w, events[0]), events[1..])
  }

  lemma StartInStep(k: Calculus, server: Db)
    ensures Inv(k, Start(server), iset{})
  {
    assert Replay(map[], []) == Some(map[]);
  }

  lemma SameObjects(a: Db, b: Db)
    requires forall key :: Get(a, key) == Get(b, key)
    ensures a == b
  {
    forall key ensures (key in a <==> key in b) && (key in a ==> a[key] == b[key]) {
      assert Get(a, key) == Get(b, key);
    }
  }

  // ---------------------------------------------------------------- the missed repoint

  /** Right after a missed repoint the instance wears, on the server, something
      other than its binding, though its binding is on the wire. */
  ghost predicate WearsAnother(w: World, g: Path) {
    && g in w.scene.geometry && Bindable(Near(w), w.scene.geometry[g].binding)
    && Mirror(w).Some?
    && var i := Get(Mirror(w).value, Key(Instance, g));
    i.Some? && i.value.material.Some? && i.value.material.value != w.scene.geometry[g].binding
  }

  lemma MissedReconcile(k: Calculus, w: World, g: Path, curves: bool, prim: Prim, dirt: Dirt, l: Ledger, c: Content)
    requires Mirror(w).Some? && g in w.scene.geometry && w.scene.geometry[g] == prim
    requires Shows(Mirror(w).value, g, l, c) && Dressed(Near(w), g, l, c)
    requires dirt.geometry || l.payload == Some(KindOf(curves))
    requires MissesRepoint(k, Near(w), g, curves, prim, dirt, l)
    ensures WearsAnother(Took(w, g, curves, Reconcile(k, Near(w), g, curves, prim, dirt, l)), g)
  {
    var e := Reconcile(k, Near(w), g, curves, prim, dirt, l);
    var after, d := ReconcileLands(k, Near(w), Mirror(w).value, g, curves, prim, dirt, l, c);
    MirrorExtends(w, Took(w, g, curves, e), e.ops);
    assert Near(Took(w, g, curves, e)) == Near(w);
  }

  lemma MissedRepointDisagrees(k: Calculus, w: World, owed: iset<Debt>, e: Event)
    requires Inv(k, w, owed) && Legal(w, e) && Misses(k, w, e)
    ensures WearsAnother(Step(k, w, e), e.path)
  {
    var g, prim := e.path, w.scene.geometry[e.path];
    if e.GeometryAdded? {
      var l, c := InheritedStands(k, w, owed, g);
      MissedReconcile(k, w, g, e.curves, prim, EVERYTHING, l, c);
    } else {
      var c := Witness(k, w, owed, g);
      MissedReconcile(k, w, g, w.geometry[g].curves, prim, e.dirt, w.geometry[g].ledger, c);
    }
  }

  // A run that misses a repoint and then loses the material it kept wearing.

  const PRIM := Child(RootPath, "prim")
  const RED := Child(RootPath, "red")
  const BLUE := Child(RootPath, "blue")

  function Bound(binding: Path): Prim { Prim(false, Some(1), 0, true, 0, [], binding) }

  function Stage(binding: Path, materials: map<Path, Network>): Scene { Scene(map[PRIM := Bound(binding)], materials, map[]) }

  const BOTH := map[RED := Network(1, 1), BLUE := Network(2, 2)]

  const OPENING := [
    SceneBecomes(Stage(RED, BOTH)), MaterialAdded(RED, []), MaterialAdded(BLUE, []), GeometryAdded(PRIM, false)]

  const REBINDING := [
    SceneBecomes(Stage(BLUE, BOTH)), GeometryDirtied(PRIM, Dirt(false, false, false, true)),
    SceneBecomes(Stage(BLUE, map[BLUE := Network(2, 2)])), MaterialRemoved(RED, [PRIM])]

  const PLAIN := Calculus(0, (a: Matrix, b: Matrix) => 0, (m: Matrix) => Some(m))

  /** The world once both materials and the prim are up. */
  function Opened(): World {
    World(Stage(RED, BOTH),
      map[PRIM := Entry(false, Ledger(Some(Mesh), true, RED, true, true, 0, []))],
      map[RED := true, BLUE := true], {},
      [NetworkPatch(RED, Network(1, 1)), NetworkPatch(BLUE, Network(2, 2)),
       SourcePatch(PRIM, false, 1), ColorPatch(PRIM, Bound(RED)),
       Patch(Key(Instance, PRIM), BLANK.(target := Some(Key(Mesh, PRIM)), material := Some(RED), transforms := Some([0])))],
      map[], false)
  }

  lemma FourSteps(k: Calculus, w: World, events: seq<Event>)
    requires |events| == 4
    ensures var w1 := Step(k, w, events[0]);
      var w2 := Step(k, w1, events[1]);
      var w3 := Step(k, w2, events[2]);
      && After(k, w, events) == Step(k, w3, events[3])
      && (LegalRun(k, w, events) <==> Legal(w, events[0]) && Legal(w1, events[1]) && Legal(w2, events[2]) && Legal(w3, events[3]))
  {
    var w1 := Step(k, w, events[0]);
    var w2 := Step(k, w1, events[1]);
    var w3 := Step(k, w2, events[2]);
    assert After(k, w3, events[3..]) == After(k, Step(k, w3, events[3]), events[4..]);
    assert After(k, w2, events[2..]) == After(k, w3, events[3..]);
    assert After(k, w1, events[1..]) == After(k, w2, events[2..]);
    assert LegalRun(k, w3, events[3..]) <==> Legal(w3, events[3]);
    assert LegalRun(k, w2, events[2..]) <==> Legal(w2, events[2]) && LegalRun(k, w3, events[3..]);
    assert LegalRun(k, w1, events[1..]) <==> Legal(w1, events[1]) && LegalRun(k, w2, events[2..]);
  }

  lemma RedOpens(w: World)
    requires w == Start(map[]).(scene := Stage(RED, BOTH))
    ensures Step(PLAIN, w, OPENING[1])
      == World(Stage(RED, BOTH), map[], map[RED := true], {}, [NetworkPatch(RED, Network(1, 1))], map[], false)
  {}

  lemma BlueOpens(w: World)
    requires w == World(Stage(RED, BOTH), map[], map[RED := true], {}, [NetworkPatch(RED, Network(1, 1))], map[], false)
    ensures Step(PLAIN, w, OPENING[2]) == World(Stage(RED, BOTH), map[], map[RED := true, BLUE := true], {},
      [NetworkPatch(RED, Network(1, 1)), NetworkPatch(BLUE, Network(2, 2))], map[], false)
  {}

  lemma OpeningOpens()
    ensures After(PLAIN, Start(map[]), OPENING) == Opened()
    ensures LegalRun(PLAIN, Start(map[]), OPENING)
  {
    var k, w0 := PLAIN, Start(map[]);
    FourSteps(k, w0, OPENING);
    var w1 := Step(k, w0, OPENING[0]);
    assert w1 == w0.(scene := Stage(RED, BOTH));
    hide Step, LegalRun, After;
    RedOpens(w1);
    BlueOpens(Step(k, w1, OPENING[1]));
    BirthOpens(Step(k, Step(k, w1, OPENING[1]), OPENING[2]));
  }

  lemma BirthOpens(w: World)
    requires w == World(Stage(RED, BOTH), map[], map[RED := true, BLUE := true], {},
      [NetworkPatch(RED, Network(1, 1)), NetworkPatch(BLUE, Network(2, 2))], map[], false)
    ensures Step(PLAIN, w, OPENING[3]) == Opened() && Legal(w, OPENING[3])
  {
    var e := Reconcile(PLAIN, Near(w), PRIM, false, Bound(RED), EVERYTHING, Inherited(PLAIN, None));
    assert RED in Near(w).published;
    assert e.ops == Opened().pending[2..];
  }

  function Rebound(): World {
    World(Stage(BLUE, map[BLUE := Network(2, 2)]),
      map[PRIM := Entry(false, Ledger(Some(Mesh), true, BLUE, true, true, 0, []))],
      map[BLUE := true], {}, Opened().pending + [Remove(Key(Material, RED))], map[], false)
  }

  /** The geometry's entry after its binding moved: blue, and still "bound". */
  function Misread(): Entry { Entry(false, Ledger(Some(Mesh), true, BLUE, true, true, 0, [])) }

  lemma RebindIsMissed(w: World)
    requires w == Opened().(scene := Stage(BLUE, BOTH))
    ensures Step(PLAIN, w, REBINDING[1]) == w.(geometry := map[PRIM := Misread()])
    ensures Legal(w, REBINDING[1]) && Misses(PLAIN, w, REBINDING[1])
  {
    assert BLUE in Near(w).published;
    var e := Reconcile(PLAIN, Near(w), PRIM, false, Bound(BLUE), Dirt(false, false, false, true), w.geometry[PRIM].ledger);
    assert e == Effect(Misread().ledger, []);
    assert w.geometry[PRIM := Misread()] == map[PRIM := Misread()];
  }

  lemma RedDies(w: World)
    requires w == Opened().(scene := Stage(BLUE, map[BLUE := Network(2, 2)]), geometry := map[PRIM := Misread()])
    ensures Step(PLAIN, w, REBINDING[3]) == Rebound() && Legal(w, REBINDING[3])
  {
    var y := w.(materials := w.materials - {RED});
    assert y.materials == map[BLUE := true];
    assert BLUE in Near(y).published;
    assert RepointGeometry(y, [PRIM]) == Took(y, PRIM, false, ResolveBinding(Near(y), PRIM, Misread().ledger));
    assert y.geometry[PRIM := Misread()] == y.geometry;
    assert RepointGeometry(y, [PRIM]) == y;
    assert (set g | g in [PRIM]) == {PRIM};
  }

  lemma RebindingLeaves()
    ensures After(PLAIN, Opened(), REBINDING) == Rebound()
    ensures LegalRun(PLAIN, Opened(), REBINDING)
    ensures Misses(PLAIN, Step(PLAIN, Opened(), REBINDING[0]), REBINDING[1])
  {
    var k, w0 := PLAIN, Opened();
    FourSteps(k, w0, REBINDING);
    var w1 := Step(k, w0, REBINDING[0]);
    RebindIsMissed(w1);
    RedDies(Step(k, Step(k, w1, REBINDING[1]), REBINDING[2]));
  }

  lemma ReplayFive(db: Db, ops: seq<Op>, more: Op)
    requires |ops| == 5 && forall n :: 0 <= n < 5 ==> ops[n].Patch?
    ensures var d1 := Apply(db, ops[0]).value;
      var d2 := Apply(d1, ops[1]).value;
      var d3 := Apply(d2, ops[2]).value;
      var d4 := Apply(d3, ops[3]).value;
      Replay(db, ops + [more]) == Apply(Apply(d4, ops[4]).value, more)
  {
    var d1 := Apply(db, ops[0]).value;
    var d2 := Apply(d1, ops[1]).value;
    var d3 := Apply(d2, ops[2]).value;
    var d4 := Apply(d3, ops[3]).value;
    var d5 := Apply(d4, ops[4]).value;
    ReplayOne(d5, more);
    assert Replay(d4, ops[4..]) == Replay(d5, ops[5..]);
    assert Replay(d3, ops[3..]) == Replay(d4, ops[4..]);
    assert Replay(d2, ops[2..]) == Replay(d3, ops[3..]);
    assert Replay(d1, ops[1..]) == Replay(d2, ops[2..]);
    assert Replay(db, ops) == Some(d5);
    ReplaySplits(db, ops, [more]);
  }

  /** A legal run whose flush the server refuses: rebinding a live instance from
      one material to another sends nothing, so when the first material goes,
      the Remove strands the instance still wearing it. */
  lemma RebindingDangles()
    ensures LegalRun(PLAIN, Start(map[]), OPENING + REBINDING)
    ensures var w := After(PLAIN, Start(map[]), OPENING + REBINDING);
      w == Rebound() && !Accepted(Base(w), w.pending)
  {
    hide Accepted, Step, LegalRun, After;
    OpeningOpens();
    RebindingLeaves();
    RunsJoin(PLAIN, Start(map[]), OPENING, REBINDING);
    ReboundIsRefused();
  }

  lemma ReboundIsRefused()
    ensures !Accepted(Base(Rebound()), Rebound().pending)
  {
    var ops := Opened().pending;
    ReplayFive(map[], ops, Remove(Key(Material, RED)));
    var d1 := Apply(map[], ops[0]).value;
    var d2 := Apply(d1, ops[1]).value;
    var d3 := Apply(d2, ops[2]).value;
    var d4 := Apply(d3, ops[3]).value;
    var d5 := Apply(d4, ops[4]).value;
    assert d5[Key(Instance, PRIM)].material == Some(RED);
    assert Key(Material, RED) in d5;
    assert Key(Instance, PRIM) in d5 - {Key(Material, RED)};
  }

  lemma {:induction false} RunsJoin(k: Calculus, w: World, a: seq<Event>, b: seq<Event>)
    requires LegalRun(k, w, a) && LegalRun(k, After(k, w, a), b)
    ensures LegalRun(k, w, a + b) && After(k, w, a + b) == After(k, After(k, w, a), b)
    decreases |a|
  {
    if a == [] {
      assert a + b == b;
    } else {
      assert (a + b)[1..] == a[1..] + b;
      RunsJoin(k, Step(k, w, a[0]), a[1..], b);
    }
  }

  // ---------------------------------------------------------------- a material at a companion's name

  /** The prim unbound, beside the materials given. */
  function Bare(materials: map<Path, Network>): Scene { Scene(map[PRIM := Bound(EmptyPath)], materials, map[]) }

  const CLASH := Child(PRIM, "displayColor")

  /** The prim up, wearing its companion. */
  function Colored(): World {
    World(Bare(map[]), map[PRIM := Entry(false, Ledger(Some(Mesh), true, EmptyPath, false, true, 0, []))], map[], {},
      [SourcePatch(PRIM, false, 1), ColorPatch(PRIM, Bound(EmptyPath)),
       Patch(Key(Instance, PRIM), BLANK.(target := Some(Key(Mesh, PRIM)), material := Some(CLASH), transforms := Some([0])))],
      map[], false)
  }

  const CLASHING := [
    SceneBecomes(Bare(map[CLASH := Network(1, 1)])), MaterialAdded(CLASH, [PRIM]),
    SceneBecomes(Bare(map[])), MaterialRemoved(CLASH, [PRIM])]

  lemma ColoredIsReached()
    ensures Step(PLAIN, Step(PLAIN, Start(map[]), SceneBecomes(Bare(map[]))), GeometryAdded(PRIM, false)) == Colored()
  {
    var w := Step(PLAIN, Start(map[]), SceneBecomes(Bare(map[])));
    var e := Reconcile(PLAIN, Near(w), PRIM, false, Bound(EmptyPath), EVERYTHING, Inherited(PLAIN, None));
    assert e.ops == Colored().pending;
  }

  /** Repointing an unbound prim finds nothing to do. */
  lemma UnboundStays(w: World)
    requires w.geometry == Colored().geometry
    ensures RepointGeometry(w, [PRIM]) == w
  {
    assert !Bindable(Near(w), EmptyPath);
    assert RepointGeometry(w, [PRIM]) == Took(w, PRIM, false, ResolveBinding(Near(w), PRIM, w.geometry[PRIM].ledger));
    assert w.geometry[PRIM := w.geometry[PRIM]] == w.geometry;
    assert w.pending + [] == w.pending;
  }

  lemma ClashComes(w: World)
    requires w == Colored().(scene := Bare(map[CLASH := Network(1, 1)]))
    ensures Step(PLAIN, w, CLASHING[1]) == w.(materials := map[CLASH := true], pending := w.pending + [NetworkPatch(CLASH, Network(1, 1))])
  {
    var sent := w.(materials := map[CLASH := true], pending := w.pending + [NetworkPatch(CLASH, Network(1, 1))]);
    UnboundStays(sent);
    assert w.materials[CLASH := false][CLASH := true] == map[CLASH := true];
  }

  lemma ClashGoes(w: World)
    requires w.geometry == Colored().geometry && w.materials == map[CLASH := true]
    ensures Step(PLAIN, w, CLASHING[3]) == w.(materials := map[], pending := w.pending + [Remove(Key(Material, CLASH))])
  {
    assert w.materials - {CLASH} == map[];
    UnboundStays(w.(materials := map[]));
  }

  /** Why the two names must not meet: a material prim standing at a companion's
      name takes the companion with it when it goes, and the flush is refused. */
  lemma ClashingNamesDangle()
    ensures Step(PLAIN, Step(PLAIN, Start(map[]), SceneBecomes(Bare(map[]))), GeometryAdded(PRIM, false)) == Colored()
    ensures var w := After(PLAIN, Colored(), CLASHING); !Accepted(Base(w), w.pending)
  {
    ColoredIsReached();
    hide Reconcile;
    FourSteps(PLAIN, Colored(), CLASHING);
    var w1 := Step(PLAIN, Colored(), CLASHING[0]);
    ClashComes(w1);
    ClashGoes(Step(PLAIN, Step(PLAIN, w1, CLASHING[1]), CLASHING[2]));
    var ops := Colored().pending + [NetworkPatch(CLASH, Network(1, 1))];
    ClashReplays(ops);
  }

  lemma ClashReplays(ops: seq<Op>)
    requires ops == Colored().pending + [NetworkPatch(CLASH, Network(1, 1))]
    ensures !Accepted(map[], ops + [Remove(Key(Material, CLASH))])
  {
    ReplayFour(map[], ops, Remove(Key(Material, CLASH)));
    var d1 := Apply(map[], ops[0]).value;
    var d2 := Apply(d1, ops[1]).value;
    var d3 := Apply(d2, ops[2]).value;
    var d4 := Apply(d3, ops[3]).value;
    assert d4[Key(Instance, PRIM)].material == Some(CLASH);
    assert Key(Instance, PRIM) in d4 - {Key(Material, CLASH)};
  }

  lemma ReplayFour(db: Db, ops: seq<Op>, more: Op)
    requires |ops| == 4 && forall n :: 0 <= n < 4 ==> ops[n].Patch?
    ensures var d1 := Apply(db, ops[0]).value;
      var d2 := Apply(d1, ops[1]).value;
      var d3 := Apply(d2, ops[2]).value;
      Replay(db, ops + [more]) == Apply(Apply(d3, ops[3]).value, more)
  {
    var d1 := Apply(db, ops[0]).value;
    var d2 := Apply(d1, ops[1]).value;
    var d3 := Apply(d2, ops[2]).value;
    var d4 := Apply(d3, ops[3]).value;
    ReplayOne(d4, more);
    assert Replay(d3, ops[3..]) == Replay(d4, ops[4..]);
    assert Replay(d2, ops[2..]) == Replay(d3, ops[3..]);
    assert Replay(d1, ops[1..]) == Replay(d2, ops[2..]);
    assert Replay(db, ops) == Some(d4);
    ReplaySplits(db, ops, [more]);
  }
}
