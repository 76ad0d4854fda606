/** Every translator appends to one list, and the server takes that list whole or
    not at all: geometry, materials, instancers, lights, domes and settings
    together. */
module SharedList {

  import opened Options
  import opened SceneServer
  import opened Instancing
  import opened Geometry
  import T = Translators
  import R = TranslatorRuns
  import L = Lights
  import D = Domes
  import S = Settings

  /** `prims` holds the list and the server that everyone shares; `skies` is
      what the scene says of the domes. */
  datatype World = World(prims: T.World, lights: L.World, domes: seq<D.Dome>, skies: D.Scene, settings: S.Delegate)

  /** A notice to one family, a move of one of the two settings sources, or the
      frame hook, whose change set may fail to be delivered. */
  datatype Event =
    | OnPrims(prim: T.Event)
    | OnLight(light: L.Event)
    | OnDome(dome: D.Event)
    | OnSettings(move: S.Move)
    | Update(delivered: bool)

  const BUDGET := Key(Kind.Settings, EmptyPath)

  function BudgetPatch(b: Budget): Op { Patch(BUDGET, BLANK.(budget := b)) }

  function Grown(x: World, ops: seq<Op>): World { x.(prims := x.prims.(pending := x.prims.pending + ops)) }

  /** The settings op, whenever either source moved since the last one. */
  function Queued(x: World): World {
    var d := x.settings;
    if d.mapVersion == d.mapSent && d.slotVersion == d.slotSent then x
    else Grown(x, [BudgetPatch(Overlay(d.session, d.slot))]).(settings := S.Queued(d))
  }

  ghost function Step(k: Calculus, x: World, e: Event): World {
    match e
    case OnPrims(t) => x.(prims := T.Step(k, x.prims, t))
    case OnLight(l) => Grown(x, L.Move(x.lights, l).ops).(lights := L.Step(x.lights, l))
    case OnDome(d) => Grown(x, D.Step(x.domes, d).ops).(domes := D.Step(x.domes, d).live, skies := D.SceneAfter(x.skies, d))
    case OnSettings(m) => x.(settings := S.Moved(x.settings, m))
    case Update(delivered) =>
      var q := Queued(x);
      if delivered then q.(prims := T.Send(q.prims), settings := S.Updated(x.settings, true)) else q
  }

  // ---------------------------------------------------------------- hypotheses

  /** An area light stands at this path. */
  predicate Area(lights: L.World, p: Path) { L.Sent(lights, p).SentArea? }

  /** No geometry, companion or material has a claim on this name. */
  ghost predicate Vacant(w: T.World, p: Path) {
    p !in w.geometry && p !in w.materials && forall g :: g in w.geometry ==> Companion(g) != p
  }

  /** Names are not shared: no geometry, companion or material stands where an
      area light does, nor the other way round. Delta lights and domes have
      names of their own kind and may stand anywhere. */
  ghost predicate Legal(x: World, e: Event) {
    match e
    case OnPrims(t) =>
      && !t.Flush? && T.Legal(x.prims, t)
      && (t.GeometryAdded? ==> !Area(x.lights, t.path) && !Area(x.lights, Companion(t.path)))
      && (t.MaterialAdded? ==> !Area(x.lights, t.path))
    case OnLight(l) =>
      L.Legal(x.lights, l) && (Area(L.Step(x.lights, l), l.path) && !Area(x.lights, l.path) ==> Vacant(x.prims, l.path))
    case OnDome(_) => true
    case OnSettings(m) => !m.Update?
    case Update(_) => true
  }

  /** The two events that go wrong, as tests on the state before them. */
  predicate GoesWrong(k: Calculus, x: World, e: Event) {
    match e
    case OnPrims(t) => T.Misses(k, x.prims, t)
    case OnDome(d) => D.BlankRises(x.domes, d)
    case _ => false
  }

  ghost function Owing(x: World, owed: iset<T.Debt>, e: Event): iset<T.Debt> {
    if e.OnPrims? then T.Owing(x.prims, owed, e.prim) else owed
  }

  // ---------------------------------------------------------------- the invariant

  /** The keys of geometry and materials: what no area light, dome or settings
      object answers for. */
  predicate PrimKey(lights: L.World, key: Key) {
    (Own(key.kind) || key.kind == Material) && !(L.Borrowed(key.kind) && Area(lights, key.name))
  }

  ghost function PrimKeys(lights: L.World): iset<Key> { iset key | PrimKey(lights, key) }

  function BudgetOf(db: Db): Budget { if BUDGET in db then db[BUDGET].budget else UNSET }

  ghost predicate BudgetStands(db: Db) {
    && (BUDGET in db ==> db[BUDGET] == BLANK.(budget := db[BUDGET].budget))
    && forall name :: Key(Kind.Settings, name) in db ==> name == EmptyPath
  }

  /** The settings half is a refinement: the delegate's own account of what it
      queued and what landed is what the shared list and server show. */
  ghost predicate BudgetFits(x: World, db: Db) {
    && S.SentInv(x.settings) && x.settings.genesisSent == x.prims.sentGenesis
    && BudgetStands(db) && BudgetOf(db) == S.Held(x.settings)
  }

  ghost predicate NamesApart(x: World) {
    forall p :: Area(x.lights, p) ==> Vacant(x.prims, p)
  }

  ghost predicate InStep(k: Calculus, x: World, owed: iset<T.Debt>, db: Db) {
    && T.Consistent(k, x.prims, owed, Part(db, PrimKeys(x.lights)))
    && L.Mirrors(db, x.lights) && D.OneSky(x.domes, db) && BudgetFits(x, db) && NamesApart(x)
  }

  /** The one pending list lands whole, never shows two environments on the way,
      and leaves every family's objects as its ledgers say. */
  ghost predicate Inv(k: Calculus, x: World, owed: iset<T.Debt>) {
    && T.Mirror(x.prims).Some? && InStep(k, x, owed, T.Mirror(x.prims).value)
    && D.NeverTwo(T.Base(x.prims), x.prims.pending)
  }

  // ---------------------------------------------------------------- the ops of one family stay in it

  ghost predicate OwnOps(name: Path, ops: seq<Op>) {
    forall n :: 0 <= n < |ops| ==> Owned(name, ops[n].key)
  }

  predicate Sane(l: Ledger) { l.payload.Some? ==> l.payload.value == Mesh || l.payload.value == Curves }

  lemma WithdrawOwns(name: Path, l: Ledger)
    requires Sane(l)
    ensures OwnOps(name, Withdraw(name, l).ops)
  {}

  lemma PublishOwns(name: Path, curves: bool, prim: Prim, l: Ledger)
    requires Sane(l)
    ensures OwnOps(name, PublishPayload(name, curves, prim, l).ops)
  {
    WithdrawOwns(name, l);
    var cleared := Cleared(name, curves, l);
    WithdrawOwns(name, cleared.ledger);
    hide Withdraw;
    assert OwnOps(name, cleared.ops) && OwnOps(name, Filled(name, curves, prim, cleared.ledger).ops);
  }

  lemma DressOwns(k: Calculus, near: Registries, name: Path, curves: bool, prim: Prim, dirt: Dirt, born: bool, l: Ledger)
    ensures OwnOps(name, DressAndPlace(k, near, name, curves, prim, dirt, born, l).ops)
  {
    hide ComposePlacements, Bindable;
    var bound := ColorAndBind(name, prim, dirt, born, l);
    var again := PlaceAgain(k, near, name, curves, prim, bound.ledger);
    assert OwnOps(name, bound.ops) && OwnOps(name, again.ops);
    var placed := if born || dirt.placement then Followed(bound, again) else bound;
    assert OwnOps(name, ResolveBinding(near, name, placed.ledger).ops);
  }

  lemma ReconcileOwns(k: Calculus, near: Registries, name: Path, curves: bool, prim: Prim, dirt: Dirt, l: Ledger)
    requires Sane(l)
    ensures OwnOps(name, Reconcile(k, near, name, curves, prim, dirt, l).ops)
  {
    var published := if dirt.geometry then PublishPayload(name, curves, prim, l) else Idle(l);
    PublishOwns(name, curves, prim, l);
    DressOwns(k, near, name, curves, prim, dirt, dirt.geometry && Born(name, curves, prim, l), published.ledger);
    hide PublishPayload, DressAndPlace;
  }

  ghost predicate AllAccounted(geometry: set<Path>, materials: set<Path>, ops: seq<Op>) {
    forall n :: 0 <= n < |ops| ==> T.Accounted(geometry, materials, ops[n].key)
  }

  lemma OwnIsAccounted(geometry: set<Path>, materials: set<Path>, name: Path, ops: seq<Op>, more: seq<Op>)
    requires name in geometry && AllAccounted(geometry, materials, ops) && OwnOps(name, more)
    ensures AllAccounted(geometry, materials, ops + more)
  {}

  /** A walk appends ops of the geometry it visits, and registers nobody. */
  ghost predicate Strolled(w: T.World, x: T.World, geometry: set<Path>, materials: set<Path>) {
    && AllAccounted(geometry, materials, x.pending)
    && x.geometry.Keys == w.geometry.Keys && x.materials == w.materials && SameServer(w, x)
  }

  predicate SameServer(w: T.World, x: T.World) { x.server == w.server && x.sentGenesis == w.sentGenesis }

  lemma {:induction false} RepointStrolls(w: T.World, walk: seq<Path>, geometry: set<Path>, materials: set<Path>)
    requires AllAccounted(geometry, materials, w.pending) && w.geometry.Keys <= geometry
    ensures Strolled(w, T.RepointGeometry(w, walk), geometry, materials)
    decreases |walk|
  {
    if walk != [] {
      if walk[0] !in w.geometry {
        RepointStrolls(w, walk[1..], geometry, materials);
      } else {
        var en := w.geometry[walk[0]];
        var e := ResolveBinding(T.Near(w), walk[0], en.ledger);
        OwnIsAccounted(geometry, materials, walk[0], w.pending, e.ops);
        RepointStrolls(T.Took(w, walk[0], en.curves, e), walk[1..], geometry, materials);
      }
    }
  }

  lemma RecomposeOwns(k: Calculus, near: Registries, name: Path, curves: bool, l: Ledger)
    ensures OwnOps(name, RecomposeInstancing(k, near, name, curves, l).ops)
  {
    hide ComposePlacements, Bindable;
  }

  lemma {:induction false} PokeStrolls(k: Calculus, w: T.World, walk: seq<Path>, geometry: set<Path>, materials: set<Path>)
    requires AllAccounted(geometry, materials, w.pending) && w.geometry.Keys <= geometry
    ensures Strolled(w, T.PokeGeometry(k, w, walk), geometry, materials)
    decreases |walk|
  {
    hide RecomposeInstancing;
    if walk != [] {
      if walk[0] !in w.geometry {
        PokeStrolls(k, w, walk[1..], geometry, materials);
      } else {
        var en := w.geometry[walk[0]];
        var e := RecomposeInstancing(k, T.Near(w), walk[0], en.curves, en.ledger);
        RecomposeOwns(k, T.Near(w), walk[0], en.curves, en.ledger);
        OwnIsAccounted(geometry, materials, walk[0], w.pending, e.ops);
        PokeStrolls(k, T.Took(w, walk[0], en.curves, e), walk[1..], geometry, materials);
      }
    }
  }

  /** Whose objects an event may touch. */
  function Names(w: T.World, t: T.Event): set<Path> {
    if t.GeometryAdded? then w.geometry.Keys + {t.path} else w.geometry.Keys
  }

  function MaterialNames(w: T.World, t: T.Event): set<Path> {
    if t.MaterialAdded? then w.materials.Keys + {t.path} else w.materials.Keys
  }

  ghost predicate StaysIn(w: T.World, t: T.Event, x: T.World) {
    && AllAccounted(Names(w, t), MaterialNames(w, t), x.pending)
    && x.geometry.Keys <= Names(w, t) && x.materials.Keys <= MaterialNames(w, t) && SameServer(w, x)
  }

  lemma GeometryStays(k: Calculus, w: T.World, t: T.Event)
    requires w.pending == [] && (t.GeometryAdded? || t.GeometryDirtied? || t.GeometryRemoved?)
    requires t.path in w.geometry ==> Sane(w.geometry[t.path].ledger)
    ensures StaysIn(w, t, T.Step(k, w, t))
  {
    hide Reconcile, Withdraw;
    match t
    case GeometryAdded(g, curves) =>
      var l := Inherited(k, T.PreviousLedger(w, g));
      WithdrawOwns(g, l);
      if g in w.scene.geometry { ReconcileOwns(k, T.Near(w), g, curves, w.scene.geometry[g], EVERYTHING, l); }
    case GeometryDirtied(g, dirt) =>
      if g in w.geometry && g in w.scene.geometry {
        ReconcileOwns(k, T.Near(w), g, w.geometry[g].curves, w.scene.geometry[g], dirt, w.geometry[g].ledger);
      }
    case GeometryRemoved(g) => if g in w.geometry { WithdrawOwns(g, w.geometry[g].ledger); }
  }

  lemma ReconcileMaterialStays(w: T.World, q: Path, walk: seq<Path>)
    requires w.pending == [] && q in w.materials && q in w.scene.materials
    ensures var x := T.ReconcileMaterial(w, q, walk);
      && AllAccounted(w.geometry.Keys, w.materials.Keys, x.pending)
      && x.geometry.Keys == w.geometry.Keys && x.materials.Keys == w.materials.Keys && SameServer(w, x)
  {
    var sent := T.NetworkSent(w, q);
    assert sent.materials.Keys == w.materials.Keys;
    RepointStrolls(sent, walk, w.geometry.Keys, w.materials.Keys);
  }

  lemma WithdrawMaterialStays(w: T.World, q: Path, materials: map<Path, bool>, walk: seq<Path>)
    requires w.pending == [] && q in w.materials && materials.Keys <= w.materials.Keys
    ensures var x := T.WithdrawMaterial(w, q, materials, walk);
      && AllAccounted(w.geometry.Keys, w.materials.Keys, x.pending)
      && x.geometry.Keys == w.geometry.Keys && x.materials == materials && SameServer(w, x)
  {
    RepointStrolls(w.(materials := materials), walk, w.geometry.Keys, w.materials.Keys);
  }

  lemma MaterialStays(k: Calculus, w: T.World, t: T.Event)
    requires w.pending == [] && (t.MaterialAdded? || t.MaterialDirtied? || t.MaterialRemoved?)
    ensures StaysIn(w, t, T.Step(k, w, t))
  {
    hide T.ReconcileMaterial, T.WithdrawMaterial;
    match t
    case MaterialAdded(q, walk) =>
      var sent := q in w.materials && w.materials[q];
      var registered := w.(materials := w.materials[q := sent]);
      assert registered.materials.Keys == w.materials.Keys + {q};
      if q in w.scene.materials { ReconcileMaterialStays(registered, q, walk); }
      else if sent { WithdrawMaterialStays(registered, q, w.materials[q := false], walk); }
    case MaterialDirtied(q, network, walk) =>
      if network && q in w.materials && q in w.scene.materials { ReconcileMaterialStays(w, q, walk); }
    case MaterialRemoved(q, walk) =>
      if q in w.materials && w.materials[q] { WithdrawMaterialStays(w, q, w.materials - {q}, walk); }
  }

  lemma InstancerStays(k: Calculus, w: T.World, t: T.Event)
    requires w.pending == [] && (t.InstancerAdded? || t.InstancerDirtied? || t.InstancerRemoved?)
    ensures StaysIn(w, t, T.Step(k, w, t))
  {
    hide T.PokeGeometry;
    match t
    case InstancerAdded(q, walk) => PokeStrolls(k, w.(instancers := w.instancers + {q}), walk, w.geometry.Keys, w.materials.Keys);
    case InstancerDirtied(q, walk) => if q in w.instancers { PokeStrolls(k, w, walk, w.geometry.Keys, w.materials.Keys); }
    case InstancerRemoved(q, walk) =>
      if q in w.instancers { PokeStrolls(k, w.(instancers := w.instancers - {q}), walk, w.geometry.Keys, w.materials.Keys); }
  }

  /** An event of the geometry, material or instancer family touches objects of
      those registered, and of the path it registers. */
  lemma PrimsStay(k: Calculus, w: T.World, t: T.Event)
    requires w.pending == [] && !t.Flush?
    requires forall g :: g in w.geometry ==> Sane(w.geometry[g].ledger)
    ensures StaysIn(w, t, T.Step(k, w, t))
  {
    if t.GeometryAdded? || t.GeometryDirtied? || t.GeometryRemoved? { GeometryStays(k, w, t); }
    else if t.MaterialAdded? || t.MaterialDirtied? || t.MaterialRemoved? { MaterialStays(k, w, t); }
    else if !t.SceneBecomes? { InstancerStays(k, w, t); }
  }

  // ---------------------------------------------------------------- what others appended does not matter

  /** The same world further down a list, on another server. */
  ghost predicate Alongside(w: T.World, v: T.World, before: seq<Op>) {
    w == v.(pending := before + v.pending, server := w.server, sentGenesis := w.sentGenesis)
  }

  lemma TookAlongside(w: T.World, v: T.World, before: seq<Op>, g: Path, curves: bool, e: Effect)
    requires Alongside(w, v, before)
    ensures Alongside(T.Took(w, g, curves, e), T.Took(v, g, curves, e), before)
  {}

  lemma {:induction false} RepointAlongside(w: T.World, v: T.World, before: seq<Op>, walk: seq<Path>)
    requires Alongside(w, v, before)
    ensures Alongside(T.RepointGeometry(w, walk), T.RepointGeometry(v, walk), before)
    decreases |walk|
  {
    if walk != [] {
      if walk[0] !in w.geometry {
        RepointAlongside(w, v, before, walk[1..]);
      } else {
        var en := w.geometry[walk[0]];
        var e := ResolveBinding(T.Near(w), walk[0], en.ledger);
        TookAlongside(w, v, before, walk[0], en.curves, e);
        RepointAlongside(T.Took(w, walk[0], en.curves, e), T.Took(v, walk[0], en.curves, e), before, walk[1..]);
      }
    }
  }

  lemma {:induction false} PokeAlongside(k: Calculus, w: T.World, v: T.World, before: seq<Op>, walk: seq<Path>)
    requires Alongside(w, v, before)
    ensures Alongside(T.PokeGeometry(k, w, walk), T.PokeGeometry(k, v, walk), before)
    decreases |walk|
  {
    hide RecomposeInstancing;
    if walk != [] {
      if walk[0] !in w.geometry {
        PokeAlongside(k, w, v, before, walk[1..]);
      } else {
        var en := w.geometry[walk[0]];
        var e := RecomposeInstancing(k, T.Near(w), walk[0], en.curves, en.ledger);
        TookAlongside(w, v, before, walk[0], en.curves, e);
        PokeAlongside(k, T.Took(w, walk[0], en.curves, e), T.Took(v, walk[0], en.curves, e), before, walk[1..]);
      }
    }
  }

  lemma EmitAlongside(w: T.World, v: T.World, before: seq<Op>, op: Op)
    requires Alongside(w, v, before)
    ensures Alongside(T.Emit(w, op), T.Emit(v, op), before)
  {}

  lemma ReconcileMaterialAlongside(w: T.World, v: T.World, before: seq<Op>, q: Path, walk: seq<Path>)
    requires Alongside(w, v, before) && q in w.materials && q in w.scene.materials
    ensures Alongside(T.ReconcileMaterial(w, q, walk), T.ReconcileMaterial(v, q, walk), before)
  {
    EmitAlongside(w, v, before, T.NetworkPatch(q, w.scene.materials[q]));
    RepointAlongside(T.NetworkSent(w, q), T.NetworkSent(v, q), before, walk);
  }

  lemma WithdrawMaterialAlongside(w: T.World, v: T.World, before: seq<Op>, q: Path, materials: map<Path, bool>, walk: seq<Path>)
    requires Alongside(w, v, before)
    ensures Alongside(T.WithdrawMaterial(w, q, materials, walk), T.WithdrawMaterial(v, q, materials, walk), before)
  {
    var w1, v1 := w.(materials := materials), v.(materials := materials);
    RepointAlongside(w1, v1, before, walk);
    EmitAlongside(T.RepointGeometry(w1, walk), T.RepointGeometry(v1, walk), before, Remove(Key(Material, q)));
  }

  /** A step appends the same ops wherever in the list it stands. */
  lemma StepsAlongside(k: Calculus, w: T.World, v: T.World, before: seq<Op>, t: T.Event)
    requires Alongside(w, v, before) && !t.Flush?
    ensures Alongside(T.Step(k, w, t), T.Step(k, v, t), before)
  {
    hide T.ReconcileMaterial, T.WithdrawMaterial, Reconcile, Withdraw;
    match t
    case MaterialAdded(q, walk) =>
      var sent := q in w.materials && w.materials[q];
      var materials := w.materials[q := sent];
      if q in w.scene.materials { ReconcileMaterialAlongside(w.(materials := materials), v.(materials := materials), before, q, walk); }
      else if sent { WithdrawMaterialAlongside(w.(materials := materials), v.(materials := materials), before, q, w.materials[q := false], walk); }
    case MaterialDirtied(q, network, walk) =>
      if network && q in w.materials && q in w.scene.materials { ReconcileMaterialAlongside(w, v, before, q, walk); }
    case MaterialRemoved(q, walk) =>
      if q in w.materials && w.materials[q] { WithdrawMaterialAlongside(w, v, before, q, w.materials - {q}, walk); }
    case InstancerAdded(q, walk) =>
      PokeAlongside(k, w.(instancers := w.instancers + {q}), v.(instancers := w.instancers + {q}), before, walk);
    case InstancerDirtied(q, walk) => if q in w.instancers { PokeAlongside(k, w, v, before, walk); }
    case InstancerRemoved(q, walk) =>
      if q in w.instancers { PokeAlongside(k, w.(instancers := w.instancers - {q}), v.(instancers := w.instancers - {q}), before, walk); }
    case _ =>
  }

  // ---------------------------------------------------------------- families leave each other alone

  ghost const QUIET: iset<Key> := iset key: Key | key.kind != Environment

  /** Ops on no environment never show two. */
  lemma QuietOps(db: Db, ops: seq<Op>)
    requires AllOn(ops, QUIET) && D.AtMostOne(db) && Replay(db, ops).Some?
    ensures D.NeverTwo(db, ops)
  {
    forall n | 0 <= n <= |ops| ensures Replay(db, ops[..n]).Some? && D.AtMostOne(Replay(db, ops[..n]).value) {
      assert ops == ops[..n] + ops[n..];
      ReplaySplits(db, ops[..n], ops[n..]);
      ReplayFrames(db, ops[..n], QUIET);
      SameSkies(db, Replay(db, ops[..n]).value);
    }
  }

  lemma SameSkies(db: Db, after: Db)
    requires D.AtMostOne(db) && forall key :: key !in QUIET ==> Alike(db, after, key)
    ensures D.AtMostOne(after)
  {
    forall a, b | Key(Environment, a) in after && Key(Environment, b) in after ensures a == b {
      assert Alike(db, after, Key(Environment, a)) && Alike(db, after, Key(Environment, b));
    }
  }

  lemma SkyUndisturbed(live: seq<D.Dome>, db: Db, after: Db)
    requires D.OneSky(live, db) && forall name :: Alike(db, after, Key(Environment, name))
    ensures D.OneSky(live, after)
  {
    hide D.Sorted, D.Squared, D.Lit, D.Due;
    forall name ensures Get(after, Key(Environment, name)) == Get(db, Key(Environment, name)) {
      assert Alike(db, after, Key(Environment, name));
    }
  }

  lemma LightsUndisturbed(lights: L.World, db: Db, after: Db)
    requires L.Mirrors(db, lights)
    requires forall key: Key :: key.kind == Light || (L.Borrowed(key.kind) && Area(lights, key.name)) ==> Alike(db, after, key)
    ensures L.Mirrors(after, lights)
  {
    forall p ensures L.Shows(after, p, L.ReadingOf(lights, p)) {
      assert L.Shows(db, p, L.ReadingOf(lights, p));
      assert Alike(db, after, Key(Light, p));
      forall kind | L.Borrowed(kind) && Area(lights, p) ensures Alike(db, after, Key(kind, p)) {}
      assert p in lights.lights ==> lights.lights[p] == L.Spelled(lights.scene[p]);
    }
  }

  lemma BudgetUndisturbed(x: World, y: World, db: Db, after: Db)
    requires BudgetFits(x, db) && y.settings == x.settings && y.prims.sentGenesis == x.prims.sentGenesis
    requires forall name :: Alike(db, after, Key(Kind.Settings, name))
    ensures BudgetFits(y, after)
  {
    assert Alike(db, after, BUDGET);
    forall name | Key(Kind.Settings, name) in after ensures name == EmptyPath { assert Alike(db, after, Key(Kind.Settings, name)); }
  }

  lemma ConsistentAlike(k: Calculus, w: T.World, x: T.World, owed: iset<T.Debt>, db: Db)
    requires x == w.(server := x.server, sentGenesis := x.sentGenesis, pending := x.pending)
    ensures T.Consistent(k, w, owed, db) <==> T.Consistent(k, x, owed, db)
  {
    hide T.Consistent;
    if T.Consistent(k, w, owed, db) { T.SentAlike(k, w, x, owed, db); }
    if T.Consistent(k, x, owed, db) { T.SentAlike(k, x, w, owed, db); }
  }

  // ---------------------------------------------------------------- geometry, materials, instancers

  /** The geometry family's own view: its part of the server, nothing pending. */
  ghost function View(x: World, db: Db): T.World {
    x.prims.(pending := [], server := Part(db, PrimKeys(x.lights)), sentGenesis := true)
  }

  lemma ViewInv(k: Calculus, x: World, owed: iset<T.Debt>, db: Db, t: T.Event)
    requires InStep(k, x, owed, db)
    ensures var v := View(x, db);
      && T.Mirror(v) == Some(Part(db, PrimKeys(x.lights))) && T.Inv(k, v, owed)
      && T.Near(v) == T.Near(x.prims)
  {
    var v := View(x, db);
    ReplayNone(v.server);
    hide T.Consistent, L.Mirrors, D.OneSky, BudgetFits, Part;
    ConsistentAlike(k, x.prims, v, owed, v.server);
  }

  lemma SameEvent(k: Calculus, x: World, owed: iset<T.Debt>, db: Db, t: T.Event)
    requires T.Legal(x.prims, t)
    ensures var v := View(x, db);
      && T.Legal(v, t) && T.Owing(v, owed, t) == T.Owing(x.prims, owed, t)
      && T.Misses(k, v, t) == T.Misses(k, x.prims, t)
  {
    assert T.Near(View(x, db)) == T.Near(x.prims);
    hide T.Near, MissesRepoint;
  }

  lemma SaneLedgers(k: Calculus, w: T.World, owed: iset<T.Debt>, db: Db)
    requires T.AllFit(k, w, owed, db)
    ensures forall g :: g in w.geometry ==> Sane(w.geometry[g].ledger)
  {
    forall g | g in w.geometry ensures Sane(w.geometry[g].ledger) { assert T.Fits(k, w, owed, db, g); }
  }

  lemma PrimsKeyed(x: World, t: T.Event, v: T.World, y: T.World)
    requires NamesApart(x) && Legal(x, OnPrims(t)) && StaysIn(v, t, y)
    requires v.geometry == x.prims.geometry && v.materials == x.prims.materials
    ensures AllOn(y.pending, PrimKeys(x.lights)) && AllOn(y.pending, QUIET)
  {
    forall key | T.Accounted(Names(v, t), MaterialNames(v, t), key) ensures PrimKey(x.lights, key) {
      assert key.kind == Material && key.name !in MaterialNames(v, t) ==> key.name == Companion(key.name.parent);
      assert Area(x.lights, key.name) ==> Vacant(x.prims, key.name);
    }
  }

  lemma StillApart(x: World, t: T.Event, v: T.World, y: T.World, z: World)
    requires NamesApart(x) && Legal(x, OnPrims(t)) && StaysIn(v, t, y)
    requires v.geometry == x.prims.geometry && v.materials == x.prims.materials
    requires z.lights == x.lights && z.prims.geometry == y.geometry && z.prims.materials == y.materials
    ensures NamesApart(z)
  {
    forall p | Area(z.lights, p) ensures Vacant(z.prims, p) {
      assert Vacant(x.prims, p);
      assert p !in Names(v, t) && p !in MaterialNames(v, t);
      forall g | g in z.prims.geometry ensures Companion(g) != p { assert g in Names(v, t); }
    }
  }

  /** The event as it falls on the view, and on the whole. */
  lemma PrimsFrame(k: Calculus, x: World, owed: iset<T.Debt>, db: Db, t: T.Event) returns (y: T.World)
    requires InStep(k, x, owed, db) && T.Mirror(x.prims) == Some(db) && Legal(x, OnPrims(t))
    ensures y == T.Step(k, View(x, db), t) && StaysIn(View(x, db), t, y)
    ensures AllOn(y.pending, PrimKeys(x.lights)) && AllOn(y.pending, QUIET)
    ensures Alongside(T.Step(k, x.prims, t), y, x.prims.pending) && SameServer(x.prims, T.Step(k, x.prims, t))
    ensures T.Mirror(y) == Replay(Part(db, PrimKeys(x.lights)), y.pending)
    ensures T.Mirror(T.Step(k, x.prims, t)) == Replay(db, y.pending)
  {
    var v := View(x, db);
    y := T.Step(k, v, t);
    SaneLedgers(k, x.prims, owed, Part(db, PrimKeys(x.lights)));
    PrimsStay(k, v, t);
    PrimsKeyed(x, t, v, y);
    assert x.prims.pending + [] == x.prims.pending;
    StepsAlongside(k, x.prims, v, x.prims.pending, t);
    StepServer(k, x.prims, t);
    hide T.Step, Part, PrimKeys, AllOn;
    T.MirrorExtends(x.prims, T.Step(k, x.prims, t), y.pending);
  }

  lemma StepServer(k: Calculus, w: T.World, t: T.Event)
    requires !t.Flush?
    ensures SameServer(w, T.Step(k, w, t))
  {
    hide Reconcile, Withdraw;
    match t
    case MaterialAdded(q, walk) =>
      var x := w.(materials := w.materials[q := q in w.materials && w.materials[q]]);
      if q in w.scene.materials { RepointServer(T.NetworkSent(x, q), walk); }
      RepointServer(x.(materials := w.materials[q := false]), walk);
    case MaterialDirtied(q, network, walk) =>
      if q in w.materials && q in w.scene.materials { RepointServer(T.NetworkSent(w, q), walk); }
    case MaterialRemoved(q, walk) => RepointServer(w.(materials := w.materials - {q}), walk);
    case InstancerAdded(q, walk) => PokeServer(k, w.(instancers := w.instancers + {q}), walk);
    case InstancerDirtied(q, walk) => PokeServer(k, w, walk);
    case InstancerRemoved(q, walk) => PokeServer(k, w.(instancers := w.instancers - {q}), walk);
    case _ =>
  }

  lemma {:induction false} RepointServer(w: T.World, walk: seq<Path>)
    ensures SameServer(w, T.RepointGeometry(w, walk))
    decreases |walk|
  {
    if walk != [] {
      if walk[0] !in w.geometry {
        RepointServer(w, walk[1..]);
      } else {
        var en := w.geometry[walk[0]];
        RepointServer(T.Took(w, walk[0], en.curves, ResolveBinding(T.Near(w), walk[0], en.ledger)), walk[1..]);
      }
    }
  }

  lemma {:induction false} PokeServer(k: Calculus, w: T.World, walk: seq<Path>)
    ensures SameServer(w, T.PokeGeometry(k, w, walk))
    decreases |walk|
  {
    hide RecomposeInstancing;
    if walk != [] {
      if walk[0] !in w.geometry {
        PokeServer(k, w, walk[1..]);
      } else {
        var en := w.geometry[walk[0]];
        PokeServer(k, T.Took(w, walk[0], en.curves, RecomposeInstancing(k, T.Near(w), walk[0], en.curves, en.ledger)), walk[1..]);
      }
    }
  }

  /** What the other families hold is where it was. */
  lemma OthersStand(x: World, z: World, db: Db, after: Db, ops: seq<Op>)
    requires L.Mirrors(db, x.lights) && D.OneSky(x.domes, db) && BudgetFits(x, db)
    requires AllOn(ops, PrimKeys(x.lights)) && Replay(db, ops) == Some(after)
    requires z == x.(prims := z.prims) && z.prims.sentGenesis == x.prims.sentGenesis
    ensures L.Mirrors(after, z.lights) && D.OneSky(z.domes, after) && BudgetFits(z, after)
  {
    ReplayFrames(db, ops, PrimKeys(x.lights));
    hide L.Mirrors, D.OneSky, BudgetFits, Replay, AllOn;
    LightsUndisturbed(x.lights, db, after);
    SkyUndisturbed(x.domes, db, after);
    BudgetUndisturbed(x, z, db, after);
  }

  lemma ListGrows(x: World, z: World, db: Db, ops: seq<Op>)
    requires D.NeverTwo(T.Base(x.prims), x.prims.pending) && T.Mirror(x.prims) == Some(db)
    requires D.NeverTwo(db, ops)
    requires z.prims.pending == x.prims.pending + ops && T.Base(z.prims) == T.Base(x.prims)
    ensures D.NeverTwo(T.Base(z.prims), z.prims.pending)
  {
    D.NeverTwoGrows(T.Base(x.prims), x.prims.pending, ops);
  }

  lemma PrimsKeep(k: Calculus, x: World, owed: iset<T.Debt>, t: T.Event)
    requires Inv(k, x, owed) && Legal(x, OnPrims(t))
    ensures Inv(k, Step(k, x, OnPrims(t)), T.Owing(x.prims, owed, t)) <==> !T.Misses(k, x.prims, t)
  {
    var db := T.Mirror(x.prims).value;
    var v, next, z := View(x, db), T.Owing(x.prims, owed, t), Step(k, x, OnPrims(t));
    ViewInv(k, x, owed, db, t);
    SameEvent(k, x, owed, db, t);
    T.EventKeeps(k, v, owed, t);
    var y := PrimsFrame(k, x, owed, db, t);
    ReplayFrames(db, y.pending, PrimKeys(x.lights));
    hide T.Step, T.Consistent, T.Owing, T.Misses, T.Legal, Part, PrimKeys, AllOn, Replay, T.Mirror, L.Mirrors, D.OneSky, BudgetFits, D.NeverTwo, NamesApart;
    if Replay(db, y.pending).Some? {
      var after := Replay(db, y.pending).value;
      ConsistentAlike(k, y, z.prims, next, Part(after, PrimKeys(x.lights)));
      OthersStand(x, z, db, after, y.pending);
      NoTwoSkies(x, z, db, y.pending);
      StillApart(x, t, v, y, z);
    }
  }

  lemma NoTwoSkies(x: World, z: World, db: Db, ops: seq<Op>)
    requires D.NeverTwo(T.Base(x.prims), x.prims.pending) && T.Mirror(x.prims) == Some(db)
    requires AllOn(ops, QUIET) && Replay(db, ops).Some?
    requires z.prims.pending == x.prims.pending + ops && SameServer(x.prims, z.prims)
    ensures D.NeverTwo(T.Base(z.prims), z.prims.pending)
  {
    D.NeverTwoWhole(T.Base(x.prims), x.prims.pending);
    hide D.NeverTwo, AllOn, D.AtMostOne;
    QuietOps(db, ops);
    ListGrows(x, z, db, ops);
  }

  // ---------------------------------------------------------------- lights

  lemma LightOpsAreQuiet(lights: L.World, e: L.Event)
    ensures AllOn(L.Move(lights, e).ops, QUIET)
  {}

  /** Where geometry and materials have no claim, they have no object. */
  lemma VacantIsFree(k: Calculus, x: World, owed: iset<T.Debt>, db: Db, p: Path)
    requires InStep(k, x, owed, db) && Vacant(x.prims, p) && !Area(x.lights, p)
    ensures L.Free(db, p)
  {
    forall kind | L.Borrowed(kind) ensures Key(kind, p) !in db {
      var part := Part(db, PrimKeys(x.lights));
      assert Key(kind, p) in part <==> Key(kind, p) in db;
      assert !T.Accounted(x.prims.geometry.Keys, x.prims.materials.Keys, Key(kind, p));
    }
  }

  /** A light event leaves the geometry family's part of the server as it was. */
  lemma PartUndisturbed(lights: L.World, e: L.Event, db: Db, after: Db)
    requires L.Beside(db, after, e.path, L.Sent(lights, e.path), L.Sent(L.Step(lights, e), e.path))
    requires Area(L.Step(lights, e), e.path) && !Area(lights, e.path) ==> L.Free(db, e.path)
    requires Area(lights, e.path) && !Area(L.Step(lights, e), e.path) ==> L.Free(after, e.path)
    ensures Part(after, PrimKeys(L.Step(lights, e))) == Part(db, PrimKeys(lights))
  {
    var next := L.Step(lights, e);
    var was, now := Part(db, PrimKeys(lights)), Part(after, PrimKeys(next));
    forall p | p != e.path ensures Area(next, p) == Area(lights, p) {}
    forall key ensures Get(was, key) == Get(now, key) {
      if !L.Touches(e.path, L.Sent(lights, e.path), L.Sent(next, e.path), key) { assert Alike(db, after, key); }
    }
    R.SameObjects(was, now);
  }

  lemma LightApart(x: World, z: World, e: L.Event)
    requires NamesApart(x) && Legal(x, OnLight(e))
    requires z.lights == L.Step(x.lights, e) && z.prims.geometry == x.prims.geometry && z.prims.materials == x.prims.materials
    ensures NamesApart(z)
  {
    forall p | Area(z.lights, p) ensures Vacant(z.prims, p) {
      if p != e.path { assert Area(x.lights, p); }
      if Area(x.lights, p) { assert Vacant(x.prims, p); }
    }
  }

  lemma LightBeside(x: World, z: World, e: L.Event, db: Db, after: Db)
    requires L.Beside(db, after, e.path, L.Sent(x.lights, e.path), L.Sent(z.lights, e.path))
    requires D.OneSky(x.domes, db) && BudgetFits(x, db)
    requires z.domes == x.domes && z.settings == x.settings && z.prims.sentGenesis == x.prims.sentGenesis
    ensures D.OneSky(z.domes, after) && BudgetFits(z, after)
  {
    forall name ensures Alike(db, after, Key(Environment, name)) && Alike(db, after, Key(Kind.Settings, name)) {
      assert !L.Touches(e.path, L.Sent(x.lights, e.path), L.Sent(z.lights, e.path), Key(Environment, name));
      assert !L.Touches(e.path, L.Sent(x.lights, e.path), L.Sent(z.lights, e.path), Key(Kind.Settings, name));
    }
    hide D.OneSky, BudgetFits, L.Beside;
    SkyUndisturbed(x.domes, db, after);
    BudgetUndisturbed(x, z, db, after);
  }

  /** The parts of the invariant, for one list extended by some ops. */
  lemma Assembled(k: Calculus, x: World, z: World, owed: iset<T.Debt>, db: Db, ops: seq<Op>, after: Db)
    requires T.Mirror(x.prims) == Some(db) && Replay(db, ops) == Some(after)
    requires z.prims == x.prims.(pending := x.prims.pending + ops)
    requires D.NeverTwo(T.Base(x.prims), x.prims.pending) && D.NeverTwo(db, ops)
    requires T.Consistent(k, x.prims, owed, Part(after, PrimKeys(z.lights)))
    requires L.Mirrors(after, z.lights) && BudgetFits(z, after) && NamesApart(z)
    ensures Inv(k, z, owed) <==> D.OneSky(z.domes, after)
  {
    hide D.NeverTwo, T.Consistent, L.Mirrors, BudgetFits, NamesApart, D.OneSky, PrimKeys, Part;
    T.MirrorExtends(x.prims, z.prims, ops);
    ConsistentAlike(k, x.prims, z.prims, owed, Part(after, PrimKeys(z.lights)));
    ListGrows(x, z, db, ops);
  }

  lemma LightKeeps(k: Calculus, x: World, owed: iset<T.Debt>, e: L.Event)
    requires Inv(k, x, owed) && Legal(x, OnLight(e))
    ensures Inv(k, Step(k, x, OnLight(e)), owed)
  {
    var db, z, ops := T.Mirror(x.prims).value, Step(k, x, OnLight(e)), L.Move(x.lights, e).ops;
    if Area(z.lights, e.path) && !Area(x.lights, e.path) { VacantIsFree(k, x, owed, db, e.path); }
    hide T.Consistent, L.Mirrors, D.OneSky, BudgetFits, D.NeverTwo, Part, PrimKeys, L.Move, AllOn, L.Free, D.AtMostOne;
    L.EventLands(db, x.lights, e);
    var after := Replay(db, ops).value;
    PartUndisturbed(x.lights, e, db, after);
    LightApart(x, z, e);
    LightBeside(x, z, e, db, after);
    LightOpsAreQuiet(x.lights, e);
    D.NeverTwoWhole(T.Base(x.prims), x.prims.pending);
    QuietOps(db, ops);
    Assembled(k, x, z, owed, db, ops, after);
  }

  // ---------------------------------------------------------------- domes

  ghost const SKY: iset<Key> := iset key: Key | key.kind == Environment

  lemma {:induction false} DemotionsAreOfSkies(live: seq<D.Dome>, w: nat, n: nat)
    requires n <= |live|
    ensures AllOn(D.Demoted(live, w, n).ops, SKY)
  {
    if n > 0 { DemotionsAreOfSkies(live, w, n - 1); }
  }

  lemma ArbitrationIsOfSkies(live: seq<D.Dome>, refreshed: Option<Path>)
    ensures AllOn(D.Arbitrated(live, refreshed).ops, SKY)
  {
    DemotionsAreOfSkies(live, D.Winner(live), |live|);
    D.DemotedIs(live, D.Winner(live), |live|);
    hide D.Demoted;
  }

  lemma RefreshIsOfSkies(live: seq<D.Dome>, n: nat, input: D.Input, light: bool, visibility: bool, born: bool)
    requires n < |live|
    ensures AllOn(D.Refreshed(live, n, input, light, visibility, born).ops, SKY)
  {
    var rebuilt := born || light;
    var d := live[n].(eligible := input.visible, payload := if rebuilt then Some(input.payload) else live[n].payload);
    ArbitrationIsOfSkies(live[n := d], if rebuilt then Some(d.path) else None);
    hide D.Arbitrated;
  }

  lemma DomeOpsAreOfSkies(live: seq<D.Dome>, e: D.Event)
    ensures AllOn(D.Step(live, e).ops, SKY)
  {
    var n := D.Place(live, e.path);
    hide D.Arbitrated, D.Refreshed, D.Place;
    match e
    case Born(path, input) =>
      var joined := D.Joined(live, path);
      hide D.Joined;
      if input.Some? { RefreshIsOfSkies(joined, n, input.value, true, true, true); }
      else { ArbitrationIsOfSkies(joined[n := joined[n].(eligible := false, published := false)], None); }
    case Dirty(path, input, light, visibility) =>
      if input.Some? && D.Registered(live, path) { RefreshIsOfSkies(live, n, input.value, light, visibility, false); }
    case Died(path) =>
      if D.Registered(live, path) { ArbitrationIsOfSkies(live[..n] + live[n + 1..], None); }
  }

  lemma DomeKeeps(k: Calculus, x: World, owed: iset<T.Debt>, e: D.Event)
    requires Inv(k, x, owed)
    ensures Inv(k, Step(k, x, OnDome(e)), owed) <==> !D.BlankRises(x.domes, e)
  {
    var db, z, ops := T.Mirror(x.prims).value, Step(k, x, OnDome(e)), D.Step(x.domes, e).ops;
    assert NamesApart(z);
    DomeOpsAreOfSkies(x.domes, e);
    hide T.Consistent, L.Mirrors, D.OneSky, BudgetFits, D.NeverTwo, D.Step, NamesApart, D.BlankRises, Part, PrimKeys, Replay;
    D.EventKeeps(x.domes, db, e);
    var after := Replay(db, ops).value;
    ReplayFrames(db, ops, SKY);
    hide AllOn;
    LightsUndisturbed(x.lights, db, after);
    BudgetUndisturbed(x, z, db, after);
    PartBesideSkies(x.lights, db, after);
    Assembled(k, x, z, owed, db, ops, after);
  }

  lemma PartBesideSkies(lights: L.World, db: Db, after: Db)
    requires forall key :: key !in SKY ==> Alike(db, after, key)
    ensures Part(after, PrimKeys(lights)) == Part(db, PrimKeys(lights))
  {
    var was, now := Part(db, PrimKeys(lights)), Part(after, PrimKeys(lights));
    forall key ensures Get(was, key) == Get(now, key) {
      if key !in SKY { assert Alike(db, after, key); }
    }
    R.SameObjects(was, now);
  }

  // ---------------------------------------------------------------- settings and the frame hook

  lemma SettingsKeep(k: Calculus, x: World, owed: iset<T.Debt>, m: S.Move)
    requires Inv(k, x, owed) && !m.Update?
    ensures Inv(k, Step(k, x, OnSettings(m)), owed)
  {
    S.MoveKeeps(x.settings, m);
    var z := Step(k, x, OnSettings(m));
    assert NamesApart(z);
    hide T.Consistent, L.Mirrors, D.OneSky, D.NeverTwo, S.SentInv, NamesApart;
    assert S.Held(z.settings) == S.Held(x.settings);
  }

  /** The settings op lands as the delegate's own account says. */
  lemma BudgetLands(x: World, db: Db)
    requires BudgetFits(x, db)
    ensures var b, q := Overlay(x.settings.session, x.settings.slot), S.Queued(x.settings);
      var after := Apply(db, BudgetPatch(b)).value;
      && BudgetStands(after) && BudgetOf(after) == Overlay(BudgetOf(db), b)
      && (q != x.settings ==> BudgetOf(after) == S.Held(q)) && S.SentInv(q)
      && forall key :: key != BUDGET ==> Alike(db, after, key)
  {
    var d := x.settings;
    S.MoveKeeps(d, S.Update(false));
    S.MergedLast(if d.genesisSent then d.server else UNSET, d.pending, Overlay(d.session, d.slot));
  }

  lemma QueueKeeps(k: Calculus, x: World, owed: iset<T.Debt>)
    requires Inv(k, x, owed)
    ensures Inv(k, Queued(x), owed) && Queued(x).settings == S.Queued(x.settings)
  {
    var db, z, d := T.Mirror(x.prims).value, Queued(x), x.settings;
    if !(d.mapVersion == d.mapSent && d.slotVersion == d.slotSent) {
      var op := BudgetPatch(Overlay(d.session, d.slot));
      var after := Apply(db, op).value;
      BudgetLands(x, db);
      ReplayOne(db, op);
      assert NamesApart(z);
      hide T.Consistent, L.Mirrors, D.OneSky, D.NeverTwo, Apply, Replay, S.SentInv, NamesApart, BudgetStands, S.Held, Part, PrimKeys, D.AtMostOne;
      LightsUndisturbed(x.lights, db, after);
      SkyUndisturbed(x.domes, db, after);
      PartBesideBudget(x.lights, db, after);
      D.NeverTwoWhole(T.Base(x.prims), x.prims.pending);
      QuietOps(db, [op]);
      Assembled(k, x, z, owed, db, [op], after);
    }
  }

  lemma PartBesideBudget(lights: L.World, db: Db, after: Db)
    requires forall key :: key != BUDGET ==> Alike(db, after, key)
    ensures Part(after, PrimKeys(lights)) == Part(db, PrimKeys(lights))
  {
    var was, now := Part(db, PrimKeys(lights)), Part(after, PrimKeys(lights));
    forall key ensures Get(was, key) == Get(now, key) {
      if key != BUDGET { assert Alike(db, after, key); }
    }
    R.SameObjects(was, now);
  }

  /** Whatever agrees with every family's ledgers has no dangling reference. */
  lemma InStepIsSound(k: Calculus, x: World, owed: iset<T.Debt>, db: Db)
    requires InStep(k, x, owed, db)
    ensures Sound(db)
  {
    var part := Part(db, PrimKeys(x.lights));
    T.ConsistentIsSound(k, x.prims, owed, part);
    forall name | Key(Instance, name) in db
      ensures var i := db[Key(Instance, name)];
        i.target.Some? && i.target.value in db && i.material.Some? && Key(Material, i.material.value) in db && i.transforms.Some?
    {
      if Area(x.lights, name) {
        AreaStands(x.lights, db, name);
      } else {
        assert Key(Instance, name) in part;
      }
    }
  }

  lemma AreaStands(lights: L.World, db: Db, name: Path)
    requires L.Mirrors(db, lights) && Area(lights, name)
    ensures Key(Instance, name) in db && Key(Mesh, name) in db && Key(Material, name) in db
    ensures var i := db[Key(Instance, name)];
      i.target == Some(Key(Mesh, name)) && i.material == Some(name) && i.transforms.Some?
  {
    var r := L.ReadingOf(lights, name);
    assert L.Shows(db, name, r);
    L.Standing(db, name, r);
  }

  /** A change set that is delivered is accepted whole. */
  lemma SendKeeps(k: Calculus, x: World, owed: iset<T.Debt>)
    requires Inv(k, x, owed)
    ensures Accepted(T.Base(x.prims), x.prims.pending)
    ensures var z := x.(prims := T.Send(x.prims), settings := x.settings.(genesisSent := true, pending := [], server := S.Held(x.settings)));
      Inv(k, z, owed) && T.Mirror(z.prims) == T.Mirror(x.prims)
  {
    var db := T.Mirror(x.prims).value;
    InStepIsSound(k, x, owed, db);
    var w := T.Send(x.prims);
    var z := x.(prims := w, settings := x.settings.(genesisSent := true, pending := [], server := S.Held(x.settings)));
    assert w == x.prims.(server := db, sentGenesis := true, pending := []);
    assert S.Held(z.settings) == S.Held(x.settings);
    assert NamesApart(z);
    ReplayNone(db);
    D.NeverTwoWhole(T.Base(x.prims), x.prims.pending);
    D.NoOps(db, D.Due(x.domes));
    hide T.Consistent, L.Mirrors, D.OneSky, D.NeverTwo, NamesApart, Replay;
    ConsistentAlike(k, x.prims, w, owed, Part(db, PrimKeys(x.lights)));
  }

  lemma UpdateKeeps(k: Calculus, x: World, owed: iset<T.Debt>, delivered: bool)
    requires Inv(k, x, owed)
    ensures Inv(k, Step(k, x, Update(delivered)), owed)
    ensures var q := Queued(x); Accepted(T.Base(q.prims), q.prims.pending)
  {
    hide Inv, T.Send, Accepted;
    QueueKeeps(k, x, owed);
    SendKeeps(k, Queued(x), owed);
  }

  /** Every event of every family keeps the one list acceptable and the one
      server in step with all the ledgers, save a missed repoint and a dome
      raised unread; and those never do. */
  lemma EventKeeps(k: Calculus, x: World, owed: iset<T.Debt>, e: Event)
    requires Inv(k, x, owed) && Legal(x, e)
    ensures Inv(k, Step(k, x, e), Owing(x, owed, e)) <==> !GoesWrong(k, x, e)
  {
    hide Inv, T.Misses, D.BlankRises, T.Owing, T.Legal;
    match e
    case OnPrims(t) => PrimsKeep(k, x, owed, t);
    case OnLight(l) => LightKeeps(k, x, owed, l);
    case OnDome(d) => DomeKeeps(k, x, owed, d);
    case OnSettings(m) => SettingsKeep(k, x, owed, m);
    case Update(delivered) => UpdateKeeps(k, x, owed, delivered);
  }
}
