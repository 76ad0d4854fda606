/** The scene translators together: births, resyncs, dirties and deaths of
    geometry, material and instancer prims, and the flushes that send what
    they appended. */
module Translators {
  import opened Options
  import opened SceneServer
  import opened Instancing
  import opened Geometry

  /** A material prim's network, as the total patch spells it. */
  datatype Network = Network(baseColor: int, shading: int)

  datatype Scene = Scene(geometry: map<Path, Prim>, materials: map<Path, Network>, instancers: map<Path, Instancer>)

  /** A geometry translator: the prim type it was made for, and its ledger. */
  datatype Entry = Entry(curves: bool, ledger: Ledger)

  /** The delegate's side: the scene as it is now, the three registries
      (a material's entry says whether it is published), the ops not yet
      sent, and the server. */
  datatype World = World(
    scene: Scene, geometry: map<Path, Entry>, materials: map<Path, bool>, instancers: set<Path>,
    pending: seq<Op>, server: Db, sentGenesis: bool)

  /** What happens: the scene changes, a notice is delivered, or the pending
      ops are flushed. `walk` is the order a poke visits the geometry registry. */
  datatype Event =
    | SceneBecomes(scene: Scene)
    | GeometryAdded(path: Path, curves: bool)
    | GeometryDirtied(path: Path, dirt: Dirt)
    | GeometryRemoved(path: Path)
    | MaterialAdded(path: Path, walk: seq<Path>)
    | MaterialDirtied(path: Path, network: bool, walk: seq<Path>)
    | MaterialRemoved(path: Path, walk: seq<Path>)
    | InstancerAdded(path: Path, walk: seq<Path>)
    | InstancerDirtied(path: Path, walk: seq<Path>)
    | InstancerRemoved(path: Path, walk: seq<Path>)
    | Flush

  function CopiersOf(scene: Scene, instancers: set<Path>): Copiers {
    map q | q in instancers :: Get(scene.instancers, q)
  }

  function Published(materials: map<Path, bool>): set<Path> {
    set q | q in materials && materials[q]
  }

  function Near(w: World): Registries {
    Registries(Published(w.materials), CopiersOf(w.scene, w.instancers))
  }

  // ---------------------------------------------------------------- the notices

  function Took(w: World, g: Path, curves: bool, e: Effect): World {
    w.(geometry := w.geometry[g := Entry(curves, e.ledger)], pending := w.pending + e.ops)
  }

  function Emit(w: World, op: Op): World { w.(pending := w.pending + [op]) }

  function PreviousLedger(w: World, g: Path): Option<Ledger> {
    if g in w.geometry then Some(w.geometry[g].ledger) else None
  }

  function AddGeometry(k: Calculus, w: World, g: Path, curves: bool): World {
    var l := Inherited(k, PreviousLedger(w, g));
    Took(w, g, curves, AddEffect(k, Near(w), g, curves, Get(w.scene.geometry, g), l))
  }

  function DirtyGeometry(k: Calculus, w: World, g: Path, dirt: Dirt): World {
    if g in w.geometry && g in w.scene.geometry then
      var en := w.geometry[g];
      Took(w, g, en.curves, Reconcile(k, Near(w), g, en.curves, w.scene.geometry[g], dirt, en.ledger))
    else w
  }

  function RemoveGeometry(w: World, g: Path): World {
    if g in w.geometry then
      w.(geometry := w.geometry - {g}, pending := w.pending + Withdraw(g, w.geometry[g].ledger).ops)
    else w
  }

  function RepointGeometry(w: World, walk: seq<Path>): World
    decreases |walk|
  {
    if walk == [] then w
    else if walk[0] !in w.geometry then RepointGeometry(w, walk[1..])
    else
      var en := w.geometry[walk[0]];
      RepointGeometry(Took(w, walk[0], en.curves, ResolveBinding(Near(w), walk[0], en.ledger)), walk[1..])
  }

  function PokeGeometry(k: Calculus, w: World, walk: seq<Path>): World
    decreases |walk|
  {
    if walk == [] then w
    else if walk[0] !in w.geometry then PokeGeometry(k, w, walk[1..])
    else
      var en := w.geometry[walk[0]];
      PokeGeometry(k, Took(w, walk[0], en.curves, RecomposeInstancing(k, Near(w), walk[0], en.curves, en.ledger)), walk[1..])
  }

  function NetworkPatch(q: Path, n: Network): Op {
    Patch(Key(Material, q), BLANK.(baseColor := Some(n.baseColor), shading := Some(n.shading)))
  }

  function NetworkSent(w: World, q: Path): World
    requires q in w.materials && q in w.scene.materials
  {
    Emit(w, NetworkPatch(q, w.scene.materials[q])).(materials := w.materials[q := true])
  }

  function ReconcileMaterial(w: World, q: Path, walk: seq<Path>): World
    requires q in w.materials && q in w.scene.materials
  {
    if w.materials[q] then NetworkSent(w, q) else RepointGeometry(NetworkSent(w, q), walk)
  }

  /** The material leaves the wire: unpublished first, then the walk, then the Remove. */
  function WithdrawMaterial(w: World, q: Path, materials: map<Path, bool>, walk: seq<Path>): World {
    Emit(RepointGeometry(w.(materials := materials), walk), Remove(Key(Material, q)))
  }

  function AddMaterial(w: World, q: Path, walk: seq<Path>): World {
    var sent := q in w.materials && w.materials[q];
    var registered := w.(materials := w.materials[q := sent]);
    if q in w.scene.materials then ReconcileMaterial(registered, q, walk)
    else if sent then WithdrawMaterial(registered, q, w.materials[q := false], walk)
    else registered
  }

  function DirtyMaterial(w: World, q: Path, network: bool, walk: seq<Path>): World {
    if network && q in w.materials && q in w.scene.materials then ReconcileMaterial(w, q, walk) else w
  }

  function RemoveMaterial(w: World, q: Path, walk: seq<Path>): World {
    if q !in w.materials then w
    else if w.materials[q] then WithdrawMaterial(w, q, w.materials - {q}, walk)
    else w.(materials := w.materials - {q})
  }

  function RemoveInstancer(k: Calculus, w: World, q: Path, walk: seq<Path>): World {
    if q in w.instancers then PokeGeometry(k, w.(instancers := w.instancers - {q}), walk) else w
  }

  /** The first flush replaces the scene, every later one that has something
      to say overlays it. */
  ghost function Send(w: World): World {
    if !w.sentGenesis then
      w.(server := if Accepted(map[], w.pending) then Commit(map[], w.pending) else w.server, sentGenesis := true, pending := [])
    else w.(server := Commit(w.server, w.pending), pending := [])
  }

  ghost function Step(k: Calculus, w: World, e: Event): World {
    match e
    case SceneBecomes(scene) => w.(scene := scene)
    case GeometryAdded(g, curves) => AddGeometry(k, w, g, curves)
    case GeometryDirtied(g, dirt) => DirtyGeometry(k, w, g, dirt)
    case GeometryRemoved(g) => RemoveGeometry(w, g)
    case MaterialAdded(q, walk) => AddMaterial(w, q, walk)
    case MaterialDirtied(q, network, walk) => DirtyMaterial(w, q, network, walk)
    case MaterialRemoved(q, walk) => RemoveMaterial(w, q, walk)
    case InstancerAdded(q, walk) => PokeGeometry(k, w.(instancers := w.instancers + {q}), walk)
    case InstancerDirtied(q, walk) => if q in w.instancers then PokeGeometry(k, w, walk) else w
    case InstancerRemoved(q, walk) => RemoveInstancer(k, w, q, walk)
    case Flush => Send(w)
  }

  // ---------------------------------------------------------------- hypotheses

  /** A walk visits every entry of the geometry registry, and no geometry and
      material translators meet on a companion's name. */
  predicate Legal(w: World, e: Event) {
    match e
    case GeometryAdded(g, _) => Companion(g) !in w.materials
    case MaterialAdded(q, walk) => Walks(w, walk) && (forall g :: g in w.geometry ==> Companion(g) != q)
    case MaterialDirtied(_, _, walk) => Walks(w, walk)
    case MaterialRemoved(_, walk) => Walks(w, walk)
    case InstancerAdded(_, walk) => Walks(w, walk)
    case InstancerDirtied(_, walk) => Walks(w, walk)
    case InstancerRemoved(_, walk) => Walks(w, walk)
    case _ => true
  }

  predicate Walks(w: World, walk: seq<Path>) {
    (set g | g in walk) == w.geometry.Keys
  }

  /** The one event that goes wrong, as a test on the state before it. */
  predicate Misses(k: Calculus, w: World, e: Event) {
    match e
    case GeometryAdded(g, curves) =>
      && g in w.scene.geometry
      && MissesRepoint(k, Near(w), g, curves, w.scene.geometry[g], EVERYTHING, Inherited(k, PreviousLedger(w, g)))
    case GeometryDirtied(g, dirt) =>
      && g in w.geometry && g in w.scene.geometry
      && MissesRepoint(k, Near(w), g, w.geometry[g].curves, w.scene.geometry[g], dirt, w.geometry[g].ledger)
    case _ => false
  }

  /** What a scene change leaves to be announced. */
  datatype Debt =
    | GeometryPresence(path: Path) | PayloadOwed(path: Path) | ColorOwed(path: Path)
    | PlacementOwed(path: Path) | BindingOwed(path: Path)
    | MaterialPresence(path: Path) | NetworkOwed(path: Path)
    | InstancerPresence(path: Path) | CopiesOwed(path: Path)

  predicate Stays(was: Scene, now: Scene, g: Path) {
    g in was.geometry && g in now.geometry
  }

  ghost predicate Incurs(was: Scene, now: Scene, d: Debt) {
    match d
    case GeometryPresence(g) =>
      (g in was.geometry) != (g in now.geometry) || (Stays(was, now, g) && was.geometry[g].curves != now.geometry[g].curves)
    case PayloadOwed(g) => Stays(was, now, g) && was.geometry[g].payload != now.geometry[g].payload
    case ColorOwed(g) => Stays(was, now, g) && was.geometry[g].color != now.geometry[g].color
    case PlacementOwed(g) => Stays(was, now, g) &&
      var a, b := was.geometry[g], now.geometry[g];
      (a.visible != b.visible || a.world != b.world || a.instancedBy != b.instancedBy)
    case BindingOwed(g) => Stays(was, now, g) && was.geometry[g].binding != now.geometry[g].binding
    case MaterialPresence(q) => (q in was.materials) != (q in now.materials)
    case NetworkOwed(q) => q in was.materials && q in now.materials && was.materials[q] != now.materials[q]
    case InstancerPresence(q) => (q in was.instancers) != (q in now.instancers)
    case CopiesOwed(q) => Get(was.instancers, q) != Get(now.instancers, q)
  }

  ghost function AllOf(g: Path): iset<Debt> {
    iset{GeometryPresence(g), PayloadOwed(g), ColorOwed(g), PlacementOwed(g), BindingOwed(g)}
  }

  ghost function Lanes(g: Path, dirt: Dirt): iset<Debt> {
    (if dirt.geometry then iset{PayloadOwed(g)} else iset{})
    + (if dirt.color then iset{ColorOwed(g)} else iset{})
    + (if dirt.placement then iset{PlacementOwed(g)} else iset{})
    + (if dirt.binding then iset{BindingOwed(g)} else iset{})
  }

  /** The debts after an event: a scene change incurs them, a notice pays the
      ones it announces, and a notice that contradicts the scene incurs one. */
  ghost function Owing(w: World, owed: iset<Debt>, e: Event): iset<Debt> {
    match e
    case SceneBecomes(scene) => owed + (iset d | Incurs(w.scene, scene, d))
    case GeometryAdded(g, curves) =>
      if g in w.scene.geometry && w.scene.geometry[g].curves == curves then owed - AllOf(g) else owed + iset{GeometryPresence(g)}
    case GeometryDirtied(g, dirt) => if g in w.scene.geometry then owed - Lanes(g, dirt) else owed
    case GeometryRemoved(g) => if g !in w.scene.geometry then owed - AllOf(g) else owed + iset{GeometryPresence(g)}
    case MaterialAdded(q, _) =>
      if q in w.scene.materials then owed - iset{MaterialPresence(q), NetworkOwed(q)} else owed + iset{MaterialPresence(q)}
    case MaterialDirtied(q, network, _) => if network && q in w.scene.materials then owed - iset{NetworkOwed(q)} else owed
    case MaterialRemoved(q, _) =>
      if q !in w.scene.materials then owed - iset{MaterialPresence(q), NetworkOwed(q)} else owed + iset{MaterialPresence(q)}
    case InstancerAdded(q, _) =>
      if q in w.scene.instancers then owed - iset{InstancerPresence(q), CopiesOwed(q)} else owed + iset{InstancerPresence(q)}
    case InstancerDirtied(q, _) => if q in w.instancers then owed - iset{CopiesOwed(q)} else owed
    case InstancerRemoved(q, _) =>
      if q !in w.scene.instancers then owed - iset{InstancerPresence(q), CopiesOwed(q)} else owed + iset{InstancerPresence(q)}
    case Flush => owed
  }

  // ---------------------------------------------------------------- the invariant

  function Base(w: World): Db { if w.sentGenesis then w.server else map[] }

  /** The server as it will be once the pending ops land. */
  function Mirror(w: World): Option<Db> { Replay(Base(w), w.pending) }

  /** Which lanes of a geometry prim are owed nothing; `copies` speaks of all
      registered instancers. */
  datatype Paid = Paid(presence: bool, payload: bool, color: bool, placement: bool, binding: bool, copies: bool)

  ghost function PaidFor(instancers: set<Path>, owed: iset<Debt>, g: Path): Paid {
    Paid(GeometryPresence(g) !in owed, PayloadOwed(g) !in owed, ColorOwed(g) !in owed, PlacementOwed(g) !in owed, BindingOwed(g) !in owed,
      forall q :: q in instancers ==> CopiesOwed(q) !in owed)
  }

  /** Every lane that is owed nothing agrees with the prim in the scene. */
  ghost predicate UpToDate(k: Calculus, prim: Option<Prim>, copiers: Copiers, paid: Paid, en: Entry, c: Content) {
    var l := en.ledger;
    && (l.payload.Some? ==> l.payload.value == KindOf(en.curves))
    && (l.instancedBy == [] || paid.copies ==> Stood(k, copiers, l, c))
    && (paid.presence ==>
          && prim.Some? && prim.value.curves == en.curves
          && (paid.payload ==>
                l.payload.Some? == prim.value.payload.Some? && (l.payload.Some? ==> c.source == prim.value.payload.value))
          && (l.payload.Some? ==>
                && (paid.color ==> c.color == prim.value.color)
                && (paid.binding ==> l.binding == prim.value.binding)
                && (paid.placement ==>
                      l.visible == prim.value.visible && l.protoXform == prim.value.world && l.instancedBy == prim.value.instancedBy)))
  }

  ghost predicate GeometryFits(k: Calculus, prim: Option<Prim>, copiers: Copiers, paid: Paid, db: Db, g: Path, en: Entry) {
    exists c: Content :: Shows(db, g, en.ledger, c) && Wears(g, en.ledger, c) && UpToDate(k, prim, copiers, paid, en, c)
  }

  ghost predicate Fits(k: Calculus, w: World, owed: iset<Debt>, db: Db, g: Path)
    requires g in w.geometry
  {
    GeometryFits(k, Get(w.scene.geometry, g), Near(w).copiers, PaidFor(w.instancers, owed, g), db, g, w.geometry[g])
  }

  ghost predicate AllFit(k: Calculus, w: World, owed: iset<Debt>, db: Db) {
    forall g :: g in w.geometry ==> Fits(k, w, owed, db, g)
  }

  ghost predicate AllSquared(w: World) {
    forall g :: g in w.geometry ==> Squared(Near(w), w.geometry[g].ledger)
  }

  ghost predicate MaterialFits(scene: Scene, owed: iset<Debt>, db: Db, q: Path, sent: bool) {
    && (sent <==> Key(Material, q) in db)
    && (sent ==> IsNetwork(db[Key(Material, q)]))
    && (MaterialPresence(q) !in owed ==>
          && q in scene.materials && sent
          && (NetworkOwed(q) !in owed ==> db[Key(Material, q)] == NetworkPatch(q, scene.materials[q]).fields))
  }

  predicate IsNetwork(f: Fields) {
    f.baseColor.Some? && f.shading.Some? && f == BLANK.(baseColor := f.baseColor, shading := f.shading)
  }

  ghost predicate MaterialsFit(w: World, owed: iset<Debt>, db: Db) {
    forall q :: q in w.materials ==> MaterialFits(w.scene, owed, db, q, w.materials[q])
  }

  /** Every object on the server belongs to a registered translator. */
  predicate Accounted(geometry: set<Path>, materials: set<Path>, key: Key) {
    if key.kind == Material then
      key.name in materials || (key.name.Child? && key.name.name == "displayColor" && key.name.parent in geometry)
    else Own(key.kind) && key.name in geometry
  }

  ghost predicate NoStrays(w: World, db: Db) {
    forall key :: key in db ==> Accounted(w.geometry.Keys, w.materials.Keys, key)
  }

  ghost predicate NoClash(w: World) {
    forall g :: g in w.geometry ==> Companion(g) !in w.materials
  }

  ghost predicate Presences(w: World, owed: iset<Debt>) {
    && (forall g :: GeometryPresence(g) !in owed ==> (g in w.geometry <==> g in w.scene.geometry))
    && (forall q :: MaterialPresence(q) !in owed ==> (q in w.materials <==> q in w.scene.materials))
    && (forall q :: InstancerPresence(q) !in owed ==> (q in w.instancers <==> q in w.scene.instancers))
  }

  ghost predicate Consistent(k: Calculus, w: World, owed: iset<Debt>, db: Db) {
    && AllFit(k, w, owed, db) && AllSquared(w) && MaterialsFit(w, owed, db)
    && NoStrays(w, db) && NoClash(w) && Presences(w, owed)
  }

  /** The pending ops land on the server, and what they leave there is what
      the ledgers say and, wherever nothing is owed, what the scene says. */
  ghost predicate Inv(k: Calculus, w: World, owed: iset<Debt>) {
    Mirror(w).Some? && Consistent(k, w, owed, Mirror(w).value)
  }

  // ---------------------------------------------------------------- one translator at a time

  lemma MirrorExtends(w: World, next: World, ops: seq<Op>)
    requires Mirror(w).Some?
    requires next.pending == w.pending + ops && Base(next) == Base(w)
    ensures Mirror(next) == Replay(Mirror(w).value, ops)
  {
    ReplaySplits(Base(w), w.pending, ops);
  }

  /** Only debts on geometry `g` may differ. */
  ghost predicate OwedElsewhere(owed: iset<Debt>, next: iset<Debt>, g: Path) {
    forall d :: d !in AllOf(g) ==> (d in owed <==> d in next)
  }

  lemma OthersStand(k: Calculus, prim: Option<Prim>, copiers: Copiers, paid: Paid, db: Db, after: Db, g: Path, h: Path, en: Entry)
    requires g != h && Apart(db, after, g) && GeometryFits(k, prim, copiers, paid, db, h, en)
    ensures GeometryFits(k, prim, copiers, paid, after, h, en)
  {
    var c: Content :| Shows(db, h, en.ledger, c) && Wears(h, en.ledger, c) && UpToDate(k, prim, copiers, paid, en, c);
    assert !Owned(g, Key(Mesh, h)) && !Owned(g, Key(Curves, h)) && !Owned(g, Key(Instance, h)) && !Owned(g, Key(Material, Companion(h)));
    assert Shows(after, h, en.ledger, c);
  }

  lemma SamePaid(instancers: set<Path>, owed: iset<Debt>, next: iset<Debt>, g: Path, h: Path)
    requires g != h && OwedElsewhere(owed, next, g)
    ensures PaidFor(instancers, owed, h) == PaidFor(instancers, next, h)
  {
    assert forall d :: d in AllOf(h) ==> d !in AllOf(g);
    assert GeometryPresence(h) in AllOf(h) && PayloadOwed(h) in AllOf(h) && ColorOwed(h) in AllOf(h) && PlacementOwed(h) in AllOf(h) && BindingOwed(h) in AllOf(h);
    assert forall q :: CopiesOwed(q) in owed <==> CopiesOwed(q) in next;
  }

  lemma MaterialsStand(w: World, owed: iset<Debt>, next: iset<Debt>, db: Db, after: Db, g: Path)
    requires MaterialsFit(w, owed, db) && Companion(g) !in w.materials
    requires Apart(db, after, g) && OwedElsewhere(owed, next, g)
    ensures MaterialsFit(w, next, after)
  {
    forall q | q in w.materials ensures MaterialFits(w.scene, next, after, q, w.materials[q]) {
      assert !Owned(g, Key(Material, q));
      assert Get(db, Key(Material, q)) == Get(after, Key(Material, q));
      assert MaterialFits(w.scene, owed, db, q, w.materials[q]);
    }
  }

  lemma StraysStand(w: World, db: Db, after: Db, g: Path)
    requires NoStrays(w, db) && Apart(db, after, g)
    ensures forall key :: key in after ==> Accounted(w.geometry.Keys + {g}, w.materials.Keys, key)
  {
    forall key | key in after ensures Accounted(w.geometry.Keys + {g}, w.materials.Keys, key) {
      if !Owned(g, key) {
        assert Get(db, key) == Get(after, key);
        assert Accounted(w.geometry.Keys, w.materials.Keys, key);
      }
    }
  }

  lemma TookLeaves(k: Calculus, w: World, owed: iset<Debt>, next: iset<Debt>, g: Path, curves: bool, e: Effect, db: Db, after: Db)
    requires MaterialsFit(w, owed, db) && NoStrays(w, db) && NoClash(w)
    requires Companion(g) !in w.materials && Apart(db, after, g) && OwedElsewhere(owed, next, g)
    ensures var x := Took(w, g, curves, e);
      MaterialsFit(x, next, after) && NoStrays(x, after) && NoClash(x)
  {
    var x := Took(w, g, curves, e);
    MaterialsStand(w, owed, next, db, after, g);
    StraysStand(w, db, after, g);
    assert x.geometry.Keys == w.geometry.Keys + {g};
  }

  /** After a translator's effect every prim fits, exactly when its own
      instance wears on the server what its ledger says. */
  lemma TookFits(k: Calculus, w: World, owed: iset<Debt>, next: iset<Debt>, g: Path, curves: bool, e: Effect, db: Db, after: Db, c: Content)
    requires forall h :: h in w.geometry && h != g ==> Fits(k, w, owed, db, h)
    requires Apart(db, after, g) && Shows(after, g, e.ledger, c) && OwedElsewhere(owed, next, g)
    requires UpToDate(k, Get(w.scene.geometry, g), Near(w).copiers, PaidFor(w.instancers, next, g), Entry(curves, e.ledger), c)
    ensures AllFit(k, Took(w, g, curves, e), next, after) <==> Wears(g, e.ledger, c)
  {
    var x := Took(w, g, curves, e);
    forall h | h in w.geometry && h != g ensures Fits(k, x, next, after, h) {
      SamePaid(w.instancers, owed, next, g, h);
      OthersStand(k, Get(w.scene.geometry, h), Near(w).copiers, PaidFor(w.instancers, owed, h), db, after, g, h, w.geometry[h]);
    }
    OwnFits(k, Get(w.scene.geometry, g), Near(w).copiers, PaidFor(w.instancers, next, g), after, g, Entry(curves, e.ledger), c);
    assert Fits(k, x, next, after, g) <==> Wears(g, e.ledger, c);
  }

  lemma OwnFits(k: Calculus, prim: Option<Prim>, copiers: Copiers, paid: Paid, db: Db, g: Path, en: Entry, c: Content)
    requires Shows(db, g, en.ledger, c) && UpToDate(k, prim, copiers, paid, en, c)
    ensures GeometryFits(k, prim, copiers, paid, db, g, en) <==> Wears(g, en.ledger, c)
  {}

  lemma Unregistered(k: Calculus, w: World, db: Db, g: Path, c: Content)
    requires NoStrays(w, db) && g !in w.geometry && Companion(g) !in w.materials
    ensures Shows(db, g, Inherited(k, None), c)
  {
    assert !Accounted(w.geometry.Keys, w.materials.Keys, Key(Material, Companion(g)));
  }

  /** Any content will do where nothing stands. */
  const NOTHING := Content(0, 0, EmptyPath, [])

  function PaidBy(dirt: Dirt, paid: Paid): Paid {
    Paid(paid.presence, paid.payload || dirt.geometry, paid.color || dirt.color, paid.placement || dirt.placement, paid.binding || dirt.binding, paid.copies)
  }

  lemma DirtyUpToDate(k: Calculus, near: Registries, g: Path, en: Entry, prim: Prim, dirt: Dirt, paid: Paid, c: Content, m: Ledger, d: Content)
    requires Reconciled(k, near, g, en.curves, prim, dirt, en.ledger, c, m, d)
    requires UpToDate(k, Some(prim), near.copiers, paid, en, c)
    ensures UpToDate(k, Some(prim), near.copiers, PaidBy(dirt, paid), Entry(en.curves, m), d)
  {}

  lemma AddUpToDate(k: Calculus, near: Registries, g: Path, curves: bool, prim: Prim, paid: Paid, l: Ledger, c: Content, m: Ledger, d: Content)
    requires Reconciled(k, near, g, curves, prim, EVERYTHING, l, c, m, d)
    requires paid.presence ==> prim.curves == curves
    ensures UpToDate(k, Some(prim), near.copiers, paid, Entry(curves, m), d)
  {}

  // ---------------------------------------------------------------- geometry notices

  lemma GeometryStep(k: Calculus, w: World, owed: iset<Debt>, next: iset<Debt>, g: Path, curves: bool, e: Effect, after: Db, c: Content)
    requires Inv(k, w, owed) && Companion(g) !in w.materials && Lands(Mirror(w).value, g, e, after, c) && OwedElsewhere(owed, next, g)
    requires UpToDate(k, Get(w.scene.geometry, g), Near(w).copiers, PaidFor(w.instancers, next, g), Entry(curves, e.ledger), c)
    requires Presences(Took(w, g, curves, e), next)
    ensures Inv(k, Took(w, g, curves, e), next) <==> Dressed(Near(w), g, e.ledger, c)
    ensures Mirror(Took(w, g, curves, e)) == Some(after)
  {
    var x := Took(w, g, curves, e);
    var db := Mirror(w).value;
    MirrorExtends(w, x, e.ops);
    TookLeaves(k, w, owed, next, g, curves, e, db, after);
    TookFits(k, w, owed, next, g, curves, e, db, after, c);
    assert Near(x) == Near(w);
    assert AllSquared(x) <==> Squared(Near(w), e.ledger) by {
      assert x.geometry[g].ledger == e.ledger;
    }
  }

  lemma Witness(k: Calculus, w: World, owed: iset<Debt>, g: Path) returns (c: Content)
    requires Inv(k, w, owed) && g in w.geometry
    ensures Shows(Mirror(w).value, g, w.geometry[g].ledger, c) && Dressed(Near(w), g, w.geometry[g].ledger, c)
    ensures UpToDate(k, Get(w.scene.geometry, g), Near(w).copiers, PaidFor(w.instancers, owed, g), w.geometry[g], c)
  {
    assert Fits(k, w, owed, Mirror(w).value, g) && Squared(Near(w), w.geometry[g].ledger);
    c :| Shows(Mirror(w).value, g, w.geometry[g].ledger, c) && Wears(g, w.geometry[g].ledger, c)
      && UpToDate(k, Get(w.scene.geometry, g), Near(w).copiers, PaidFor(w.instancers, owed, g), w.geometry[g], c);
  }

  lemma DirtyKeeps(k: Calculus, w: World, owed: iset<Debt>, g: Path, dirt: Dirt)
    requires Inv(k, w, owed) && g in w.geometry && g in w.scene.geometry
    ensures var en, prim := w.geometry[g], w.scene.geometry[g];
      Inv(k, DirtyGeometry(k, w, g, dirt), owed - Lanes(g, dirt)) == !MissesRepoint(k, Near(w), g, en.curves, prim, dirt, en.ledger)
  {
    var en, prim, near, db := w.geometry[g], w.scene.geometry[g], Near(w), Mirror(w).value;
    var next := owed - Lanes(g, dirt);
    var c := Witness(k, w, owed, g);
    var e := Reconcile(k, near, g, en.curves, prim, dirt, en.ledger);
    var after, d := ReconcileLands(k, near, db, g, en.curves, prim, dirt, en.ledger, c);
    DirtyUpToDate(k, near, g, en, prim, dirt, PaidFor(w.instancers, owed, g), c, e.ledger, d);
    PaidAfterDirt(w.instancers, owed, g, dirt);
    SamePresences(w, owed, next, g, en.curves, e);
    GeometryStep(k, w, owed, next, g, en.curves, e, after, d);
  }

  lemma PaidAfterDirt(instancers: set<Path>, owed: iset<Debt>, g: Path, dirt: Dirt)
    ensures PaidBy(dirt, PaidFor(instancers, owed, g)) == PaidFor(instancers, owed - Lanes(g, dirt), g)
    ensures OwedElsewhere(owed, owed - Lanes(g, dirt), g)
  {}

  lemma SamePresences(w: World, owed: iset<Debt>, next: iset<Debt>, g: Path, curves: bool, e: Effect)
    requires Presences(w, owed) && OwedElsewhere(owed, next, g) && g in w.geometry
    requires GeometryPresence(g) in next <==> GeometryPresence(g) in owed
    ensures Presences(Took(w, g, curves, e), next)
  {
    assert Took(w, g, curves, e).geometry.Keys == w.geometry.Keys;
    assert forall h :: h != g ==> GeometryPresence(h) !in AllOf(g);
  }

  lemma PayingFits(k: Calculus, w: World, owed: iset<Debt>, next: iset<Debt>, db: Db, g: Path)
    requires AllFit(k, w, owed, db) && OwedElsewhere(owed, next, g) && g !in w.geometry
    ensures AllFit(k, w, next, db)
  {
    forall h | h in w.geometry ensures Fits(k, w, next, db, h) {
      assert Fits(k, w, owed, db, h);
      SamePaid(w.instancers, owed, next, g, h);
    }
  }

  lemma PayingMaterials(w: World, owed: iset<Debt>, next: iset<Debt>, db: Db, g: Path)
    requires MaterialsFit(w, owed, db) && OwedElsewhere(owed, next, g)
    ensures MaterialsFit(w, next, db)
  {
    forall q | q in w.materials ensures MaterialFits(w.scene, next, db, q, w.materials[q]) {
      assert MaterialFits(w.scene, owed, db, q, w.materials[q]);
    }
  }

  /** A notice nobody is registered for changes nothing. */
  lemma PayingNobody(k: Calculus, w: World, owed: iset<Debt>, next: iset<Debt>, g: Path)
    requires Inv(k, w, owed) && OwedElsewhere(owed, next, g) && g !in w.geometry && Presences(w, next)
    ensures Inv(k, w, next)
  {
    PayingFits(k, w, owed, next, Mirror(w).value, g);
    PayingMaterials(w, owed, next, Mirror(w).value, g);
  }

  /** What the newcomer inherits is what the server shows. */
  lemma InheritedStands(k: Calculus, w: World, owed: iset<Debt>, g: Path) returns (l: Ledger, c: Content)
    requires Inv(k, w, owed) && Companion(g) !in w.materials
    ensures l == Inherited(k, PreviousLedger(w, g))
    ensures Shows(Mirror(w).value, g, l, c) && Dressed(Near(w), g, l, c)
  {
    l := Inherited(k, PreviousLedger(w, g));
    if g in w.geometry {
      c := Witness(k, w, owed, g);
    } else {
      c := NOTHING;
      Unregistered(k, w, Mirror(w).value, g, c);
    }
  }

  lemma AddKeeps(k: Calculus, w: World, owed: iset<Debt>, next: iset<Debt>, g: Path, curves: bool)
    requires Inv(k, w, owed) && Companion(g) !in w.materials && g in w.scene.geometry
    requires OwedElsewhere(owed, next, g) && (GeometryPresence(g) !in next ==> w.scene.geometry[g].curves == curves)
    ensures Inv(k, AddGeometry(k, w, g, curves), next)
      <==> !MissesRepoint(k, Near(w), g, curves, w.scene.geometry[g], EVERYTHING, Inherited(k, PreviousLedger(w, g)))
  {
    var near, db, prim := Near(w), Mirror(w).value, w.scene.geometry[g];
    var l, c := InheritedStands(k, w, owed, g);
    var e := Reconcile(k, near, g, curves, prim, EVERYTHING, l);
    var after, d := ReconcileLands(k, near, db, g, curves, prim, EVERYTHING, l, c);
    AddUpToDate(k, near, g, curves, prim, PaidFor(w.instancers, next, g), l, c, e.ledger, d);
    AddedPresences(w, owed, next, g, curves, e);
    GeometryStep(k, w, owed, next, g, curves, e, after, d);
  }

  lemma AddedPresences(w: World, owed: iset<Debt>, next: iset<Debt>, g: Path, curves: bool, e: Effect)
    requires Presences(w, owed) && OwedElsewhere(owed, next, g)
    requires GeometryPresence(g) !in next ==> g in w.scene.geometry
    ensures Presences(Took(w, g, curves, e), next)
  {
    assert forall h :: h != g ==> GeometryPresence(h) !in AllOf(g);
  }

  lemma WithdrawnUpToDate(k: Calculus, prim: Option<Prim>, copiers: Copiers, paid: Paid, curves: bool, m: Ledger, c: Content)
    requires m.payload.None? && !paid.presence
    ensures UpToDate(k, prim, copiers, paid, Entry(curves, m), c)
  {}

  /** An add that finds no prim withdraws what it inherited. */
  lemma PhantomAddKeeps(k: Calculus, w: World, owed: iset<Debt>, next: iset<Debt>, g: Path, curves: bool)
    requires Inv(k, w, owed) && Companion(g) !in w.materials && g !in w.scene.geometry
    requires OwedElsewhere(owed, next, g) && GeometryPresence(g) in next
    ensures Inv(k, AddGeometry(k, w, g, curves), next)
  {
    var l, c := InheritedStands(k, w, owed, g);
    PhantomKeeps(k, w, owed, next, g, curves, l, c);
  }

  lemma PhantomKeeps(k: Calculus, w: World, owed: iset<Debt>, next: iset<Debt>, g: Path, curves: bool, l: Ledger, c: Content)
    requires Inv(k, w, owed) && Companion(g) !in w.materials
    requires OwedElsewhere(owed, next, g) && GeometryPresence(g) in next
    requires Shows(Mirror(w).value, g, l, c)
    ensures Inv(k, Took(w, g, curves, Withdraw(g, l)), next)
  {
    var e := Withdraw(g, l);
    var after := WithdrawLands(Mirror(w).value, g, l, c);
    WithdrawnUpToDate(k, Get(w.scene.geometry, g), Near(w).copiers, PaidFor(w.instancers, next, g), curves, e.ledger, c);
    AddedPresences(w, owed, next, g, curves, e);
    assert Dressed(Near(w), g, e.ledger, c);
    GeometryStep(k, w, owed, next, g, curves, e, after, c);
  }

  lemma RemovedStrays(w: World, db: Db, after: Db, g: Path, l: Ledger, c: Content)
    requires NoStrays(w, db) && Apart(db, after, g) && Shows(after, g, l, c) && l.payload.None? && !l.instanceLive
    ensures forall key :: key in after ==> Accounted(w.geometry.Keys - {g}, w.materials.Keys, key)
  {
    forall key | key in after ensures Accounted(w.geometry.Keys - {g}, w.materials.Keys, key) {
      assert Get(after, key).Some?;
      if !Owned(g, key) {
        assert Get(db, key) == Get(after, key);
        assert Accounted(w.geometry.Keys, w.materials.Keys, key);
      }
    }
  }

  lemma RemovedFits(k: Calculus, w: World, owed: iset<Debt>, next: iset<Debt>, db: Db, after: Db, g: Path, x: World)
    requires AllFit(k, w, owed, db) && AllSquared(w) && Apart(db, after, g) && OwedElsewhere(owed, next, g)
    requires x == w.(geometry := w.geometry - {g}, pending := x.pending)
    ensures AllFit(k, x, next, after) && AllSquared(x)
  {
    forall h | h in x.geometry ensures Fits(k, x, next, after, h) {
      assert Fits(k, w, owed, db, h);
      SamePaid(w.instancers, owed, next, g, h);
      OthersStand(k, Get(w.scene.geometry, h), Near(w).copiers, PaidFor(w.instancers, owed, h), db, after, g, h, w.geometry[h]);
    }
    forall h | h in x.geometry ensures Squared(Near(x), x.geometry[h].ledger) {
      assert Squared(Near(w), w.geometry[h].ledger);
    }
  }

  lemma RemoveKeeps(k: Calculus, w: World, owed: iset<Debt>, next: iset<Debt>, g: Path)
    requires Inv(k, w, owed) && g in w.geometry && OwedElsewhere(owed, next, g) && Presences(RemoveGeometry(w, g), next)
    ensures Inv(k, RemoveGeometry(w, g), next)
  {
    var db, x, l := Mirror(w).value, RemoveGeometry(w, g), w.geometry[g].ledger;
    var c := Witness(k, w, owed, g);
    var after := WithdrawLands(db, g, l, c);
    MirrorExtends(w, x, Withdraw(g, l).ops);
    RemovedStrays(w, db, after, g, Withdraw(g, l).ledger, c);
    RemovedFits(k, w, owed, next, db, after, g, x);
    MaterialsStand(w, owed, next, db, after, g);
    assert x.geometry.Keys == w.geometry.Keys - {g};
  }

  // ---------------------------------------------------------------- walks over the registry

  predicate OwnedBySome(geometry: set<Path>, key: Key) {
    if key.kind == Material then key.name.Child? && key.name.name == "displayColor" && key.name.parent in geometry
    else Own(key.kind) && key.name in geometry
  }

  /** Only objects of registered geometry differ. */
  ghost predicate ApartFrom(before: Db, after: Db, geometry: set<Path>) {
    forall key :: !OwnedBySome(geometry, key) ==> Get(before, key) == Get(after, key)
  }

  /** Fits, but for copies: `placed` says whether placements are demanded to be current. */
  ghost predicate FitsBut(k: Calculus, w: World, owed: iset<Debt>, db: Db, g: Path, placed: bool)
    requires g in w.geometry
  {
    GeometryFits(k, Get(w.scene.geometry, g), Near(w).copiers, PaidFor(w.instancers, owed, g).(copies := placed), db, g, w.geometry[g])
  }

  lemma WeakerFits(k: Calculus, prim: Option<Prim>, copiers: Copiers, paid: Paid, less: Paid, db: Db, g: Path, en: Entry)
    requires GeometryFits(k, prim, copiers, paid, db, g, en)
    requires less == paid.(copies := less.copies) && (less.copies ==> paid.copies)
    ensures GeometryFits(k, prim, copiers, less, db, g, en)
  {
    var c: Content :| Shows(db, g, en.ledger, c) && Wears(g, en.ledger, c) && UpToDate(k, prim, copiers, paid, en, c);
    assert UpToDate(k, prim, copiers, less, en, c);
  }

  /** A walk touched ledgers and appended ops, nothing else. */
  ghost predicate Walked(w: World, x: World, db: Db, after: Db) {
    && x == w.(geometry := x.geometry, pending := x.pending)
    && x.geometry.Keys == w.geometry.Keys
    && Mirror(x) == Some(after) && ApartFrom(db, after, w.geometry.Keys)
  }

  lemma WalkedMaterials(w: World, x: World, owed: iset<Debt>, db: Db, after: Db)
    requires Walked(w, x, db, after) && MaterialsFit(w, owed, db) && NoClash(w)
    ensures MaterialsFit(x, owed, after)
  {
    forall q | q in x.materials ensures MaterialFits(x.scene, owed, after, q, x.materials[q]) {
      assert q.Child? && q.parent in w.geometry ==> Companion(q.parent) !in w.materials;
      assert Get(db, Key(Material, q)) == Get(after, Key(Material, q));
      assert MaterialFits(w.scene, owed, db, q, w.materials[q]);
    }
  }

  lemma WalkedStrays(w: World, x: World, db: Db, after: Db)
    requires Walked(w, x, db, after) && NoStrays(w, db)
    ensures NoStrays(x, after)
  {
    forall key | key in after ensures Accounted(x.geometry.Keys, x.materials.Keys, key) {
      if !OwnedBySome(w.geometry.Keys, key) {
        assert Get(db, key) == Get(after, key);
        assert Accounted(w.geometry.Keys, w.materials.Keys, key);
      }
    }
  }

  lemma ResolveUpToDate(k: Calculus, prim: Option<Prim>, near: Registries, paid: Paid, g: Path, en: Entry, c: Content, m: Ledger, d: Content)
    requires UpToDate(k, prim, near.copiers, paid, en, c) && Wears(g, en.ledger, c)
    requires Resolved(near, g, en.ledger, c, m, d)
    ensures UpToDate(k, prim, near.copiers, paid, Entry(en.curves, m), d) && Wears(g, m, d) && Squared(near, m)
  {}

  lemma RepointOne(k: Calculus, w: World, owed: iset<Debt>, db: Db, g: Path) returns (mid: Db)
    requires g in w.geometry && Mirror(w) == Some(db) && AllFit(k, w, owed, db)
    ensures var en := w.geometry[g];
      var y := Took(w, g, en.curves, ResolveBinding(Near(w), g, en.ledger));
      && Mirror(y) == Some(mid) && Apart(db, mid, g) && AllFit(k, y, owed, mid)
      && Squared(Near(w), y.geometry[g].ledger)
  {
    var en, near, paid := w.geometry[g], Near(w), PaidFor(w.instancers, owed, g);
    assert Fits(k, w, owed, db, g);
    var c: Content :| Shows(db, g, en.ledger, c) && Wears(g, en.ledger, c) && UpToDate(k, Get(w.scene.geometry, g), near.copiers, paid, en, c);
    hide ResolveBinding, UpToDate, Shows, PaidFor, Replay;
    var e := ResolveBinding(near, g, en.ledger);
    var d;
    mid, d := ResolveLands(near, db, g, en.ledger, c);
    MirrorExtends(w, Took(w, g, en.curves, e), e.ops);
    ResolveUpToDate(k, Get(w.scene.geometry, g), near, paid, g, en, c, e.ledger, d);
    TookFits(k, w, owed, owed, g, en.curves, e, db, mid, d);
  }

  lemma NearStays(w: World, g: Path, curves: bool, e: Effect)
    ensures Near(Took(w, g, curves, e)) == Near(w)
  {}

  lemma {:induction false} RepointKeeps(k: Calculus, w: World, owed: iset<Debt>, db: Db, walk: seq<Path>) returns (after: Db)
    requires Mirror(w) == Some(db) && AllFit(k, w, owed, db)
    ensures var x := RepointGeometry(w, walk);
      && Walked(w, x, db, after) && AllFit(k, x, owed, after)
      && (forall g :: g in w.geometry && g in walk ==> Squared(Near(w), x.geometry[g].ledger))
      && (forall g :: g in w.geometry && g !in walk ==> x.geometry[g] == w.geometry[g])
    decreases |walk|
  {
    hide AllFit, ResolveBinding, Mirror, Squared, Near;
    if walk == [] {
      after := db;
    } else if walk[0] !in w.geometry {
      after := RepointKeeps(k, w, owed, db, walk[1..]);
    } else {
      var g := walk[0];
      var y := Took(w, g, w.geometry[g].curves, ResolveBinding(Near(w), g, w.geometry[g].ledger));
      NearStays(w, g, w.geometry[g].curves, ResolveBinding(Near(w), g, w.geometry[g].ledger));
      var mid := RepointOne(k, w, owed, db, g);
      after := RepointKeeps(k, y, owed, mid, walk[1..]);
      WalkOne(w, y, g, db, mid, after);
    }
  }

  lemma WalkOne(w: World, y: World, g: Path, db: Db, mid: Db, after: Db)
    requires g in w.geometry && y.geometry.Keys == w.geometry.Keys
    requires Apart(db, mid, g) && ApartFrom(mid, after, y.geometry.Keys)
    ensures ApartFrom(db, after, w.geometry.Keys)
  {
    forall key | !OwnedBySome(w.geometry.Keys, key) ensures Get(db, key) == Get(after, key) {
      assert !Owned(g, key);
      assert Get(db, key) == Get(mid, key);
    }
  }

  lemma RecomposeUpToDate(k: Calculus, near: Registries, prim: Option<Prim>, paid: Paid, db: Db, g: Path, en: Entry, c: Content)
      returns (after: Db, d: Content)
    requires Shows(db, g, en.ledger, c) && Dressed(near, g, en.ledger, c)
    requires UpToDate(k, prim, near.copiers, paid.(copies := false), en, c)
    ensures var e := RecomposeInstancing(k, near, g, en.curves, en.ledger);
      && Lands(db, g, e, after, d) && Dressed(near, g, e.ledger, d)
      && UpToDate(k, prim, near.copiers, paid.(copies := true), Entry(en.curves, e.ledger), d)
  {
    var l := en.ledger;
    if l.instancedBy == [] || l.payload.None? {
      after, d := db, c;
    } else {
      after, d := PlaceLands(k, near, db, g, en.curves, l, c);
      PlacedUpToDate(k, near, prim, paid, g, en, c, Place(k, near, g, en.curves, l).ledger, d);
    }
  }

  lemma PlacedUpToDate(k: Calculus, near: Registries, prim: Option<Prim>, paid: Paid, g: Path, en: Entry, c: Content, m: Ledger, d: Content)
    requires Dressed(near, g, en.ledger, c) && UpToDate(k, prim, near.copiers, paid.(copies := false), en, c)
    requires PlacedFrom(k, near, g, en.ledger, c, m, d)
    ensures Dressed(near, g, m, d) && UpToDate(k, prim, near.copiers, paid.(copies := true), Entry(en.curves, m), d)
  {}

  ghost predicate Tended(k: Calculus, w: World, owed: iset<Debt>, db: Db, g: Path, placed: bool)
    requires g in w.geometry
  {
    FitsBut(k, w, owed, db, g, placed) && Squared(Near(w), w.geometry[g].ledger)
  }

  /** Every prim the walk visits ends up placed where the instancers now put it. */
  lemma {:induction false} PokeKeeps(k: Calculus, w: World, owed: iset<Debt>, db: Db, walk: seq<Path>) returns (after: Db)
    requires Mirror(w) == Some(db) && forall g :: g in w.geometry ==> Tended(k, w, owed, db, g, false)
    ensures var x := PokeGeometry(k, w, walk);
      && Walked(w, x, db, after)
      && (forall g :: g in w.geometry ==> Tended(k, x, owed, after, g, false))
      && (forall g :: g in w.geometry && (g in walk || Tended(k, w, owed, db, g, true)) ==> Tended(k, x, owed, after, g, true))
    decreases |walk|
  {
    hide Tended, RecomposeInstancing, Near, Mirror;
    if walk == [] {
      after := db;
    } else if walk[0] !in w.geometry {
      after := PokeKeeps(k, w, owed, db, walk[1..]);
    } else {
      var g := walk[0];
      var y := Took(w, g, w.geometry[g].curves, RecomposeInstancing(k, Near(w), g, w.geometry[g].curves, w.geometry[g].ledger));
      var mid := PokeOne(k, w, owed, db, g);
      after := PokeKeeps(k, y, owed, mid, walk[1..]);
      WalkOne(w, y, g, db, mid, after);
    }
  }

  lemma PokeOne(k: Calculus, w: World, owed: iset<Debt>, db: Db, g: Path) returns (mid: Db)
    requires g in w.geometry && Mirror(w) == Some(db) && forall h :: h in w.geometry ==> Tended(k, w, owed, db, h, false)
    ensures var en := w.geometry[g];
      var y := Took(w, g, en.curves, RecomposeInstancing(k, Near(w), g, en.curves, en.ledger));
      && Mirror(y) == Some(mid) && Apart(db, mid, g) && Tended(k, y, owed, mid, g, true)
      && (forall h :: h in w.geometry ==> Tended(k, y, owed, mid, h, false))
      && (forall h :: h in w.geometry && Tended(k, w, owed, db, h, true) ==> Tended(k, y, owed, mid, h, true))
  {
    var en, near, prim, paid := w.geometry[g], Near(w), Get(w.scene.geometry, g), PaidFor(w.instancers, owed, g);
    var c := TendedContent(k, w, owed, db, g);
    hide RecomposeInstancing, UpToDate, Shows, Wears, Squared, PaidFor, Tended, Near, Mirror, Replay;
    var e := RecomposeInstancing(k, near, g, en.curves, en.ledger);
    var d;
    mid, d := RecomposeUpToDate(k, near, prim, paid, db, g, en, c);
    MirrorExtends(w, Took(w, g, en.curves, e), e.ops);
    PokedFits(k, w, owed, g, en.curves, e, mid, d);
    PokedOthers(k, w, owed, db, g, en.curves, e, mid);
  }

  lemma TendedContent(k: Calculus, w: World, owed: iset<Debt>, db: Db, g: Path) returns (c: Content)
    requires g in w.geometry && Tended(k, w, owed, db, g, false)
    ensures Shows(db, g, w.geometry[g].ledger, c) && Dressed(Near(w), g, w.geometry[g].ledger, c)
    ensures UpToDate(k, Get(w.scene.geometry, g), Near(w).copiers, PaidFor(w.instancers, owed, g).(copies := false), w.geometry[g], c)
  {
    c :| Shows(db, g, w.geometry[g].ledger, c) && Wears(g, w.geometry[g].ledger, c)
      && UpToDate(k, Get(w.scene.geometry, g), Near(w).copiers, PaidFor(w.instancers, owed, g).(copies := false), w.geometry[g], c);
  }

  lemma PokedFits(k: Calculus, w: World, owed: iset<Debt>, g: Path, curves: bool, e: Effect, mid: Db, d: Content)
    requires Shows(mid, g, e.ledger, d) && Dressed(Near(w), g, e.ledger, d)
    requires UpToDate(k, Get(w.scene.geometry, g), Near(w).copiers, PaidFor(w.instancers, owed, g).(copies := true), Entry(curves, e.ledger), d)
    ensures Tended(k, Took(w, g, curves, e), owed, mid, g, true) && Tended(k, Took(w, g, curves, e), owed, mid, g, false)
  {
    var prim, copiers, paid, en := Get(w.scene.geometry, g), Near(w).copiers, PaidFor(w.instancers, owed, g), Entry(curves, e.ledger);
    OwnFits(k, prim, copiers, paid.(copies := true), mid, g, en, d);
    WeakerFits(k, prim, copiers, paid.(copies := true), paid.(copies := false), mid, g, en);
  }

  lemma PokedOthers(k: Calculus, w: World, owed: iset<Debt>, db: Db, g: Path, curves: bool, e: Effect, mid: Db)
    requires Apart(db, mid, g)
    ensures forall h, placed: bool :: h in w.geometry && h != g && Tended(k, w, owed, db, h, placed) ==>
      Tended(k, Took(w, g, curves, e), owed, mid, h, placed)
  {
    forall h, placed: bool | h in w.geometry && h != g && Tended(k, w, owed, db, h, placed)
      ensures Tended(k, Took(w, g, curves, e), owed, mid, h, placed)
    {
      OthersStand(k, Get(w.scene.geometry, h), Near(w).copiers, PaidFor(w.instancers, owed, h).(copies := placed), db, mid, g, h, w.geometry[h]);
    }
  }

  // ---------------------------------------------------------------- material notices

  /** Objects that are no geometry's own may change under the geometry. */
  lemma GeometryUndisturbed(k: Calculus, w: World, x: World, owed: iset<Debt>, next: iset<Debt>, db: Db, after: Db)
    requires AllFit(k, w, owed, db)
    requires x.scene == w.scene && x.geometry == w.geometry && x.instancers == w.instancers
    requires forall key :: OwnedBySome(w.geometry.Keys, key) ==> Get(db, key) == Get(after, key)
    requires forall g :: PaidFor(w.instancers, owed, g) == PaidFor(w.instancers, next, g)
    ensures AllFit(k, x, next, after)
  {
    hide PaidFor, GeometryFits;
    forall g | g in x.geometry ensures Fits(k, x, next, after, g) {
      assert Fits(k, w, owed, db, g);
      SameShown(k, Get(w.scene.geometry, g), Near(w).copiers, PaidFor(w.instancers, owed, g), db, after, g, w.geometry[g]);
    }
  }

  lemma SameShown(k: Calculus, prim: Option<Prim>, copiers: Copiers, paid: Paid, db: Db, after: Db, g: Path, en: Entry)
    requires GeometryFits(k, prim, copiers, paid, db, g, en)
    requires forall key :: Owned(g, key) ==> Get(db, key) == Get(after, key)
    ensures GeometryFits(k, prim, copiers, paid, after, g, en)
  {
    var c: Content :| Shows(db, g, en.ledger, c) && Wears(g, en.ledger, c) && UpToDate(k, prim, copiers, paid, en, c);
    assert Shows(after, g, en.ledger, c);
  }

  /** Debts on materials may differ, on `q` alone. */
  ghost predicate MaterialDebts(owed: iset<Debt>, next: iset<Debt>, q: Path) {
    forall d :: d != MaterialPresence(q) && d != NetworkOwed(q) ==> (d in owed <==> d in next)
  }

  lemma SamePaidAround(instancers: set<Path>, owed: iset<Debt>, next: iset<Debt>, q: Path)
    requires MaterialDebts(owed, next, q)
    ensures forall g :: PaidFor(instancers, owed, g) == PaidFor(instancers, next, g)
  {}

  lemma OtherMaterials(w: World, x: World, owed: iset<Debt>, next: iset<Debt>, db: Db, after: Db, q: Path)
    requires MaterialsFit(w, owed, db) && MaterialDebts(owed, next, q) && x.scene == w.scene
    requires forall key :: key != Key(Material, q) ==> Get(db, key) == Get(after, key)
    requires forall p :: p in x.materials && p != q ==> p in w.materials && x.materials[p] == w.materials[p]
    requires q in x.materials ==> MaterialFits(x.scene, next, after, q, x.materials[q])
    ensures MaterialsFit(x, next, after)
  {
    forall p | p in x.materials ensures MaterialFits(x.scene, next, after, p, x.materials[p]) {
      if p != q {
        assert MaterialFits(w.scene, owed, db, p, w.materials[p]);
        assert Get(db, Key(Material, p)) == Get(after, Key(Material, p));
      }
    }
  }

  /** The total patch leaves exactly the network on the server. */
  lemma NetworkLands(w: World, owed: iset<Debt>, db: Db, q: Path) returns (after: Db)
    requires MaterialsFit(w, owed, db) && q in w.materials && q in w.scene.materials
    ensures Apply(db, NetworkPatch(q, w.scene.materials[q])) == Some(after)
    ensures after == db[Key(Material, q) := NetworkPatch(q, w.scene.materials[q]).fields]
  {
    assert MaterialFits(w.scene, owed, db, q, w.materials[q]);
    after := Apply(db, NetworkPatch(q, w.scene.materials[q])).value;
  }

  ghost predicate MaterialHalf(w: World, owed: iset<Debt>, db: Db) {
    MaterialsFit(w, owed, db) && NoStrays(w, db) && NoClash(w)
  }

  /** Sending a network, before any walk: the rest of the server is as it was. */
  lemma SentKeeps(k: Calculus, w: World, owed: iset<Debt>, next: iset<Debt>, db: Db, q: Path) returns (after: Db)
    requires Mirror(w) == Some(db) && AllFit(k, w, owed, db) && MaterialHalf(w, owed, db)
    requires q in w.materials && q in w.scene.materials
    requires MaterialDebts(owed, next, q)
    ensures var x := NetworkSent(w, q);
      Mirror(x) == Some(after) && AllFit(k, x, next, after) && MaterialHalf(x, next, after)
  {
    var op := NetworkPatch(q, w.scene.materials[q]);
    var x := Emit(w, op).(materials := w.materials[q := true]);
    after := NetworkLands(w, owed, db, q);
    MirrorExtends(w, x, [op]);
    ReplayOne(db, op);
    hide AllFit, PaidFor, MaterialDebts, Mirror, Replay, Apply, MaterialsFit, NoStrays;
    NotACompanion(w, q);
    SamePaidAround(w.instancers, owed, next, q);
    GeometryUndisturbed(k, w, x, owed, next, db, after);
    NetworkStands(w, x, owed, next, db, after, q);
  }

  lemma NetworkStands(w: World, x: World, owed: iset<Debt>, next: iset<Debt>, db: Db, after: Db, q: Path)
    requires MaterialHalf(w, owed, db) && MaterialDebts(owed, next, q) && q in w.materials && q in w.scene.materials
    requires x == w.(materials := w.materials[q := true], pending := x.pending)
    requires after == db[Key(Material, q) := NetworkPatch(q, w.scene.materials[q]).fields]
    ensures MaterialHalf(x, next, after)
  {
    assert MaterialFits(x.scene, next, after, q, true);
    OtherMaterials(w, x, owed, next, db, after, q);
    assert x.materials.Keys == w.materials.Keys;
  }

  lemma NotACompanion(w: World, q: Path)
    requires NoClash(w) && q in w.materials
    ensures !OwnedBySome(w.geometry.Keys, Key(Material, q))
  {
    assert q.Child? && q.parent in w.geometry ==> Companion(q.parent) !in w.materials;
  }

  lemma RepointAll(k: Calculus, w: World, owed: iset<Debt>, db: Db, walk: seq<Path>) returns (after: Db)
    requires Mirror(w) == Some(db) && AllFit(k, w, owed, db) && MaterialHalf(w, owed, db) && Walks(w, walk)
    ensures var x := RepointGeometry(w, walk);
      Walked(w, x, db, after) && AllFit(k, x, owed, after) && MaterialHalf(x, owed, after) && AllSquared(x)
  {
    after := RepointKeeps(k, w, owed, db, walk);
    var x := RepointGeometry(w, walk);
    WalkedMaterials(w, x, owed, db, after);
    WalkedStrays(w, x, db, after);
    WalkSquares(w, x, walk);
  }

  lemma WalkSquares(w: World, x: World, walk: seq<Path>)
    requires Walks(w, walk) && x.geometry.Keys == w.geometry.Keys && Near(x) == Near(w)
    requires forall g :: g in w.geometry && g in walk ==> Squared(Near(w), x.geometry[g].ledger)
    ensures AllSquared(x)
  {
    forall g | g in x.geometry ensures Squared(Near(x), x.geometry[g].ledger) {
      assert g in (set h | h in walk);
    }
  }

  lemma SentPresences(w: World, x: World, next: iset<Debt>, q: Path)
    requires q in w.materials && q in w.scene.materials && Presences(w, next)
    requires x.scene == w.scene && x.geometry.Keys == w.geometry.Keys && x.instancers == w.instancers
    requires x.materials == w.materials[q := true]
    ensures Presences(x, next)
  {
    assert x.materials.Keys == w.materials.Keys;
  }

  /** The walk after a network was sent for the first time. */
  lemma BirthWalk(k: Calculus, w: World, next: iset<Debt>, x: World, mid: Db, q: Path, walk: seq<Path>)
    requires q in w.materials && q in w.scene.materials && x == NetworkSent(w, q)
    requires Walks(x, walk) && Presences(w, next)
    requires Mirror(x) == Some(mid) && AllFit(k, x, next, mid) && MaterialHalf(x, next, mid)
    ensures Inv(k, RepointGeometry(x, walk), next)
  {
    hide Mirror, AllFit, MaterialsFit, NoStrays, NoClash, AllSquared, NetworkPatch, Presences, Walks;
    var after := RepointAll(k, x, next, mid, walk);
    SentPresences(w, RepointGeometry(x, walk), next, q);
  }

  lemma ReconcileMaterialKeeps(k: Calculus, w: World, owed: iset<Debt>, next: iset<Debt>, q: Path, walk: seq<Path>)
    requires Inv(k, w, owed) && q in w.materials && q in w.scene.materials && Walks(w, walk)
    requires MaterialDebts(owed, next, q) && Presences(w, next)
    ensures Inv(k, ReconcileMaterial(w, q, walk), next)
  {
    hide Mirror, AllFit, MaterialsFit, NoStrays, NoClash, MaterialDebts, AllSquared, NetworkPatch, Presences;
    var x := NetworkSent(w, q);
    var mid := SentKeeps(k, w, owed, next, Mirror(w).value, q);
    SentPresences(w, x, next, q);
    if w.materials[q] {
      assert x.materials == w.materials;
      SquaredAlike(w, x);
    } else {
      BirthWalk(k, w, next, x, mid, q, walk);
    }
  }

  lemma SquaredAlike(w: World, x: World)
    requires AllSquared(w) && x.geometry == w.geometry && Near(x) == Near(w)
    ensures AllSquared(x)
  {
    forall g | g in x.geometry ensures Squared(Near(x), x.geometry[g].ledger) {
      assert Squared(Near(w), w.geometry[g].ledger);
    }
  }

  /** The walk of a withdrawal: unpublished already, still on the server. */
  lemma WithdrawalWalk(k: Calculus, w: World, y: World, owed: iset<Debt>, next: iset<Debt>, db: Db, q: Path, walk: seq<Path>) returns (after: Db)
    requires Mirror(w) == Some(db) && AllFit(k, w, owed, db) && MaterialDebts(owed, next, q) && Walks(w, walk)
    requires y == w.(materials := y.materials)
    ensures var x := RepointGeometry(y, walk);
      Walked(y, x, db, after) && AllFit(k, x, next, after) && AllSquared(x)
  {
    SamePaidAround(w.instancers, owed, next, q);
    GeometryUndisturbed(k, w, y, owed, next, db, db);
    after := RepointKeeps(k, y, next, db, walk);
    WalkSquares(y, RepointGeometry(y, walk), walk);
  }

  /** A published material leaves: every instance lets go before its Remove. */
  lemma WithdrawMaterialKeeps(k: Calculus, w: World, owed: iset<Debt>, next: iset<Debt>, q: Path, materials: map<Path, bool>, walk: seq<Path>)
    requires Inv(k, w, owed) && q in w.materials && w.materials[q] && Walks(w, walk)
    requires materials == w.materials - {q} || (materials == w.materials[q := false] && MaterialPresence(q) in next)
    requires MaterialDebts(owed, next, q) && Presences(w.(materials := materials), next)
    ensures Inv(k, WithdrawMaterial(w, q, materials, walk), next)
  {
    var db, y := Mirror(w).value, w.(materials := materials);
    var after := WithdrawalWalk(k, w, y, owed, next, db, q, walk);
    var x, last := RepointGeometry(y, walk), WithdrawMaterial(w, q, materials, walk);
    RemoveLands(w, owed, db, after, x, last, q);
    RemovedUnder(k, w, x, last, next, after, q);
    WithdrawnMaterials(w, last, owed, next, q, db, after, after - {Key(Material, q)});
  }

  lemma RemovedUnder(k: Calculus, w: World, x: World, last: World, next: iset<Debt>, after: Db, q: Path)
    requires NoClash(w) && q in w.materials && x.geometry.Keys == w.geometry.Keys
    requires AllFit(k, x, next, after) && AllSquared(x) && last == Emit(x, Remove(Key(Material, q)))
    ensures AllFit(k, last, next, after - {Key(Material, q)}) && AllSquared(last)
  {
    NotACompanion(w, q);
    OneGone(after, x.geometry.Keys, q);
    GeometryUndisturbed(k, x, last, next, next, after, after - {Key(Material, q)});
    SquaredAlike(x, last);
  }

  lemma OneGone(after: Db, geometry: set<Path>, q: Path)
    requires !OwnedBySome(geometry, Key(Material, q))
    ensures forall key :: OwnedBySome(geometry, key) ==> Get(after, key) == Get(after - {Key(Material, q)}, key)
  {}

  lemma RemoveLands(w: World, owed: iset<Debt>, db: Db, after: Db, x: World, last: World, q: Path)
    requires MaterialHalf(w, owed, db) && q in w.materials && w.materials[q]
    requires ApartFrom(db, after, w.geometry.Keys) && Mirror(x) == Some(after) && last == Emit(x, Remove(Key(Material, q)))
    ensures Mirror(last) == Some(after - {Key(Material, q)})
  {
    NotACompanion(w, q);
    assert MaterialFits(w.scene, owed, db, q, true);
    assert Get(db, Key(Material, q)) == Get(after, Key(Material, q));
    ReplayOne(after, Remove(Key(Material, q)));
    MirrorExtends(x, last, [Remove(Key(Material, q))]);
  }

  lemma WithdrawnMaterials(w: World, last: World, owed: iset<Debt>, next: iset<Debt>, q: Path, db: Db, after: Db, gone: Db)
    requires MaterialHalf(w, owed, db) && q in w.materials && MaterialDebts(owed, next, q)
    requires last.scene == w.scene && last.geometry.Keys == w.geometry.Keys
    requires last.materials == w.materials - {q} || (last.materials == w.materials[q := false] && MaterialPresence(q) in next)
    requires ApartFrom(db, after, w.geometry.Keys) && gone == after - {Key(Material, q)}
    ensures MaterialHalf(last, next, gone)
  {
    forall p | p in last.materials ensures MaterialFits(last.scene, next, gone, p, last.materials[p]) {
      if p != q {
        NotACompanion(w, p);
        assert Get(db, Key(Material, p)) == Get(after, Key(Material, p));
        assert MaterialFits(w.scene, owed, db, p, w.materials[p]);
      }
    }
    forall key | key in gone ensures Accounted(last.geometry.Keys, last.materials.Keys, key) {
      if !OwnedBySome(w.geometry.Keys, key) {
        assert Get(db, key) == Get(after, key);
        assert Accounted(w.geometry.Keys, w.materials.Keys, key);
      }
    }
  }

  /** A notice that finds nothing to do on the material's side. */
  lemma MaterialIdle(k: Calculus, w: World, x: World, owed: iset<Debt>, next: iset<Debt>, q: Path)
    requires Inv(k, w, owed) && MaterialDebts(owed, next, q)
    requires x == w.(materials := x.materials) && Published(x.materials) == Published(w.materials)
    requires forall p :: p in x.materials && p != q ==> p in w.materials && x.materials[p] == w.materials[p]
    requires forall p :: p in w.materials && p != q ==> p in x.materials
    requires q in x.materials ==> MaterialFits(x.scene, next, Mirror(w).value, q, x.materials[q])
    requires q !in x.materials ==> Key(Material, q) !in Mirror(w).value || q !in w.materials
    requires Presences(x, next) && NoClash(x)
    ensures Inv(k, x, next)
  {
    var db := Mirror(w).value;
    SamePaidAround(w.instancers, owed, next, q);
    GeometryUndisturbed(k, w, x, owed, next, db, db);
    OtherMaterials(w, x, owed, next, db, db, q);
    SquaredAlike(w, x);
    IdleStrays(w, x, db, q);
  }

  lemma IdleStrays(w: World, x: World, db: Db, q: Path)
    requires NoStrays(w, db) && x.geometry == w.geometry
    requires forall p :: p in w.materials && p != q ==> p in x.materials
    requires q !in x.materials ==> Key(Material, q) !in db || q !in w.materials
    ensures NoStrays(x, db)
  {
    forall key | key in db ensures Accounted(x.geometry.Keys, x.materials.Keys, key) {
      assert Accounted(w.geometry.Keys, w.materials.Keys, key);
    }
  }

  /** Registering a material under its inherited standing changes nothing yet. */
  lemma RegisterMaterialKeeps(k: Calculus, w: World, x: World, owed: iset<Debt>, next: iset<Debt>, q: Path)
    requires Inv(k, w, owed) && forall g :: g in w.geometry ==> Companion(g) != q
    requires MaterialDebts(owed, next, q) && MaterialPresence(q) in next
    requires x == w.(materials := w.materials[q := q in w.materials && w.materials[q]])
    ensures Inv(k, x, next)
  {
    assert Published(x.materials) == Published(w.materials);
    AddedMaterialPresences(w, x, owed, next, q);
    FreshMaterial(w, owed, Mirror(w).value, q);
    MaterialIdle(k, w, x, owed, next, q);
  }

  /** A newcomer whose network there is sends it at once. */
  lemma ArrivingKeeps(k: Calculus, w: World, x: World, owed: iset<Debt>, next: iset<Debt>, q: Path, walk: seq<Path>)
    requires Inv(k, w, owed) && Walks(w, walk) && forall g :: g in w.geometry ==> Companion(g) != q
    requires MaterialDebts(owed, next, q) && q in w.scene.materials && Presences(x, next)
    requires x == w.(materials := w.materials[q := q in w.materials && w.materials[q]])
    ensures Inv(k, ReconcileMaterial(x, q, walk), next)
  {
    var unpaid := owed + iset{MaterialPresence(q)};
    assert MaterialDebts(owed, unpaid, q) && MaterialDebts(unpaid, next, q);
    hide Inv, Presences, ReconcileMaterial, MaterialDebts;
    RegisterMaterialKeeps(k, w, x, owed, unpaid, q);
    ReconcileMaterialKeeps(k, x, unpaid, next, q, walk);
  }

  lemma AddMaterialKeeps(k: Calculus, w: World, owed: iset<Debt>, next: iset<Debt>, q: Path, walk: seq<Path>)
    requires Inv(k, w, owed) && Walks(w, walk) && forall g :: g in w.geometry ==> Companion(g) != q
    requires MaterialDebts(owed, next, q)
    requires q in w.scene.materials || MaterialPresence(q) in next
    ensures Inv(k, AddMaterial(w, q, walk), next)
  {
    var x := w.(materials := w.materials[q := q in w.materials && w.materials[q]]);
    AddedMaterialPresences(w, x, owed, next, q);
    hide Inv, Presences, ReconcileMaterial, WithdrawMaterial, MaterialDebts;
    if q in w.scene.materials {
      ArrivingKeeps(k, w, x, owed, next, q, walk);
    } else if q in w.materials && w.materials[q] {
      assert x == w;
      WithdrawMaterialKeeps(k, w, owed, next, q, w.materials[q := false], walk);
    } else {
      RegisterMaterialKeeps(k, w, x, owed, next, q);
    }
  }

  lemma FreshMaterial(w: World, owed: iset<Debt>, db: Db, q: Path)
    requires MaterialHalf(w, owed, db) && forall g :: g in w.geometry ==> Companion(g) != q
    ensures q !in w.materials ==> Key(Material, q) !in db
    ensures q in w.materials ==> MaterialFits(w.scene, owed, db, q, w.materials[q])
  {
    if Key(Material, q) in db {
      assert Accounted(w.geometry.Keys, w.materials.Keys, Key(Material, q));
      assert q.Child? && q.name == "displayColor" ==> q == Companion(q.parent);
    }
  }

  lemma AddedMaterialPresences(w: World, x: World, owed: iset<Debt>, next: iset<Debt>, q: Path)
    requires Presences(w, owed) && MaterialDebts(owed, next, q)
    requires x == w.(materials := x.materials) && x.materials.Keys == w.materials.Keys + {q}
    requires q in w.scene.materials || MaterialPresence(q) in next
    ensures Presences(x, next) && Presences(x, owed + iset{MaterialPresence(q)})
  {}

  lemma InvHasPresences(k: Calculus, w: World, owed: iset<Debt>, next: iset<Debt>, q: Path)
    requires Inv(k, w, owed) && next == owed - iset{NetworkOwed(q)}
    ensures Presences(w, next)
  {}

  lemma DirtyMaterialKeeps(k: Calculus, w: World, owed: iset<Debt>, q: Path, network: bool, walk: seq<Path>)
    requires Inv(k, w, owed) && Walks(w, walk)
    ensures Inv(k, DirtyMaterial(w, q, network, walk), Owing(w, owed, MaterialDirtied(q, network, walk)))
  {
    if network && q in w.scene.materials {
      var next := owed - iset{NetworkOwed(q)};
      InvHasPresences(k, w, owed, next, q);
      hide Inv, Presences, ReconcileMaterial;
      if q in w.materials {
        ReconcileMaterialKeeps(k, w, owed, next, q, walk);
      } else {
        MaterialIdle(k, w, w, owed, next, q);
      }
    }
  }

  lemma RemoveMaterialKeeps(k: Calculus, w: World, owed: iset<Debt>, next: iset<Debt>, q: Path, walk: seq<Path>)
    requires Inv(k, w, owed) && Walks(w, walk) && MaterialDebts(owed, next, q)
    requires q !in w.scene.materials || MaterialPresence(q) in next
    ensures Inv(k, RemoveMaterial(w, q, walk), next)
  {
    var x := w.(materials := w.materials - {q});
    RemovedMaterialPresences(w, x, owed, next, q);
    if q !in w.materials {
      assert x == w;
      MaterialIdle(k, w, w, owed, next, q);
    } else if w.materials[q] {
      WithdrawMaterialKeeps(k, w, owed, next, q, w.materials - {q}, walk);
    } else {
      assert MaterialFits(w.scene, owed, Mirror(w).value, q, false);
      assert Published(x.materials) == Published(w.materials);
      MaterialIdle(k, w, x, owed, next, q);
    }
  }

  lemma RemovedMaterialPresences(w: World, x: World, owed: iset<Debt>, next: iset<Debt>, q: Path)
    requires Presences(w, owed) && MaterialDebts(owed, next, q) && x == w.(materials := w.materials - {q})
    requires q !in w.scene.materials || MaterialPresence(q) in next
    ensures Presences(x, next)
  {}

  // ---------------------------------------------------------------- instancer notices

  ghost predicate InstancerDebts(owed: iset<Debt>, next: iset<Debt>, q: Path) {
    forall d :: d != InstancerPresence(q) && d != CopiesOwed(q) ==> (d in owed <==> d in next)
  }

  /** Whatever changed about the instancers, a poke over the whole registry
      brings every placement up to date. */
  lemma PokeAll(k: Calculus, w: World, x: World, owed: iset<Debt>, next: iset<Debt>, q: Path, walk: seq<Path>)
    requires Inv(k, w, owed) && Walks(w, walk) && InstancerDebts(owed, next, q)
    requires x == w.(instancers := x.instancers) && Presences(x, next)
    requires forall p :: p != q ==> (p in x.instancers <==> p in w.instancers)
    ensures Inv(k, PokeGeometry(k, x, walk), next)
  {
    var db := Mirror(w).value;
    BeforePoke(k, w, x, owed, next, db, q);
    assert Mirror(x) == Some(db);
    var after := PokeKeeps(k, x, next, db, walk);
    var y := PokeGeometry(k, x, walk);
    PokedAll(k, x, y, next, after, walk);
    InstancerMaterials(w, x, owed, next, db, q);
    WalkedMaterials(x, y, next, db, after);
    WalkedStrays(x, y, db, after);
  }

  lemma BeforePoke(k: Calculus, w: World, x: World, owed: iset<Debt>, next: iset<Debt>, db: Db, q: Path)
    requires AllFit(k, w, owed, db) && AllSquared(w) && InstancerDebts(owed, next, q) && x == w.(instancers := x.instancers)
    ensures forall g :: g in x.geometry ==> Tended(k, x, next, db, g, false)
  {
    forall g | g in x.geometry ensures Tended(k, x, next, db, g, false) {
      assert Fits(k, w, owed, db, g) && Squared(Near(w), w.geometry[g].ledger);
      UnplacedFits(k, Get(w.scene.geometry, g), Near(w).copiers, Near(x).copiers, PaidFor(w.instancers, owed, g), db, g, w.geometry[g]);
      assert PaidFor(x.instancers, next, g).(copies := false) == PaidFor(w.instancers, owed, g).(copies := false);
    }
  }

  /** A prim no instancer copies stands where it stood; the others are only
      asked to be placed again. */
  lemma UnplacedFits(k: Calculus, prim: Option<Prim>, copiers: Copiers, others: Copiers, paid: Paid, db: Db, g: Path, en: Entry)
    requires GeometryFits(k, prim, copiers, paid, db, g, en)
    ensures GeometryFits(k, prim, others, paid.(copies := false), db, g, en)
  {
    var c: Content :| Shows(db, g, en.ledger, c) && Wears(g, en.ledger, c) && UpToDate(k, prim, copiers, paid, en, c);
    assert UpToDate(k, prim, others, paid.(copies := false), en, c);
  }

  lemma PokedAll(k: Calculus, x: World, y: World, next: iset<Debt>, after: Db, walk: seq<Path>)
    requires Walks(x, walk) && y.geometry.Keys == x.geometry.Keys
    requires forall g :: g in x.geometry && g in walk ==> Tended(k, y, next, after, g, true)
    ensures AllFit(k, y, next, after) && AllSquared(y)
  {
    forall g | g in y.geometry ensures Fits(k, y, next, after, g) && Squared(Near(y), y.geometry[g].ledger) {
      assert g in (set h | h in walk);
      assert Tended(k, y, next, after, g, true);
      var paid := PaidFor(y.instancers, next, g);
      WeakerFits(k, Get(y.scene.geometry, g), Near(y).copiers, paid.(copies := true), paid, after, g, y.geometry[g]);
    }
  }

  lemma InstancerMaterials(w: World, x: World, owed: iset<Debt>, next: iset<Debt>, db: Db, q: Path)
    requires MaterialsFit(w, owed, db) && InstancerDebts(owed, next, q) && x == w.(instancers := x.instancers)
    ensures MaterialsFit(x, next, db)
  {
    forall p | p in x.materials ensures MaterialFits(x.scene, next, db, p, x.materials[p]) {
      assert MaterialFits(w.scene, owed, db, p, w.materials[p]);
    }
  }

  /** An instancer nobody registered was never asked. */
  lemma UnregisteredInstancer(k: Calculus, w: World, owed: iset<Debt>, next: iset<Debt>, q: Path)
    requires Inv(k, w, owed) && q !in w.instancers && InstancerDebts(owed, next, q) && Presences(w, next)
    ensures Inv(k, w, next)
  {
    NeverAsked(k, w, owed, next, Mirror(w).value, q);
    InstancerMaterials(w, w, owed, next, Mirror(w).value, q);
  }

  lemma NeverAsked(k: Calculus, w: World, owed: iset<Debt>, next: iset<Debt>, db: Db, q: Path)
    requires AllFit(k, w, owed, db) && q !in w.instancers && InstancerDebts(owed, next, q)
    ensures AllFit(k, w, next, db)
  {
    SamePaidBeside(w.instancers, owed, next, q);
    forall g | g in w.geometry ensures Fits(k, w, next, db, g) {
      assert Fits(k, w, owed, db, g);
    }
  }

  lemma SamePaidBeside(instancers: set<Path>, owed: iset<Debt>, next: iset<Debt>, q: Path)
    requires q !in instancers && InstancerDebts(owed, next, q)
    ensures forall g :: PaidFor(instancers, owed, g) == PaidFor(instancers, next, g)
  {}

  // ---------------------------------------------------------------- scene changes and flushes

  /** A scene change leaves every lane it does not owe as current as it was. */
  lemma SceneKeepsFits(k: Calculus, w: World, owed: iset<Debt>, next: iset<Debt>, scene: Scene, db: Db, g: Path)
    requires g in w.geometry && Fits(k, w, owed, db, g)
    requires next == owed + (iset d | Incurs(w.scene, scene, d))
    ensures Fits(k, w.(scene := scene), next, db, g)
  {
    var x, paid, less := w.(scene := scene), PaidFor(w.instancers, owed, g), PaidFor(w.instancers, next, g);
    if less.copies { SameCopiers(w, owed, next, scene); }
    SceneUpToDate(k, Get(w.scene.geometry, g), Get(scene.geometry, g), Near(w).copiers, Near(x).copiers, paid, less, db, g, w.geometry[g]);
  }

  lemma SameCopiers(w: World, owed: iset<Debt>, next: iset<Debt>, scene: Scene)
    requires next == owed + (iset d | Incurs(w.scene, scene, d))
    requires forall q :: q in w.instancers ==> CopiesOwed(q) !in next
    ensures CopiersOf(scene, w.instancers) == CopiersOf(w.scene, w.instancers)
  {
    forall q | q in w.instancers ensures Get(w.scene.instancers, q) == Get(scene.instancers, q) {
      assert !Incurs(w.scene, scene, CopiesOwed(q));
    }
  }

  lemma SceneUpToDate(k: Calculus, was: Option<Prim>, now: Option<Prim>, copiers: Copiers, others: Copiers, paid: Paid, less: Paid, db: Db, g: Path, en: Entry)
    requires GeometryFits(k, was, copiers, paid, db, g, en)
    requires less.copies ==> paid.copies && others == copiers
    requires less.presence ==> paid.presence && was.Some? == now.Some? && (was.Some? ==> was.value.curves == now.value.curves)
    requires less.presence && was.Some? && now.Some? ==>
      && (less.payload ==> paid.payload && was.value.payload == now.value.payload)
      && (less.color ==> paid.color && was.value.color == now.value.color)
      && (less.binding ==> paid.binding && was.value.binding == now.value.binding)
      && (less.placement ==>
            && paid.placement
            && was.value.visible == now.value.visible && was.value.world == now.value.world
            && was.value.instancedBy == now.value.instancedBy)
    ensures GeometryFits(k, now, others, less, db, g, en)
  {
    var c: Content :| Shows(db, g, en.ledger, c) && Wears(g, en.ledger, c) && UpToDate(k, was, copiers, paid, en, c);
    assert UpToDate(k, now, others, less, en, c);
  }

  lemma SceneKeepsMaterials(w: World, owed: iset<Debt>, next: iset<Debt>, scene: Scene, db: Db)
    requires MaterialsFit(w, owed, db) && next == owed + (iset d | Incurs(w.scene, scene, d))
    ensures MaterialsFit(w.(scene := scene), next, db)
  {
    forall q | q in w.materials ensures MaterialFits(scene, next, db, q, w.materials[q]) {
      assert MaterialFits(w.scene, owed, db, q, w.materials[q]);
      assert Incurs(w.scene, scene, MaterialPresence(q)) ==> MaterialPresence(q) in next;
      assert Incurs(w.scene, scene, NetworkOwed(q)) ==> NetworkOwed(q) in next;
    }
  }

  lemma SceneKeepsPresences(w: World, owed: iset<Debt>, next: iset<Debt>, scene: Scene)
    requires Presences(w, owed) && next == owed + (iset d | Incurs(w.scene, scene, d))
    ensures Presences(w.(scene := scene), next)
  {}

  lemma SceneKeeps(k: Calculus, w: World, owed: iset<Debt>, scene: Scene)
    requires Inv(k, w, owed)
    ensures Inv(k, w.(scene := scene), owed + (iset d | Incurs(w.scene, scene, d)))
  {
    var x, next, db := w.(scene := scene), owed + (iset d | Incurs(w.scene, scene, d)), Mirror(w).value;
    forall g | g in w.geometry ensures Fits(k, x, next, db, g) {
      SceneKeepsFits(k, w, owed, next, scene, db, g);
    }
    SceneKeepsMaterials(w, owed, next, scene, db);
    SceneKeepsPresences(w, owed, next, scene);
    forall g | g in x.geometry ensures Squared(Near(x), x.geometry[g].ledger) {
      assert Squared(Near(w), w.geometry[g].ledger);
    }
  }

  /** What the ledgers record never dangles. */
  lemma ConsistentIsSound(k: Calculus, w: World, owed: iset<Debt>, db: Db)
    requires AllFit(k, w, owed, db) && AllSquared(w) && MaterialsFit(w, owed, db) && NoStrays(w, db)
    ensures Sound(db)
  {
    forall g | Key(Instance, g) in db
      ensures var i := db[Key(Instance, g)];
        i.target.Some? && i.target.value in db && i.material.Some? && Key(Material, i.material.value) in db && i.transforms.Some?
    {
      assert Accounted(w.geometry.Keys, w.materials.Keys, Key(Instance, g));
      assert Fits(k, w, owed, db, g) && Squared(Near(w), w.geometry[g].ledger);
      var l := w.geometry[g].ledger;
      var c: Content :| Shows(db, g, l, c) && Wears(g, l, c);
      assert Get(db, Key(Instance, g)).Some?;
      assert Get(db, Key(l.payload.value, g)).Some?;
      if l.wearsBinding {
        assert MaterialFits(w.scene, owed, db, l.binding, w.materials[l.binding]);
      } else {
        assert Get(db, Key(Material, Companion(g))).Some?;
      }
    }
  }

  lemma SendKeeps(k: Calculus, w: World, owed: iset<Debt>)
    requires Inv(k, w, owed)
    ensures Accepted(Base(w), w.pending) && Mirror(Send(w)) == Mirror(w) && Inv(k, Send(w), owed)
  {
    ConsistentIsSound(k, w, owed, Mirror(w).value);
    var x := Send(w);
    assert x == w.(server := Mirror(w).value, sentGenesis := true, pending := []);
    assert Replay(x.server, []) == Some(x.server);
    SentAlike(k, w, x, owed, Mirror(w).value);
  }

  lemma SentAlike(k: Calculus, w: World, x: World, owed: iset<Debt>, db: Db)
    requires Consistent(k, w, owed, db) && x == w.(server := x.server, sentGenesis := x.sentGenesis, pending := x.pending)
    ensures Consistent(k, x, owed, db)
  {
    forall g | g in x.geometry ensures Fits(k, x, owed, db, g) { assert Fits(k, w, owed, db, g); }
    SquaredAlike(w, x);
    forall q | q in x.materials ensures MaterialFits(x.scene, owed, db, q, x.materials[q]) {
      assert MaterialFits(w.scene, owed, db, q, w.materials[q]);
    }
  }

  // ---------------------------------------------------------------- one event

  lemma GeometryEventKeeps(k: Calculus, w: World, owed: iset<Debt>, e: Event)
    requires Inv(k, w, owed) && Legal(w, e) && (e.GeometryAdded? || e.GeometryDirtied? || e.GeometryRemoved?)
    ensures Inv(k, Step(k, w, e), Owing(w, owed, e)) <==> !Misses(k, w, e)
  {
    var next, g := Owing(w, owed, e), e.path;
    match e
    case GeometryAdded(_, curves) =>
      if g in w.scene.geometry { AddKeeps(k, w, owed, next, g, curves); }
      else { PhantomAddKeeps(k, w, owed, next, g, curves); }
    case GeometryDirtied(_, dirt) =>
      if g in w.scene.geometry {
        if g in w.geometry { DirtyKeeps(k, w, owed, g, dirt); }
        else { DirtyNobody(k, w, owed, g, dirt); }
      }
    case GeometryRemoved(_) => GeometryRemovedKeeps(k, w, owed, next, g);
  }

  lemma DirtyNobody(k: Calculus, w: World, owed: iset<Debt>, g: Path, dirt: Dirt)
    requires Inv(k, w, owed) && g !in w.geometry
    ensures Inv(k, w, owed - Lanes(g, dirt))
  {
    PaidAfterDirt(w.instancers, owed, g, dirt);
    LanesPresences(w, owed, g, dirt);
    PayingNobody(k, w, owed, owed - Lanes(g, dirt), g);
  }

  lemma LanesPresences(w: World, owed: iset<Debt>, g: Path, dirt: Dirt)
    requires Presences(w, owed)
    ensures Presences(w, owed - Lanes(g, dirt))
  {}

  lemma GeometryRemovedKeeps(k: Calculus, w: World, owed: iset<Debt>, next: iset<Debt>, g: Path)
    requires Inv(k, w, owed) && OwedElsewhere(owed, next, g)
    requires g !in w.scene.geometry || GeometryPresence(g) in next
    ensures Inv(k, RemoveGeometry(w, g), next)
  {
    RemovedPresences(w, owed, next, g);
    if g in w.geometry { RemoveKeeps(k, w, owed, next, g); }
    else { PayingNobody(k, w, owed, next, g); }
  }

  lemma RemovedKeys(w: World, g: Path)
    ensures var x := RemoveGeometry(w, g);
      && x.geometry.Keys == w.geometry.Keys - {g}
      && x.scene == w.scene && x.materials == w.materials && x.instancers == w.instancers
  {
    hide Withdraw;
  }

  lemma RemovedPresences(w: World, owed: iset<Debt>, next: iset<Debt>, g: Path)
    requires Presences(w, owed) && OwedElsewhere(owed, next, g)
    requires g !in w.scene.geometry || GeometryPresence(g) in next
    ensures Presences(RemoveGeometry(w, g), next)
  {
    RemovedKeys(w, g);
    hide RemoveGeometry;
    assert forall h :: h != g ==> GeometryPresence(h) !in AllOf(g);
  }

  lemma MaterialEventKeeps(k: Calculus, w: World, owed: iset<Debt>, e: Event)
    requires Inv(k, w, owed) && Legal(w, e) && (e.MaterialAdded? || e.MaterialDirtied? || e.MaterialRemoved?)
    ensures Inv(k, Step(k, w, e), Owing(w, owed, e))
  {
    match e
    case MaterialAdded(q, walk) => AddMaterialKeeps(k, w, owed, Owing(w, owed, e), q, walk);
    case MaterialDirtied(q, network, walk) => DirtyMaterialKeeps(k, w, owed, q, network, walk);
    case MaterialRemoved(q, walk) => RemoveMaterialKeeps(k, w, owed, Owing(w, owed, e), q, walk);
  }

  lemma InstancerPresences(w: World, x: World, owed: iset<Debt>, next: iset<Debt>, q: Path)
    requires Presences(w, owed) && InstancerDebts(owed, next, q) && x == w.(instancers := x.instancers)
    requires forall p :: p != q ==> (p in x.instancers <==> p in w.instancers)
    requires (q in x.instancers <==> q in w.scene.instancers) || InstancerPresence(q) in next
    ensures Presences(x, next)
  {}

  lemma InstancerEventKeeps(k: Calculus, w: World, owed: iset<Debt>, e: Event)
    requires Inv(k, w, owed) && Legal(w, e) && (e.InstancerAdded? || e.InstancerDirtied? || e.InstancerRemoved?)
    ensures Inv(k, Step(k, w, e), Owing(w, owed, e))
  {
    var next, q := Owing(w, owed, e), e.path;
    match e
    case InstancerAdded(_, walk) =>
      var x := w.(instancers := w.instancers + {q});
      InstancerPresences(w, x, owed, next, q);
      PokeAll(k, w, x, owed, next, q, walk);
    case InstancerDirtied(_, walk) =>
      if q in w.instancers {
        assert w == w.(instancers := w.instancers);
        PokeAll(k, w, w, owed, next, q, walk);
      }
    case InstancerRemoved(_, walk) =>
      var x := w.(instancers := w.instancers - {q});
      InstancerPresences(w, x, owed, next, q);
      if q in w.instancers {
        PokeAll(k, w, x, owed, next, q, walk);
      } else {
        assert x == w;
        UnregisteredInstancer(k, w, owed, next, q);
      }
  }

  /** Every event keeps the server in step with the ledgers and the scene,
      save the missed repoint, and that one never does. */
  lemma EventKeeps(k: Calculus, w: World, owed: iset<Debt>, e: Event)
    requires Inv(k, w, owed) && Legal(w, e)
    ensures Inv(k, Step(k, w, e), Owing(w, owed, e)) <==> !Misses(k, w, e)
  {
    match e
    case SceneBecomes(scene) => SceneKeeps(k, w, owed, scene);
    case Flush => SendKeeps(k, w, owed);
    case _ =>
      if e.GeometryAdded? || e.GeometryDirtied? || e.GeometryRemoved? { GeometryEventKeeps(k, w, owed, e); }
      else if e.MaterialAdded? || e.MaterialDirtied? || e.MaterialRemoved? { MaterialEventKeeps(k, w, owed, e); }
      else { InstancerEventKeeps(k, w, owed, e); }
  }
}
