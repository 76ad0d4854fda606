/** What a missed repoint can do, and no more. Beside the translators as they are
    runs a repaired twin that sends the repoint; the two differ on the server in
    the material instances name, and in nothing else. */
module MissedRepoints {

  import opened Options
  import opened SceneServer
  import opened Instancing
  import opened Geometry
  import opened Translators
  import R = TranslatorRuns
  import W = SharedList

  // ---------------------------------------------------------------- the repair

  /** The patch the missed repoint should have sent. */
  function Repoint(g: Path, binding: Path): Op { Patch(Key(Instance, g), BLANK.(material := Some(binding))) }

  ghost function Repaired(k: Calculus, w: World, e: Event): World {
    var x := Step(k, w, e);
    if Misses(k, w, e) then Emit(x, Repoint(e.path, w.scene.geometry[e.path].binding)) else x
  }

  lemma RepointLands(k: Calculus, near: Registries, db: Db, g: Path, e: Effect, after: Db, c: Content, binding: Path)
      returns (next: Db, d: Content)
    requires Lands(db, g, e, after, c) && e.ledger.instanceLive && e.ledger.wearsBinding && e.ledger.binding == binding
    requires Squared(near, e.ledger)
    ensures Lands(db, g, Append(e, Repoint(g, binding)), next, d) && d == c.(material := binding)
    ensures Dressed(near, g, e.ledger, d)
  {
    d := c.(material := binding);
    next := PatchLands(after, g, e.ledger, Repoint(g, binding), d);
    LandsFollowed(db, g, e, after, Effect(e.ledger, [Repoint(g, binding)]), next, c, d);
  }

  lemma SameButMaterial(k: Calculus, prim: Option<Prim>, copiers: Copiers, paid: Paid, en: Entry, c: Content, d: Content)
    requires UpToDate(k, prim, copiers, paid, en, c) && d == c.(material := d.material)
    ensures UpToDate(k, prim, copiers, paid, en, d)
  {}

  /** After a miss the ledger says "the bound material", which is on the wire. */
  lemma MissedLedger(k: Calculus, near: Registries, db: Db, g: Path, curves: bool, prim: Prim, dirt: Dirt, l: Ledger, c: Content, m: Ledger, d: Content)
    requires MissesRepoint(k, near, g, curves, prim, dirt, l) && Reconciled(k, near, g, curves, prim, dirt, l, c, m, d)
    requires Shows(db, g, m, d)
    ensures m.instanceLive && m.wearsBinding && m.binding == prim.binding && Squared(near, m)
  {}

  lemma TookThenEmit(w: World, g: Path, curves: bool, e: Effect, op: Op)
    ensures Emit(Took(w, g, curves, e), op) == Took(w, g, curves, Append(e, op))
  {
    assert (w.pending + e.ops) + [op] == w.pending + (e.ops + [op]);
  }

  lemma RepairedAdd(k: Calculus, w: World, owed: iset<Debt>, next: iset<Debt>, g: Path, curves: bool)
    requires Inv(k, w, owed) && Companion(g) !in w.materials && g in w.scene.geometry
    requires OwedElsewhere(owed, next, g) && (GeometryPresence(g) !in next ==> w.scene.geometry[g].curves == curves)
    requires MissesRepoint(k, Near(w), g, curves, w.scene.geometry[g], EVERYTHING, Inherited(k, PreviousLedger(w, g)))
    ensures Inv(k, Emit(AddGeometry(k, w, g, curves), Repoint(g, w.scene.geometry[g].binding)), next)
  {
    var near, db, prim := Near(w), Mirror(w).value, w.scene.geometry[g];
    var l, c := InheritedStands(k, w, owed, g);
    var done := Reconcile(k, near, g, curves, prim, EVERYTHING, l);
    var after, d := ReconcileLands(k, near, db, g, curves, prim, EVERYTHING, l, c);
    hide Inv, Reconcile, Mirror, Inherited, Shows, UpToDate, PaidFor, OwedElsewhere;
    AddUpToDate(k, near, g, curves, prim, PaidFor(w.instancers, next, g), l, c, done.ledger, d);
    LandedShows(db, g, done, after, d);
    MissedLedger(k, near, after, g, curves, prim, EVERYTHING, l, c, done.ledger, d);
    RepairedStep(k, w, owed, next, g, curves, done, after, d, prim);
  }

  lemma LandedShows(db: Db, g: Path, e: Effect, after: Db, d: Content)
    requires Lands(db, g, e, after, d)
    ensures Shows(after, g, e.ledger, d)
  {}

  lemma RepairedDirty(k: Calculus, w: World, owed: iset<Debt>, e: Event)
    requires Inv(k, w, owed) && Legal(w, e) && e.GeometryDirtied? && Misses(k, w, e)
    ensures Inv(k, Repaired(k, w, e), Owing(w, owed, e))
  {
    var g, dirt, next := e.path, e.dirt, Owing(w, owed, e);
    var en, near, db, prim := w.geometry[g], Near(w), Mirror(w).value, w.scene.geometry[g];
    var c := Witness(k, w, owed, g);
    var done := Reconcile(k, near, g, en.curves, prim, dirt, en.ledger);
    var after, d := ReconcileLands(k, near, db, g, en.curves, prim, dirt, en.ledger, c);
    DirtyUpToDate(k, near, g, en, prim, dirt, PaidFor(w.instancers, owed, g), c, done.ledger, d);
    PaidAfterDirt(w.instancers, owed, g, dirt);
    MissedLedger(k, near, after, g, en.curves, prim, dirt, en.ledger, c, done.ledger, d);
    hide Reconcile, Reconciled, MissesRepoint, Mirror;
    RepairedStep(k, w, owed, next, g, en.curves, done, after, d, prim);
  }

  lemma RepairedStep(k: Calculus, w: World, owed: iset<Debt>, next: iset<Debt>, g: Path, curves: bool, done: Effect, after: Db, d: Content, prim: Prim)
    requires Inv(k, w, owed) && Companion(g) !in w.materials && OwedElsewhere(owed, next, g)
    requires g in w.scene.geometry && w.scene.geometry[g] == prim
    requires Lands(Mirror(w).value, g, done, after, d) && Squared(Near(w), done.ledger)
    requires done.ledger.instanceLive && done.ledger.wearsBinding && done.ledger.binding == prim.binding
    requires UpToDate(k, Some(prim), Near(w).copiers, PaidFor(w.instancers, next, g), Entry(curves, done.ledger), d)
    ensures Inv(k, Emit(Took(w, g, curves, done), Repoint(g, prim.binding)), next)
  {
    var op, db := Repoint(g, prim.binding), Mirror(w).value;
    var sent := Append(done, op);
    hide Inv, Lands, UpToDate, Mirror;
    var last, f := RepointLands(k, Near(w), db, g, done, after, d, prim.binding);
    SameButMaterial(k, Some(prim), Near(w).copiers, PaidFor(w.instancers, next, g), Entry(curves, done.ledger), d, f);
    AddedPresences(w, owed, next, g, curves, sent) by { InvPresences(k, w, owed); }
    TookThenEmit(w, g, curves, done, op);
    GeometryStep(k, w, owed, next, g, curves, sent, last, f);
  }

  lemma InvPresences(k: Calculus, w: World, owed: iset<Debt>)
    requires Inv(k, w, owed)
    ensures Presences(w, owed)
  {}

  /** With the repoint sent, every event keeps the agreement. */
  lemma RepairKeeps(k: Calculus, w: World, owed: iset<Debt>, e: Event)
    requires Inv(k, w, owed) && Legal(w, e)
    ensures Inv(k, Repaired(k, w, e), Owing(w, owed, e))
  {
    if !Misses(k, w, e) {
      hide Inv, Misses, Owing, Legal, Step;
      EventKeeps(k, w, owed, e);
    } else if e.GeometryAdded? {
      hide Inv, MissesRepoint, Reconcile;
      RepairedAdd(k, w, owed, Owing(w, owed, e), e.path, e.curves);
    } else {
      hide Inv, Owing, Step, MissesRepoint;
      RepairedDirty(k, w, owed, e);
    }
  }

  // ---------------------------------------------------------------- the twins

  /** Alike in all but what an instance wears. */
  predicate Same(a: Option<Fields>, b: Option<Fields>, kind: Kind) {
    a == b
    || (kind == Instance && a.Some? && b.Some? && a.value.material.Some? && b.value.material.Some?
        && a.value.(material := None) == b.value.(material := None))
  }

  ghost predicate Twins(a: Db, b: Db) {
    forall key: Key :: Same(Get(a, key), Get(b, key), key.kind)
  }

  lemma ApplyTwins(a: Db, b: Db, op: Op)
    requires Twins(a, b)
    ensures Apply(a, op).Some? <==> Apply(b, op).Some?
    ensures Apply(a, op).Some? ==> Twins(Apply(a, op).value, Apply(b, op).value)
  {
    assert Same(Get(a, op.key), Get(b, op.key), op.key.kind);
    if Apply(a, op).Some? {
      var x, y := Apply(a, op).value, Apply(b, op).value;
      forall key: Key ensures Same(Get(x, key), Get(y, key), key.kind) {
        assert Same(Get(a, key), Get(b, key), key.kind);
      }
    }
  }

  lemma {:induction false} ReplayTwins(a: Db, b: Db, ops: seq<Op>)
    requires Twins(a, b)
    ensures Replay(a, ops).Some? <==> Replay(b, ops).Some?
    ensures Replay(a, ops).Some? ==> Twins(Replay(a, ops).value, Replay(b, ops).value)
    decreases |ops|
  {
    if ops != [] {
      hide Apply, Twins;
      ApplyTwins(a, b, ops[0]);
      if Apply(a, ops[0]).Some? { ReplayTwins(Apply(a, ops[0]).value, Apply(b, ops[0]).value, ops[1..]); }
    }
  }

  /** The repoint itself leaves the twins twins. */
  lemma RepointTwins(a: Db, b: Db, g: Path, binding: Path)
    requires Twins(a, b) && Key(Instance, g) in b && b[Key(Instance, g)].material.Some?
    ensures Twins(a, Apply(b, Repoint(g, binding)).value)
  {
    var y := Apply(b, Repoint(g, binding)).value;
    assert Same(Get(a, Key(Instance, g)), Get(b, Key(Instance, g)), Instance);
    forall key: Key ensures Same(Get(a, key), Get(y, key), key.kind) {
      assert Same(Get(a, key), Get(b, key), key.kind);
    }
  }

  /** One world as it is and one repaired: the same scene, registries and ledgers. */
  ghost predicate Beside(w: World, v: World) {
    && w == v.(pending := w.pending, server := w.server)
    && Mirror(w).Some? && Mirror(v).Some? && Twins(Mirror(w).value, Mirror(v).value)
  }

  /** No flush of the run is refused, before the last event. */
  ghost predicate FlushesPass(k: Calculus, w: World, events: seq<Event>)
    decreases |events|
  {
    events != [] ==> (events[0].Flush? ==> Accepted(Base(w), w.pending)) && FlushesPass(k, Step(k, w, events[0]), events[1..])
  }

  ghost function RepairedAfter(k: Calculus, v: World, events: seq<Event>): World
    decreases |events|
  {
    if events == [] then v else RepairedAfter(k, Repaired(k, v, events[0]), events[1..])
  }

  /** What is owed depends on the scene and the registries alone. */
  ghost function OwedAfter(k: Calculus, w: World, owed: iset<Debt>, events: seq<Event>): iset<Debt>
    decreases |events|
  {
    if events == [] then owed else OwedAfter(k, Step(k, w, events[0]), Owing(w, owed, events[0]), events[1..])
  }

  lemma SameNear(w: World, v: World)
    requires w == v.(pending := w.pending, server := w.server)
    ensures Near(w) == Near(v)
  {}

  lemma SameTests(k: Calculus, w: World, v: World, owed: iset<Debt>, e: Event)
    requires w == v.(pending := w.pending, server := w.server)
    ensures Legal(w, e) == Legal(v, e) && Misses(k, w, e) == Misses(k, v, e) && Owing(w, owed, e) == Owing(v, owed, e)
  {
    SameNear(w, v);
    hide Near, MissesRepoint;
  }

  /** One event appends the same ops to both lists. */
  lemma SameOps(k: Calculus, w: World, v: World, e: Event) returns (ops: seq<Op>)
    requires w == v.(pending := w.pending, server := w.server) && !e.Flush?
    ensures Step(k, w, e).pending == w.pending + ops && Step(k, v, e).pending == v.pending + ops
    ensures Step(k, w, e) == Step(k, v, e).(pending := w.pending + ops, server := w.server)
    ensures Base(Step(k, w, e)) == Base(w) && Base(Step(k, v, e)) == Base(v)
  {
    var u := w.(pending := []);
    assert w.pending + [] == w.pending && v.pending + [] == v.pending;
    W.StepsAlongside(k, w, u, w.pending, e);
    W.StepsAlongside(k, v, u, v.pending, e);
    W.StepServer(k, w, e);
    W.StepServer(k, v, e);
    hide Step;
    ops := Step(k, u, e).pending;
  }

  /** A missed instance stands, and wears something. */
  lemma MissedInstance(k: Calculus, v: World, owed: iset<Debt>, e: Event)
    requires Inv(k, v, owed) && Legal(v, e) && Misses(k, v, e)
    ensures var db := Mirror(Step(k, v, e));
      db.Some? && Key(Instance, e.path) in db.value && db.value[Key(Instance, e.path)].material.Some?
  {
    hide Inv, Misses, Legal, Step, Mirror;
    R.MissedRepointDisagrees(k, v, owed, e);
  }

  lemma TwinsStep(k: Calculus, w: World, v: World, owed: iset<Debt>, e: Event)
    requires Beside(w, v) && Inv(k, v, owed) && Legal(v, e)
    requires e.Flush? ==> Accepted(Base(w), w.pending)
    ensures Beside(Step(k, w, e), Repaired(k, v, e))
  {
    if e.Flush? {
      SendKeeps(k, v, owed);
      ReplayNone(Step(k, w, e).server);
      ReplayNone(Step(k, v, e).server);
    } else {
      var ops := SameOps(k, w, v, e);
      SameTests(k, w, v, owed, e);
      var x, y := Step(k, w, e), Step(k, v, e);
      hide Step, Legal, Misses;
      MirrorExtends(w, x, ops);
      MirrorExtends(v, y, ops);
      ReplayTwins(Mirror(w).value, Mirror(v).value, ops);
      RepairTwins(k, w, v, owed, e, x, y);
    }
  }

  lemma RepairTwins(k: Calculus, w: World, v: World, owed: iset<Debt>, e: Event, x: World, y: World)
    requires Inv(k, v, owed) && Legal(v, e) && !e.Flush? && y == Step(k, v, e)
    requires x == y.(pending := x.pending, server := x.server)
    requires Mirror(x).Some? <==> Mirror(y).Some?
    requires Mirror(x).Some? ==> Twins(Mirror(x).value, Mirror(y).value)
    ensures Beside(x, Repaired(k, v, e))
  {
    hide Step, Legal, Misses, Twins;
    if Misses(k, v, e) {
      var op := Repoint(e.path, v.scene.geometry[e.path].binding) by { MissedPrim(k, v, e); }
      MissedInstance(k, v, owed, e);
      RepointTwins(Mirror(x).value, Mirror(y).value, e.path, v.scene.geometry[e.path].binding);
      MirrorExtends(y, Emit(y, op), [op]);
      ReplayOne(Mirror(y).value, op);
    } else {
      EventKeeps(k, v, owed, e);
    }
  }

  lemma MissedPrim(k: Calculus, v: World, e: Event)
    requires Misses(k, v, e)
    ensures (e.GeometryAdded? || e.GeometryDirtied?) && e.path in v.scene.geometry
  {}

  lemma {:induction false} TwinsRun(k: Calculus, w: World, v: World, owed: iset<Debt>, events: seq<Event>)
    requires Beside(w, v) && Inv(k, v, owed) && R.LegalRun(k, w, events) && FlushesPass(k, w, events)
    ensures Beside(R.After(k, w, events), RepairedAfter(k, v, events))
    ensures Inv(k, RepairedAfter(k, v, events), OwedAfter(k, w, owed, events))
    decreases |events|
  {
    if events != [] {
      var e := events[0];
      SameTests(k, w, v, owed, e);
      hide Inv, Step, Legal, Misses, Owing, Repaired, Beside, Accepted;
      TwinsStep(k, w, v, owed, e);
      RepairKeeps(k, v, owed, e);
      TwinsRun(k, Step(k, w, e), Repaired(k, v, e), Owing(w, owed, e), events[1..]);
    }
  }

  /** Every instance names a material that stands. */
  ghost predicate WornStand(db: Db) {
    forall g :: Key(Instance, g) in db ==>
      db[Key(Instance, g)].material.Some? && Key(Material, db[Key(Instance, g)].material.value) in db
  }

  lemma SoundTwin(a: Db, b: Db)
    requires Twins(a, b) && Sound(b)
    ensures Sound(a) <==> WornStand(a)
  {
    forall g | Key(Instance, g) in a
      ensures a[Key(Instance, g)].target.Some? && a[Key(Instance, g)].target.value in a && a[Key(Instance, g)].transforms.Some?
    {
      var key := Key(Instance, g);
      assert Same(Get(a, key), Get(b, key), Instance);
      assert key in b && b[key].target == a[key].target && b[key].transforms == a[key].transforms;
      assert Same(Get(a, b[key].target.value), Get(b, b[key].target.value), b[key].target.value.kind);
    }
  }

  /** The damage is bounded. In any run whose flushes have passed, missed repoints
      or none, the next flush is refused exactly if some instance names a material
      that was withdrawn. And with nothing owed every object on the server is the
      scene's translation, but for the material an instance names. */
  lemma DamageIsBounded(k: Calculus, server: Db, events: seq<Event>)
    requires R.LegalRun(k, R.Start(server), events) && FlushesPass(k, R.Start(server), events)
    ensures var w := R.After(k, R.Start(server), events);
      && Mirror(w).Some?
      && (Accepted(Base(w), w.pending) <==> WornStand(Mirror(w).value))
      && (OwedAfter(k, R.Start(server), iset{}, events) == iset{} ==>
            forall key: Key :: Same(Get(Mirror(w).value, key), R.Translation(k, w.scene, key), key.kind))
  {
    var start := R.Start(server);
    R.StartInStep(k, server);
    assert Beside(start, start);
    TwinsRun(k, start, start, iset{}, events);
    var w, v := R.After(k, start, events), RepairedAfter(k, start, events);
    var a, b := Mirror(w).value, Mirror(v).value;
    SendKeeps(k, v, OwedAfter(k, start, iset{}, events));
    SoundTwin(a, b);
    if OwedAfter(k, start, iset{}, events) == iset{} {
      R.IncrementalIsFromScratch(k, v);
      forall key: Key ensures Same(Get(a, key), R.Translation(k, w.scene, key), key.kind) {
        assert Same(Get(a, key), Get(b, key), key.kind);
      }
    }
  }
}
