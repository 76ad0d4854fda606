/** Whole runs of every translator over the one shared list. */
module SharedRuns {

  import opened Options
  import opened SceneServer
  import opened Instancing
  import opened Geometry
  import opened SharedList
  import T = Translators
  import R = TranslatorRuns
  import L = Lights
  import D = Domes
  import S = Settings

  /** Before anything is heard; the host's map resolves to `resolved`. */
  function Start(server: Db, resolved: Budget): World {
    World(R.Start(server), L.World(map[], map[]), [], map[], S.Fresh(resolved))
  }

  ghost function After(k: Calculus, x: World, events: seq<Event>): World
    decreases |events|
  {
    if events == [] then x else After(k, Step(k, x, events[0]), events[1..])
  }

  ghost function OwedAfter(k: Calculus, x: World, owed: iset<T.Debt>, events: seq<Event>): iset<T.Debt>
    decreases |events|
  {
    if events == [] then owed else OwedAfter(k, Step(k, x, events[0]), Owing(x, owed, events[0]), events[1..])
  }

  ghost predicate LegalRun(k: Calculus, x: World, events: seq<Event>)
    decreases |events|
  {
    events != [] ==> Legal(x, events[0]) && LegalRun(k, Step(k, x, events[0]), events[1..])
  }

  ghost predicate NeverWrong(k: Calculus, x: World, events: seq<Event>)
    decreases |events|
  {
    events != [] ==> !GoesWrong(k, x, events[0]) && NeverWrong(k, Step(k, x, events[0]), events[1..])
  }

  ghost predicate InStepThroughout(k: Calculus, x: World, owed: iset<T.Debt>, events: seq<Event>)
    decreases |events|
  {
    Inv(k, x, owed) && (events != [] ==> InStepThroughout(k, Step(k, x, events[0]), Owing(x, owed, events[0]), events[1..]))
  }

  lemma StartInStep(k: Calculus, server: Db, resolved: Budget)
    ensures Inv(k, Start(server, resolved), iset{}) && D.Reads(Start(server, resolved).domes, Start(server, resolved).skies)
  {
    var x := Start(server, resolved);
    R.StartInStep(k, server);
    assert Part(map[], PrimKeys(x.lights)) == map[];
    NothingLit(x.lights);
    D.NothingYet(map[]);
    D.NoOps(map[], None);
  }

  lemma NothingLit(lights: L.World)
    requires lights == L.World(map[], map[])
    ensures L.Mirrors(map[], lights)
  {}

  /** A run keeps every family in step all along exactly when it never misses a
      repoint and never raises a dome unread. */
  lemma {:induction false} RunStaysInStep(k: Calculus, x: World, owed: iset<T.Debt>, events: seq<Event>)
    requires Inv(k, x, owed) && LegalRun(k, x, events)
    ensures InStepThroughout(k, x, owed, events) <==> NeverWrong(k, x, events)
    ensures NeverWrong(k, x, events) ==> Inv(k, After(k, x, events), OwedAfter(k, x, owed, events))
    decreases |events|
  {
    if events != [] {
      hide Inv, Step, Owing, GoesWrong, Legal;
      EventKeeps(k, x, owed, events[0]);
      var next, later := Step(k, x, events[0]), Owing(x, owed, events[0]);
      if !GoesWrong(k, x, events[0]) {
        RunStaysInStep(k, next, later, events[1..]);
      } else {
        NotInStep(k, next, later, events[1..]);
      }
    }
  }

  lemma NotInStep(k: Calculus, x: World, owed: iset<T.Debt>, events: seq<Event>)
    requires !Inv(k, x, owed)
    ensures !InStepThroughout(k, x, owed, events)
  {}

  lemma {:induction false} AfterSplits(k: Calculus, x: World, a: seq<Event>, b: seq<Event>)
    ensures After(k, x, a + b) == After(k, After(k, x, a), b)
    ensures LegalRun(k, x, a + b) ==> LegalRun(k, x, a)
    ensures NeverWrong(k, x, a + b) ==> NeverWrong(k, x, a)
    decreases |a|
  {
    if a == [] {
      assert a + b == b;
    } else {
      hide Step, Legal, GoesWrong;
      assert (a + b)[1..] == a[1..] + b;
      AfterSplits(k, Step(k, x, a[0]), a[1..], b);
    }
  }

  /** Wherever the frame hook falls, the change set it sends, all families' ops
      together, is accepted whole; failed deliveries before it included. At no
      prefix of the list do two environments stand. */
  lemma EveryFlushIsAccepted(k: Calculus, server: Db, resolved: Budget, events: seq<Event>, n: nat)
    requires n <= |events| && LegalRun(k, Start(server, resolved), events) && NeverWrong(k, Start(server, resolved), events)
    ensures var q := Queued(After(k, Start(server, resolved), events[..n]));
      Accepted(T.Base(q.prims), q.prims.pending) && D.NeverTwo(T.Base(q.prims), q.prims.pending)
  {
    var x := Start(server, resolved);
    StartInStep(k, server, resolved);
    assert events == events[..n] + events[n..];
    hide Start, D.NeverTwo, Accepted, T.Consistent, InStep;
    AfterSplits(k, x, events[..n], events[n..]);
    RunStaysInStep(k, x, iset{}, events[..n]);
    QueueKeeps(k, After(k, x, events[..n]), OwedAfter(k, x, iset{}, events[..n]));
    UpdateKeeps(k, After(k, x, events[..n]), OwedAfter(k, x, iset{}, events[..n]), true);
  }

  // ---------------------------------------------------------------- from scratch

  /** The scene of every family translated from nothing, object by object. */
  ghost function Translation(k: Calculus, x: World, key: Key): Option<Fields> {
    match key.kind
    case Environment =>
      if D.Lowest(x.skies, key.name) then Some(BLANK.(source := Some(x.skies[key.name].value.payload))) else None
    case Light => L.Translated(key.name, L.ReadingOf(x.lights, key.name), key.kind)
    case _ =>
      if L.Borrowed(key.kind) && L.Spelled(L.ReadingOf(x.lights, key.name)).SentArea? then
        L.Translated(key.name, L.ReadingOf(x.lights, key.name), key.kind)
      else R.Translation(k, x.prims.scene, key)
  }

  /** Every object is the translation's, and the settings read as the prim's
      answers over the map's in every field either answers. */
  ghost predicate Translated(k: Calculus, x: World, db: Db) {
    && (forall key: Key :: key.kind != Kind.Settings ==> Get(db, key) == Translation(k, x, key))
    && S.Shows(BudgetOf(db), Overlay(x.settings.session, x.settings.slot))
  }

  /** Dome notices announce what changed, and a dome that gains its data has its
      light lane dirtied. */
  predicate Covered(x: World, e: Event) { e.OnDome? ==> D.Covers(x.skies, e.dome) }

  ghost predicate CoveredRun(k: Calculus, x: World, events: seq<Event>)
    decreases |events|
  {
    events != [] ==> Covered(x, events[0]) && CoveredRun(k, Step(k, x, events[0]), events[1..])
  }

  /** No prim event of the run misses a repoint. */
  ghost predicate NeverMisses(k: Calculus, x: World, events: seq<Event>)
    decreases |events|
  {
    events != [] ==>
      && (events[0].OnPrims? ==> !T.Misses(k, x.prims, events[0].prim))
      && NeverMisses(k, Step(k, x, events[0]), events[1..])
  }

  lemma ReadStep(k: Calculus, x: World, owed: iset<T.Debt>, e: Event)
    requires Inv(k, x, owed) && D.Reads(x.domes, x.skies) && Legal(x, e) && Covered(x, e)
    requires e.OnPrims? ==> !T.Misses(k, x.prims, e.prim)
    ensures !GoesWrong(k, x, e) && D.Reads(Step(k, x, e).domes, Step(k, x, e).skies)
  {
    hide T.Consistent, L.Mirrors, D.OneSky, BudgetFits, NamesApart, D.NeverTwo, D.Reads, D.Step, D.BlankRises, D.Covers, T.Step, T.Send, T.Misses;
    if e.OnDome? { D.CoveredKeeps(x.domes, T.Mirror(x.prims).value, x.skies, e.dome); }
  }

  lemma {:induction false} CoveredRunKeeps(k: Calculus, x: World, owed: iset<T.Debt>, events: seq<Event>)
    requires Inv(k, x, owed) && D.Reads(x.domes, x.skies)
    requires LegalRun(k, x, events) && CoveredRun(k, x, events) && NeverMisses(k, x, events)
    ensures var y := After(k, x, events); Inv(k, y, OwedAfter(k, x, owed, events)) && D.Reads(y.domes, y.skies)
    decreases |events|
  {
    if events != [] {
      hide Inv, Step, Owing, GoesWrong, Legal, Covered, D.Reads, T.Misses;
      ReadStep(k, x, owed, events[0]);
      EventKeeps(k, x, owed, events[0]);
      CoveredRunKeeps(k, Step(k, x, events[0]), Owing(x, owed, events[0]), events[1..]);
    }
  }

  lemma PrimsSettle(k: Calculus, x: World, db: Db, key: Key)
    requires InStep(k, x, iset{}, db) && PrimKey(x.lights, key)
    ensures Get(db, key) == R.Translation(k, x.prims.scene, key)
  {
    var v := View(x, db);
    ViewInv(k, x, iset{}, db, T.Flush);
    R.IncrementalIsFromScratch(k, v);
    hide R.Translation, InStep, T.Inv;
    assert Get(db, key) == Get(Part(db, PrimKeys(x.lights)), key);
  }

  lemma ObjectsSettle(k: Calculus, x: World, db: Db, key: Key)
    requires InStep(k, x, iset{}, db) && D.Reads(x.domes, x.skies) && key.kind != Kind.Settings
    ensures Get(db, key) == Translation(k, x, key)
  {
    assert L.Shows(db, key.name, L.ReadingOf(x.lights, key.name));
    assert Area(x.lights, key.name) == L.Spelled(L.ReadingOf(x.lights, key.name)).SentArea?;
    if key.kind == Environment {
      D.DueIsSky(x.domes, x.skies, db);
    } else if PrimKey(x.lights, key) {
      hide R.Translation, InStep;
      PrimsSettle(k, x, db, key);
    }
  }

  /** A run the theorem speaks of: legal, announced in full, and all delivered. */
  ghost predicate Complete(k: Calculus, x: World, events: seq<Event>) {
    LegalRun(k, x, events) && CoveredRun(k, x, events) && NeverMisses(k, x, events) && OwedAfter(k, x, iset{}, events) == iset{}
  }

  /** After any run of every family's births, resyncs, dirties and deaths that
      leaves no notice undelivered, the next delivered change set leaves the
      server holding the translation of the whole scene. */
  lemma RunEqualsFromScratch(k: Calculus, server: Db, resolved: Budget, events: seq<Event>)
    requires Complete(k, Start(server, resolved), events)
    ensures var y := After(k, Start(server, resolved), events);
      Translated(k, y, Step(k, y, Update(true)).prims.server)
  {
    var x := Start(server, resolved);
    var y := After(k, x, events);
    StartInStep(k, server, resolved);
    hide Start, D.Reads;
    CoveredRunKeeps(k, x, iset{}, events);
    UpdateSettles(k, y);
  }

  /** After such a run the server's instances are just those the scene calls for,
      each wherever its prim stands. */
  lemma InstancesFromScratch(k: Calculus, server: Db, resolved: Budget, events: seq<Event>, g: Path)
    requires Complete(k, Start(server, resolved), events)
    requires var r := L.ReadingOf(After(k, Start(server, resolved), events).lights, g); !(r.Area? && r.parts.Some?)
    ensures var y := After(k, Start(server, resolved), events);
      R.InstanceSaid(k, y.prims.scene, g, Get(Step(k, y, Update(true)).prims.server, Key(Instance, g)))
  {
    var y := After(k, Start(server, resolved), events);
    var db := Step(k, y, Update(true)).prims.server;
    RunEqualsFromScratch(k, server, resolved, events);
    hide Start, After, Step, Complete, R.InstanceSaid, R.Translation;
    R.TranslationSays(k, y.prims.scene, g);
    assert Get(db, Key(Instance, g)) == Translation(k, y, Key(Instance, g));
  }

  lemma UpdateSettles(k: Calculus, y: World)
    requires Inv(k, y, iset{}) && D.Reads(y.domes, y.skies)
    ensures Translated(k, y, Step(k, y, Update(true)).prims.server)
  {
    var z := Step(k, y, Update(true));
    hide Inv, InStep, D.Reads;
    UpdateKeeps(k, y, iset{}, true);
    S.MoveKeeps(y.settings, S.Update(true)) by { SentBudget(k, y); }
    SentStands(k, z);
    var db := z.prims.server;
    forall key: Key | key.kind != Kind.Settings ensures Get(db, key) == Translation(k, y, key) {
      ObjectsSettle(k, z, db, key);
    }
  }

  lemma SentBudget(k: Calculus, y: World)
    requires Inv(k, y, iset{})
    ensures S.SentInv(y.settings)
  {}

  /** With everything sent the server is the mirror, and the settings on it are
      the delegate's own account. */
  lemma SentStands(k: Calculus, z: World)
    requires Inv(k, z, iset{}) && z.prims.sentGenesis && z.prims.pending == [] && z.settings.pending == []
    ensures InStep(k, z, iset{}, z.prims.server) && BudgetOf(z.prims.server) == z.settings.server
  {
    hide T.Consistent, L.Mirrors, D.OneSky, NamesApart, D.NeverTwo;
    ReplayNone(z.prims.server);
  }

  lemma SameScenes(k: Calculus, a: World, b: World, p: Db, q: Db, key: Key)
    requires Translated(k, a, p) && Translated(k, b, q) && key.kind != Kind.Settings
    requires a.prims.scene == b.prims.scene && a.lights.scene == b.lights.scene && a.skies == b.skies
    ensures Alike(p, q, key)
  {
    hide R.Translation, L.Translated, D.Lowest;
    assert Get(p, key) == Translation(k, a, key) == Translation(k, b, key) == Get(q, key);
  }

  /** Arrival order leaves no trace: two such runs to one scene, with whatever
      else the server held before, leave the same objects. */
  lemma ArrivalOrderIsForgotten(k: Calculus, x: World, y: World, server: Db, other: Db, resolved: Budget, events: seq<Event>, others: seq<Event>)
    requires x == Start(server, resolved) && y == Start(other, resolved)
    requires Complete(k, x, events) && Complete(k, y, others)
    requires var a, b := After(k, x, events), After(k, y, others);
      a.prims.scene == b.prims.scene && a.lights.scene == b.lights.scene && a.skies == b.skies
    ensures forall key: Key :: key.kind != Kind.Settings ==>
      Alike(Step(k, After(k, x, events), Update(true)).prims.server, Step(k, After(k, y, others), Update(true)).prims.server, key)
  {
    hide Start, Step, After, Translated;
    RunEqualsFromScratch(k, server, resolved, events);
    RunEqualsFromScratch(k, other, resolved, others);
    forall key: Key | key.kind != Kind.Settings
      ensures Alike(Step(k, After(k, x, events), Update(true)).prims.server, Step(k, After(k, y, others), Update(true)).prims.server, key)
    {
      SameScenes(k, After(k, x, events), After(k, y, others), Step(k, After(k, x, events), Update(true)).prims.server,
        Step(k, After(k, y, others), Update(true)).prims.server, key);
    }
  }

  // ---------------------------------------------------------------- why names must not be shared

  const GLOW := L.Parts(1, 1, 1, 0)

  /** A prim up and wearing its companion, and no light yet. */
  function Colored(): World { Start(map[], UNSET).(prims := R.Colored()) }

  function Shown(): Db {
    map[Key(Mesh, R.PRIM) := BLANK.(source := Some(1)), Key(Material, R.CLASH) := BLANK.(baseColor := Some(0)),
        Key(Instance, R.PRIM) := BLANK.(target := Some(Key(Mesh, R.PRIM)), material := Some(R.CLASH), transforms := Some([0]))]
  }

  lemma ColoredReplays()
    ensures Replay(map[], R.Colored().pending) == Some(Shown())
  {
    var ops := R.Colored().pending;
    L.ThreeOps(map[], ops[0], ops[1], ops[2]);
    assert ops == [ops[0], ops[1], ops[2]];
  }

  /** The light's three objects arrive, over whatever stood there. */
  lemma TriplePuts(db: Db, name: Path) returns (after: Db)
    ensures Replay(db, L.Triple(name, GLOW)) == Some(after)
    ensures after.Keys == db.Keys + {Key(Mesh, name), Key(Material, name), Key(Instance, name)}
    ensures forall key :: key in db && key.name != name ==> after[key] == db[key]
  {
    var put := L.Triple(name, GLOW);
    L.ThreeOps(db, put[0], put[1], put[2]);
    assert put == [put[0], put[1], put[2]];
    after := Replay(db, put).value;
  }

  lemma ThreeRemoved(db: Db, a: Key, b: Key, c: Key) returns (after: Db)
    requires a in db && b in db && c in db && a != b && b != c && a != c
    ensures Replay(db, [Remove(a), Remove(b), Remove(c)]) == Some(after) && after == db - {a, b, c}
  {
    L.ThreeOps(db, Remove(a), Remove(b), Remove(c));
    after := db - {a} - {b} - {c};
  }

  lemma ThreeLists(a: seq<Op>, b: seq<Op>, c: seq<Op>, x: Db, y: Db)
    requires Replay(map[], a) == Some(x) && Replay(x, b) == Some(y)
    ensures Replay(map[], a + b + c) == Replay(y, c)
  {
    ReplaySplits(map[], a, b);
    ReplaySplits(map[], a + b, c);
  }

  lemma LightIsBorn(name: Path)
    ensures Step(R.PLAIN, Colored(), OnLight(L.Born(name, L.Area(Some(GLOW))))) ==
      Grown(Colored(), L.Triple(name, GLOW)).(lights := L.World(map[name := L.SentArea], map[name := L.Area(Some(GLOW))]))
  {
    assert [] + L.Triple(name, GLOW) == L.Triple(name, GLOW);
  }

  lemma LightGoes(y: World, name: Path)
    requires y.lights.lights == map[name := L.SentArea]
    ensures Step(R.PLAIN, y, OnLight(L.Died(name))).prims
      == y.prims.(pending := y.prims.pending + L.Withdrawal(name, L.SentArea))
  {}

  /** The light came and went, and took the companion with it. */
  lemma CompanionTaken()
    ensures var name := R.CLASH;
      var ops := R.Colored().pending + L.Triple(name, GLOW) + L.Withdrawal(name, L.SentArea);
      Replay(map[], ops).Some? && !Sound(Replay(map[], ops).value)
  {
    var name, i := R.CLASH, Key(Instance, R.PRIM);
    ColoredReplays();
    var mid := TriplePuts(Shown(), name);
    assert mid[i] == Shown()[i];
    var after := ThreeRemoved(mid, Key(Instance, name), Key(Material, name), Key(Mesh, name));
    hide Replay, L.Triple;
    ThreeLists(R.Colored().pending, L.Triple(name, GLOW), L.Withdrawal(name, L.SentArea), Shown(), mid);
    assert i in after && after[i].material == Some(name) && Key(Material, name) !in after;
  }

  /** An area light comes and goes at the name of a companion: its Remove takes
      the companion, and the whole flush is refused. */
  lemma LightAtCompanionDangles()
    ensures var x := Step(R.PLAIN, Colored(), OnLight(L.Born(R.CLASH, L.Area(Some(GLOW)))));
      var y := Step(R.PLAIN, x, OnLight(L.Died(R.CLASH)));
      !Accepted(T.Base(y.prims), y.prims.pending)
  {
    var name := R.CLASH;
    CompanionTaken();
    LightIsBorn(name);
    hide Replay, Sound, Step, L.Triple, L.Withdrawal;
    LightGoes(Grown(Colored(), L.Triple(name, GLOW)).(lights := L.World(map[name := L.SentArea], map[name := L.Area(Some(GLOW))])), name);
  }

  const TORN := [Remove(Key(Instance, R.PRIM)), Remove(Key(Mesh, R.PRIM)), Remove(Key(Material, R.CLASH))]

  lemma MeshGoes(x: World)
    requires x.prims.geometry == R.Colored().geometry
    ensures var y := Step(R.PLAIN, x, OnPrims(T.GeometryRemoved(R.PRIM)));
      y.prims.pending == x.prims.pending + TORN && y.lights == x.lights && SameServer(x.prims, y.prims)
  {
    assert Withdraw(R.PRIM, R.Colored().geometry[R.PRIM].ledger).ops == TORN;
  }

  lemma RemovalRefused(db: Db, ops: seq<Op>)
    requires ops != [] && ops[0].Remove? && ops[0].key !in db
    ensures Replay(db, ops) == None
  {}

  /** A mesh resynced to an area light at one path: the light is born first, and
      the mesh's going takes the light's mesh and instance with it. The light
      believes it stands; when it goes too, the flush is refused. */
  lemma ResyncAcrossFamiliesTearsDown()
    ensures var x := Step(R.PLAIN, Colored(), OnLight(L.Born(R.PRIM, L.Area(Some(GLOW)))));
      var y := Step(R.PLAIN, x, OnPrims(T.GeometryRemoved(R.PRIM)));
      var z := Step(R.PLAIN, y, OnLight(L.Died(R.PRIM)));
      && T.Mirror(y.prims).Some? && Area(y.lights, R.PRIM)
      && Key(Mesh, R.PRIM) !in T.Mirror(y.prims).value && Key(Instance, R.PRIM) !in T.Mirror(y.prims).value
      && !Accepted(T.Base(z.prims), z.prims.pending)
  {
    var name, ops, put, gone := R.PRIM, R.Colored().pending, L.Triple(R.PRIM, GLOW), L.Withdrawal(R.PRIM, L.SentArea);
    LightIsBorn(name);
    var x := Step(R.PLAIN, Colored(), OnLight(L.Born(name, L.Area(Some(GLOW)))));
    assert T.Base(x.prims) == map[];
    ColoredReplays();
    var mid := TriplePuts(Shown(), name);
    var left := ThreeRemoved(mid, Key(Instance, name), Key(Mesh, name), Key(Material, R.CLASH));
    RemovalRefused(left, gone);
    hide Replay, L.Triple, Step;
    MeshGoes(x);
    LightGoes(Step(R.PLAIN, x, OnPrims(T.GeometryRemoved(name))), name);
    ThreeLists(ops, put, TORN, Shown(), mid);
    ReplaySplits(map[], ops + put + TORN, gone);
  }
}
