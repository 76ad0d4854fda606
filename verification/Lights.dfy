/** Lights on the wire in one of two spellings: a delta light is one object, an
    area light is a mesh, a material and an instance wearing both. A light may
    change its spelling in one flush. */
module Lights {

  import opened Options
  import opened SceneServer

  /** What a prim reads as: nothing there, parked (hidden or instanced), or one of
      the spellings, absent where its transform is degenerate. */
  datatype Reading = NoData | Parked | Delta(payload: Option<int>) | Area(parts: Option<Parts>)

  datatype Parts = Parts(mesh: int, color: int, emission: int, placement: Matrix)

  datatype Spelling = SentNone | SentDelta | SentArea

  // ---------------------------------------------------------------- one light

  datatype Effect = Effect(sent: Spelling, ops: seq<Op>)

  function Withdrawal(name: Path, sent: Spelling): seq<Op> {
    match sent
    case SentNone => []
    case SentDelta => [Remove(Key(Light, name))]
    case SentArea => [Remove(Key(Instance, name)), Remove(Key(Material, name)), Remove(Key(Mesh, name))]
  }

  function MeshOf(p: Parts): Fields { BLANK.(source := Some(p.mesh)) }

  function MaterialOf(p: Parts): Fields { BLANK.(baseColor := Some(p.color), shading := Some(p.emission)) }

  function InstanceOf(name: Path, p: Parts): Fields {
    BLANK.(target := Some(Key(Mesh, name)), material := Some(name), transforms := Some([p.placement]))
  }

  function DeltaOf(payload: int): Fields { BLANK.(source := Some(payload)) }

  function Triple(name: Path, p: Parts): seq<Op> {
    [Patch(Key(Mesh, name), MeshOf(p)), Patch(Key(Material, name), MaterialOf(p)), Patch(Key(Instance, name), InstanceOf(name, p))]
  }

  function Reconciled(name: Path, sent: Spelling, r: Reading, light: bool, visibility: bool, born: bool): Effect {
    if !born && !light && !visibility then Effect(sent, [])
    else
      match r
      case NoData => Effect(SentNone, Withdrawal(name, sent))
      case Parked => Effect(SentNone, Withdrawal(name, sent))
      case Delta(payload) =>
        if !light && sent.SentDelta? then Effect(sent, [])
        else if payload.None? then Effect(SentNone, Withdrawal(name, sent))
        else Effect(SentDelta,
          (if sent.SentArea? then Withdrawal(name, sent) else []) + [Patch(Key(Light, name), DeltaOf(payload.value))])
      case Area(parts) =>
        if !light && sent.SentArea? then Effect(sent, [])
        else if parts.None? then Effect(SentNone, Withdrawal(name, sent))
        else Effect(SentArea, (if sent.SentDelta? then Withdrawal(name, sent) else []) + Triple(name, parts.value))
  }

  function Spelled(r: Reading): Spelling {
    if r.Delta? && r.payload.Some? then SentDelta else if r.Area? && r.parts.Some? then SentArea else SentNone
  }

  /** What a reading comes to on the server. */
  function Translated(name: Path, r: Reading, kind: Kind): Option<Fields> {
    match kind
    case Light => if r.Delta? && r.payload.Some? then Some(BLANK.(source := r.payload)) else None
    case Mesh => if r.Area? && r.parts.Some? then Some(BLANK.(source := Some(r.parts.value.mesh))) else None
    case Material =>
      if r.Area? && r.parts.Some? then Some(BLANK.(baseColor := Some(r.parts.value.color), shading := Some(r.parts.value.emission))) else None
    case Instance =>
      if r.Area? && r.parts.Some? then
        Some(BLANK.(target := Some(Key(Mesh, name)), material := Some(name), transforms := Some([r.parts.value.placement])))
      else None
    case _ => None
  }

  /** The kinds an area light is spelled in; other translators use them too. */
  predicate Borrowed(kind: Kind) { kind == Mesh || kind == Material || kind == Instance }

  /** The server shows the reading. Under a name no area light stands at, the
      borrowed kinds are nobody's business here. */
  ghost predicate Shows(db: Db, name: Path, r: Reading) {
    && Get(db, Key(Light, name)) == Translated(name, r, Light)
    && (Spelled(r).SentArea? ==> forall kind :: Borrowed(kind) ==> Get(db, Key(kind, name)) == Translated(name, r, kind))
  }

  /** Nothing of a borrowed kind stands at this name. */
  ghost predicate Free(db: Db, name: Path) {
    forall kind :: Borrowed(kind) ==> Key(kind, name) !in db
  }

  /** The objects a light may touch, going from one spelling to another. */
  predicate Touches(name: Path, was: Spelling, now: Spelling, key: Key) {
    key.name == name && (key.kind == Light || (Borrowed(key.kind) && (was.SentArea? || now.SentArea?)))
  }

  ghost predicate Beside(before: Db, after: Db, name: Path, was: Spelling, now: Spelling) {
    forall key: Key :: !Touches(name, was, now, key) ==> Alike(before, after, key)
  }

  /** Ops that bring the server from one reading to another. */
  ghost predicate Lands(db: Db, name: Path, was: Reading, r: Reading, ops: seq<Op>) {
    var next := Replay(db, ops);
    && next.Some? && Shows(next.value, name, r) && Beside(db, next.value, name, Spelled(was), Spelled(r))
    && (Spelled(was).SentArea? && !Spelled(r).SentArea? ==> Free(next.value, name))
  }

  lemma ThreeOps(db: Db, a: Op, b: Op, c: Op)
    requires Apply(db, a).Some? && Apply(Apply(db, a).value, b).Some?
    ensures Replay(db, [a, b, c]) == Apply(Apply(Apply(db, a).value, b).value, c)
  {
    var d1 := Apply(db, a).value;
    var d2 := Apply(d1, b).value;
    assert [a, b, c][1..] == [b, c] && [b, c][1..] == [c];
    ReplayOne(d2, c);
    assert Replay(d1, [b, c]) == Replay(d2, [c]);
  }

  lemma Standing(db: Db, name: Path, r: Reading)
    requires Shows(db, name, r) && Spelled(r).SentArea?
    ensures Get(db, Key(Mesh, name)) == Translated(name, r, Mesh)
    ensures Get(db, Key(Material, name)) == Translated(name, r, Material)
    ensures Get(db, Key(Instance, name)) == Translated(name, r, Instance)
  {}

  /** Withdrawing what stands removes just that, every removal accepted. */
  lemma WithdrawalLands(db: Db, name: Path, was: Reading)
    requires Shows(db, name, was)
    ensures Lands(db, name, was, Parked, Withdrawal(name, Spelled(was)))
  {
    match Spelled(was) {
      case SentNone => ReplayNone(db);
      case SentDelta => ReplayOne(db, Remove(Key(Light, name)));
      case SentArea =>
        Standing(db, name, was);
        ThreeOps(db, Remove(Key(Instance, name)), Remove(Key(Material, name)), Remove(Key(Mesh, name)));
    }
  }

  /** Putting the new spelling over nothing, or over its own. */
  lemma DeltaLands(db: Db, name: Path, was: Reading, payload: int)
    requires Shows(db, name, was) && !Spelled(was).SentArea?
    ensures Lands(db, name, was, Delta(Some(payload)), [Patch(Key(Light, name), DeltaOf(payload))])
  {
    ReplayOne(db, Patch(Key(Light, name), DeltaOf(payload)));
  }

  lemma AreaLands(db: Db, name: Path, was: Reading, p: Parts)
    requires Shows(db, name, was) && !Spelled(was).SentDelta?
    requires !Spelled(was).SentArea? ==> Free(db, name)
    ensures Lands(db, name, was, Area(Some(p)), Triple(name, p))
  {
    if Spelled(was).SentArea? { Standing(db, name, was); }
    else { assert Key(Mesh, name) !in db && Key(Material, name) !in db && Key(Instance, name) !in db; }
    ThreeOps(db, Patch(Key(Mesh, name), MeshOf(p)), Patch(Key(Material, name), MaterialOf(p)), Patch(Key(Instance, name), InstanceOf(name, p)));
  }

  /** The dirty flags cover what changed: only hiding and showing may ride the
      visibility lane alone. */
  predicate Covers(was: Reading, r: Reading, light: bool, visibility: bool) {
    && (r.NoData? ==> was.NoData?)
    && (was != r ==> light || (visibility && (was.Parked? || was.NoData? || r.Parked?)))
  }

  /** Readings that come to nothing come to the same. */
  lemma NothingShown(db: Db, name: Path, was: Reading, r: Reading, same: Reading, ops: seq<Op>)
    requires Lands(db, name, was, same, ops) && Spelled(same).SentNone? && Spelled(r).SentNone?
    ensures Lands(db, name, was, r, ops)
  {
    var next := Replay(db, ops).value;
    assert Shows(next, name, r);
    forall key: Key | !Touches(name, Spelled(was), Spelled(r), key) ensures Alike(db, next, key) {
      assert !Touches(name, Spelled(was), Spelled(same), key);
    }
  }

  lemma LandsAfter(db: Db, name: Path, was: Reading, r: Reading, first: seq<Op>, second: seq<Op>)
    requires Lands(db, name, was, Parked, first) && !Spelled(r).SentNone? && Spelled(was) != Spelled(r)
    requires Lands(Replay(db, first).value, name, Parked, r, second)
    ensures Lands(db, name, was, r, first + second)
  {
    ReplaySplits(db, first, second);
    var mid, next := Replay(db, first).value, Replay(db, first + second).value;
    forall key: Key | !Touches(name, Spelled(was), Spelled(r), key) ensures Alike(db, next, key) {
      assert Alike(db, mid, key) && Alike(mid, next, key);
    }
    if Spelled(was).SentArea? && !Spelled(r).SentArea? {
      forall kind | Borrowed(kind) ensures Key(kind, name) !in next { assert Alike(mid, next, Key(kind, name)); }
    }
  }

  lemma StandsAlready(db: Db, name: Path, was: Reading, r: Reading)
    requires Shows(db, name, was) && (was == r || (Spelled(was).SentNone? && Spelled(r).SentNone?))
    ensures Lands(db, name, was, r, [])
  {
    ReplayNone(db);
  }

  /** From what stands for one reading to what stands for the next: every op is
      accepted, a change of spelling among them, and nothing else is touched. An
      area light that was not up needs its name free of others' objects. */
  lemma ReconcileLands(db: Db, name: Path, was: Reading, r: Reading, light: bool, visibility: bool, born: bool)
    requires Shows(db, name, was) && (born ==> light && visibility) && (born || Covers(was, r, light, visibility))
    requires Spelled(r).SentArea? && !Spelled(was).SentArea? ==> Free(db, name)
    ensures var e := Reconciled(name, Spelled(was), r, light, visibility, born);
      e.sent == Spelled(r) && Lands(db, name, was, r, e.ops)
  {
    var e := Reconciled(name, Spelled(was), r, light, visibility, born);
    var first := Withdrawal(name, Spelled(was));
    WithdrawalLands(db, name, was);
    if Spelled(r).SentArea? && Spelled(was).SentDelta? { StillFree(db, name, was, first); }
    hide Replay, Lands, Shows, Triple, Free;
    if e.ops == [] {
      StandsAlready(db, name, was, r);
    } else if Spelled(r).SentNone? {
      NothingShown(db, name, was, r, Parked, first);
    } else if r.Delta? {
      var put := [Patch(Key(Light, name), DeltaOf(r.payload.value))];
      assert [] + put == put;
      if Spelled(was).SentArea? {
        Cleared(db, name, was, first);
        DeltaLands(Replay(db, first).value, name, Parked, r.payload.value);
        LandsAfter(db, name, was, r, first, put);
      } else {
        DeltaLands(db, name, was, r.payload.value);
      }
    } else {
      var put := Triple(name, r.parts.value);
      assert [] + put == put;
      if Spelled(was).SentDelta? {
        Cleared(db, name, was, first);
        AreaLands(Replay(db, first).value, name, Parked, r.parts.value);
        LandsAfter(db, name, was, r, first, put);
      } else {
        AreaLands(db, name, was, r.parts.value);
      }
    }
  }

  lemma Cleared(db: Db, name: Path, was: Reading, ops: seq<Op>)
    requires Lands(db, name, was, Parked, ops)
    ensures Replay(db, ops).Some? && Shows(Replay(db, ops).value, name, Parked)
  {}

  lemma StillFree(db: Db, name: Path, was: Reading, ops: seq<Op>)
    requires Lands(db, name, was, Parked, ops) && Spelled(was).SentDelta? && Free(db, name)
    ensures Free(Replay(db, ops).value, name)
  {
    var next := Replay(db, ops).value;
    forall kind | Borrowed(kind) ensures Key(kind, name) !in next {
      assert !Touches(name, Spelled(was), Spelled(Parked), Key(kind, name));
      assert Alike(db, next, Key(kind, name));
    }
  }

  // ---------------------------------------------------------------- every light

  datatype Event =
    | Born(path: Path, reading: Reading)
    | Dirty(path: Path, reading: Reading, light: bool, visibility: bool)
    | Died(path: Path)

  /** Each light's translator: its spelling, and what it last acted on. */
  datatype World = World(lights: map<Path, Spelling>, scene: map<Path, Reading>)

  function Sent(w: World, path: Path): Spelling { if path in w.lights then w.lights[path] else SentNone }

  function ReadingOf(w: World, path: Path): Reading { if path in w.scene then w.scene[path] else NoData }

  /** A resync inherits what stands; a prim that lost its data sheds it at birth,
      and is left alone when merely dirtied. */
  function Move(w: World, e: Event): Effect {
    match e
    case Born(path, r) => Reconciled(path, Sent(w, path), r, true, true, true)
    case Dirty(path, r, light, visibility) =>
      if path !in w.lights || r.NoData? then Effect(Sent(w, path), [])
      else Reconciled(path, Sent(w, path), r, light, visibility, false)
    case Died(path) => Effect(SentNone, Withdrawal(path, Sent(w, path)))
  }

  function Step(w: World, e: Event): World {
    match e
    case Born(path, r) => World(w.lights[path := Move(w, e).sent], w.scene[path := r])
    case Dirty(path, r, _, _) =>
      if path !in w.lights || r.NoData? then w else World(w.lights[path := Move(w, e).sent], w.scene[path := r])
    case Died(path) => World(w.lights - {path}, w.scene - {path})
  }

  predicate Legal(w: World, e: Event) {
    e.Dirty? && !e.reading.NoData? && e.path in w.lights && e.path in w.scene ==> Covers(w.scene[e.path], e.reading, e.light, e.visibility)
  }

  /** Every light's objects stand on the server, and no other delta light. */
  ghost predicate Mirrors(db: Db, w: World) {
    && w.lights.Keys == w.scene.Keys
    && (forall path :: path in w.lights ==> w.lights[path] == Spelled(w.scene[path]))
    && forall path :: Shows(db, path, ReadingOf(w, path))
  }

  /** Becoming an area light takes a name none of whose borrowed kinds is in use. */
  ghost predicate Room(db: Db, w: World, e: Event) {
    Sent(Step(w, e), e.path).SentArea? && !Sent(w, e.path).SentArea? ==> Free(db, e.path)
  }

  lemma MirrorsBut(db: Db, next: Db, w: World, x: World, path: Path)
    requires Mirrors(db, w) && Landed(db, next, path, ReadingOf(w, path), ReadingOf(x, path))
    requires x.lights.Keys == x.scene.Keys && (path in x.lights ==> x.lights[path] == Spelled(x.scene[path]))
    requires forall p :: p != path ==> (p in x.lights <==> p in w.lights) && Sent(x, p) == Sent(w, p) && ReadingOf(x, p) == ReadingOf(w, p)
    ensures Mirrors(next, x)
  {
    forall p ensures Shows(next, p, ReadingOf(x, p)) {
      if p != path {
        assert Shows(db, p, ReadingOf(w, p));
        assert Alike(db, next, Key(Light, p));
        forall kind | Borrowed(kind) ensures Alike(db, next, Key(kind, p)) {}
      }
    }
    forall p | p in x.lights ensures x.lights[p] == Spelled(x.scene[p]) {
      if p != path { assert w.lights[p] == Sent(w, p) && w.scene[p] == ReadingOf(w, p) && x.scene[p] == ReadingOf(x, p); }
    }
  }

  ghost predicate Landed(db: Db, next: Db, path: Path, was: Reading, r: Reading) {
    Shows(next, path, r) && Beside(db, next, path, Spelled(was), Spelled(r))
  }

  /** One notice, whatever else the server holds: its ops are accepted, every
      light then stands as it reads, and no other translator's object moved. */
  lemma EventLands(db: Db, w: World, e: Event)
    requires Mirrors(db, w) && Legal(w, e) && Room(db, w, e)
    ensures var ops, x := Move(w, e).ops, Step(w, e);
      && Replay(db, ops).Some? && Mirrors(Replay(db, ops).value, x)
      && Beside(db, Replay(db, ops).value, e.path, Sent(w, e.path), Sent(x, e.path))
      && (Sent(w, e.path).SentArea? && !Sent(x, e.path).SentArea? ==> Free(Replay(db, ops).value, e.path))
  {
    var path, was, x := e.path, ReadingOf(w, e.path), Step(w, e);
    assert Shows(db, path, was) && Sent(w, path) == Spelled(was);
    assert path in w.lights ==> path in w.scene;
    if e.Dirty? && (path !in w.lights || e.reading.NoData?) {
      StandsAlready(db, path, was, was);
    } else if e.Died? {
      WithdrawalLands(db, path, was);
      NothingShown(db, path, was, NoData, Parked, Withdrawal(path, Spelled(was)));
    } else {
      ReconcileLands(db, path, was, e.reading, e.Born? || e.light, e.Born? || e.visibility, e.Born?);
    }
    assert Lands(db, path, was, ReadingOf(x, path), Move(w, e).ops);
    hide Replay, Reconciled, Shows, Withdrawal;
    assert Sent(x, path) == Spelled(ReadingOf(x, path));
    MirrorsBut(db, Replay(db, Move(w, e).ops).value, w, x, path);
  }

  // ---------------------------------------------------------------- the translator itself

  class LightPrim {
    const name: Path
    const pending: ChangeSet
    var sent: Spelling

    /** A birth; a resync passes what the previous translator left standing. */
    constructor (name: Path, pending: ChangeSet, inherited: Spelling, r: Reading)
      modifies pending
      ensures this.name == name && this.pending == pending
      ensures var e := Reconciled(name, inherited, r, true, true, true);
        sent == e.sent && pending.ops == old(pending.ops) + e.ops
    {
      this.name, this.pending, sent := name, pending, inherited;
      new;
      if r.NoData? { Withdraw(); } else { Reconcile(r, true, true, true); }
    }

    /** Remove what stands, the instance before what it wears. */
    method Withdraw()
      modifies this, pending
      ensures sent == SentNone && pending.ops == old(pending.ops) + Withdrawal(name, old(sent))
    {
      match sent {
        case SentNone => return;
        case SentDelta => pending.PushBack(Remove(Key(Light, name)));
        case SentArea =>
          pending.PushBack(Remove(Key(Instance, name)));
          pending.PushBack(Remove(Key(Material, name)));
          pending.PushBack(Remove(Key(Mesh, name)));
      }
      sent := SentNone;
    }

    method Reconcile(r: Reading, light: bool, visibility: bool, born: bool)
      modifies this, pending
      ensures var e := Reconciled(name, old(sent), r, light, visibility, born);
        sent == e.sent && pending.ops == old(pending.ops) + e.ops
    {
      if !born && !light && !visibility { return; }
      if r.NoData? || r.Parked? {
        Withdraw();
        return;
      }
      var spelling := if r.Delta? then SentDelta else SentArea;
      if !light && sent == spelling { return; }
      if r.Delta? {
        if r.payload.None? {
          Withdraw();
          return;
        }
        if sent == SentArea { Withdraw(); }
        pending.PushBack(Patch(Key(Light, name), DeltaOf(r.payload.value)));
        sent := SentDelta;
        return;
      }
      if r.parts.None? {
        Withdraw();
        return;
      }
      if sent == SentDelta { Withdraw(); }
      pending.PushBack(Patch(Key(Mesh, name), MeshOf(r.parts.value)));
      pending.PushBack(Patch(Key(Material, name), MaterialOf(r.parts.value)));
      pending.PushBack(Patch(Key(Instance, name), InstanceOf(name, r.parts.value)));
      sent := SentArea;
    }
  }
}
