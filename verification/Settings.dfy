/** Render settings from two sources: the host's map, and the one active settings
    prim, which holds a shared slot. The slot follows the scene, and after every
    flush the server holds the prim's answers over the map's. */
module Settings {

  import opened Options
  import opened SceneServer

  // ---------------------------------------------------------------- the slot

  /** Who holds the slot, what it resolved to, and how often it moved. */
  datatype Slot<I> = Slot(owner: Option<I>, resolved: Budget, version: nat)

  function Claimed<I>(slot: Slot<I>, id: I, resolved: Budget): Slot<I> {
    Slot(Some(id), resolved, slot.version + 1)
  }

  /** Only the holder lets go. */
  function Released<I(==)>(slot: Slot<I>, id: I): Slot<I> {
    if slot.owner != Some(id) then slot else Slot(None, UNSET, slot.version + 1)
  }

  /** A prim reads itself again: active, it claims; otherwise it lets go. */
  function Refreshed<I(==)>(slot: Slot<I>, id: I, answer: Option<Budget>): Slot<I> {
    if answer.None? then Released(slot, id) else Claimed(slot, id, answer.value)
  }

  class Active {
    var owner: SettingsPrim?
    var resolved: Budget
    var version: nat

    constructor ()
      ensures View() == Slot(None, UNSET, 0)
    {
      owner, resolved, version := null, UNSET, 0;
    }

    function View(): Slot<SettingsPrim>
      reads this
    {
      Slot(if owner == null then None else Some(owner as SettingsPrim), resolved, version)
    }
  }

  class SettingsPrim {
    const active: Active

    /** Construction reads the prim at once; a resync's successor does so before
        the one it replaces is destroyed. */
    constructor (active: Active, answer: Option<Budget>)
      modifies active
      ensures this.active == active
      ensures active.View() == Refreshed(old(active.View()), this, answer)
    {
      this.active := active;
      new;
      Refresh(answer);
    }

    method Claim(resolved: Budget)
      modifies active
      ensures active.View() == Claimed(old(active.View()), this, resolved)
    {
      active.owner := this;
      active.resolved := resolved;
      active.version := active.version + 1;
    }

    /** Also what destruction does. */
    method Release()
      modifies active
      ensures active.View() == Released(old(active.View()), this)
    {
      if active.owner != this { return; }
      active.owner := null;
      active.resolved := UNSET;
      active.version := active.version + 1;
    }

    method Refresh(answer: Option<Budget>)
      modifies active
      ensures active.View() == Refreshed(old(active.View()), this, answer)
    {
      if answer.None? {
        Release();
        return;
      }
      Claim(answer.value);
    }
  }

  // ---------------------------------------------------------------- the slot follows the scene

  type Id = nat

  /** Every settings prim and what it resolves to, if it is the active one. */
  type Scene = map<Path, Option<Budget>>

  /** At most one prim is active. */
  ghost predicate OneActive(scene: Scene) {
    forall p, q :: p in scene && q in scene && scene[p].Some? && scene[q].Some? ==> p == q
  }

  /** The translators alive, which of them answers for each path, and the slot. */
  datatype Stage = Stage(scene: Scene, prims: map<Id, Path>, current: map<Path, Id>, slot: Slot<Id>)

  datatype Event =
    | SceneBecomes(scene: Scene)
    | Born(id: Id, path: Path)
    | Dirtied(path: Path)
    | Died(id: Id)

  function Answer(scene: Scene, path: Path): Option<Budget> { if path in scene then scene[path] else None }

  function Step(s: Stage, e: Event): Stage {
    match e
    case SceneBecomes(scene) => s.(scene := scene)
    case Born(id, path) =>
      s.(prims := s.prims[id := path], current := s.current[path := id], slot := Refreshed(s.slot, id, Answer(s.scene, path)))
    case Dirtied(path) =>
      if path in s.current then s.(slot := Refreshed(s.slot, s.current[path], Answer(s.scene, path))) else s
    case Died(id) =>
      var slot := Released(s.slot, id);
      if id !in s.prims then s
      else if s.prims[id] in s.current && s.current[s.prims[id]] == id then
        s.(prims := s.prims - {id}, current := s.current - {s.prims[id]}, slot := slot)
      else s.(prims := s.prims - {id}, slot := slot)
  }

  /** A notice the scene has sent and no translator has yet acted on. */
  type Owed = iset<Path>

  ghost function Owing(s: Stage, owed: Owed, e: Event): Owed {
    match e
    case SceneBecomes(scene) => owed + iset p | Answer(s.scene, p) != Answer(scene, p)
    case Born(_, path) => owed - iset{path}
    case Dirtied(path) => if path in s.current then owed - iset{path} else owed
    case Died(_) => owed
  }

  /** Identities are fresh, and the scene never has two active prims. */
  ghost predicate Legal(s: Stage, e: Event) {
    match e
    case SceneBecomes(scene) => OneActive(scene)
    case Born(id, path) => id !in s.prims && s.slot.owner != Some(id)
    case Dirtied(_) => true
    case Died(_) => true
  }

  /** Who answers for a path is alive and stands at it. */
  ghost predicate Answering(s: Stage) {
    forall p :: p in s.current ==> s.current[p] in s.prims && s.prims[s.current[p]] == p
  }

  ghost predicate SlotInv(s: Stage, owed: Owed) {
    && OneActive(s.scene) && Answering(s)
    && (s.slot.owner.None? ==> s.slot.resolved == UNSET)
    && (s.slot.owner.Some? ==> s.slot.owner.value in s.prims)
    && (s.slot.owner.Some? ==>
          var p := s.prims[s.slot.owner.value];
          p in s.current && s.current[p] == s.slot.owner.value && p !in owed ==> Answer(s.scene, p) == Some(s.slot.resolved))
    && (forall p :: p in s.current && p !in owed && Answer(s.scene, p).Some? ==> s.slot.owner == Some(s.current[p]))
  }

  lemma EventKeeps(s: Stage, owed: Owed, e: Event)
    requires SlotInv(s, owed) && Legal(s, e)
    ensures SlotInv(Step(s, e), Owing(s, owed, e))
  {
  }

  function After(s: Stage, events: seq<Event>): Stage
    decreases |events|
  {
    if events == [] then s else After(Step(s, events[0]), events[1..])
  }

  ghost function OwedAfter(s: Stage, owed: Owed, events: seq<Event>): Owed
    decreases |events|
  {
    if events == [] then owed else OwedAfter(Step(s, events[0]), Owing(s, owed, events[0]), events[1..])
  }

  ghost predicate LegalRun(s: Stage, events: seq<Event>)
    decreases |events|
  {
    events == [] || (Legal(s, events[0]) && LegalRun(Step(s, events[0]), events[1..]))
  }

  lemma {:induction false} RunKeeps(s: Stage, owed: Owed, events: seq<Event>)
    requires SlotInv(s, owed) && LegalRun(s, events)
    ensures SlotInv(After(s, events), OwedAfter(s, owed, events))
    decreases |events|
  {
    if events != [] {
      hide SlotInv, Step, Owing, Legal;
      EventKeeps(s, owed, events[0]);
      RunKeeps(Step(s, events[0]), Owing(s, owed, events[0]), events[1..]);
    }
  }

  /** Every prim of the scene has its one translator, and nothing is owed. */
  ghost predicate Settled(s: Stage, owed: Owed) {
    && owed == iset{}
    && (forall id :: id in s.prims ==> s.prims[id] in s.current && s.current[s.prims[id]] == id)
    && s.current.Keys == s.scene.Keys
  }

  const START := Stage(map[], map[], map[], Slot(None, UNSET, 0))

  /** In whatever order claims, releases and resyncs came, once every notice is
      delivered the slot holds the active prim's resolution, or nothing. */
  lemma SlotFollowsScene(events: seq<Event>)
    requires LegalRun(START, events) && Settled(After(START, events), OwedAfter(START, iset{}, events))
    ensures var s := After(START, events);
      && (forall p :: p in s.scene && s.scene[p].Some? ==> s.slot.owner == Some(s.current[p]) && s.slot.resolved == s.scene[p].value)
      && ((forall p :: p in s.scene ==> s.scene[p].None?) ==> s.slot.owner == None && s.slot.resolved == UNSET)
  {
    RunKeeps(START, iset{}, events);
    var s := After(START, events);
    forall p | p in s.scene && s.scene[p].Some?
      ensures s.slot.owner == Some(s.current[p]) && s.slot.resolved == s.scene[p].value
    {
      assert Answer(s.scene, p) == s.scene[p] && p in s.current;
      assert s.prims[s.current[p]] == p;
    }
    if s.slot.owner.Some? {
      assert Answer(s.scene, s.prims[s.slot.owner.value]) == Some(s.slot.resolved);
    }
  }

  // ---------------------------------------------------------------- what the server holds

  /** The delegate: the host's map as it resolves, both versions seen and sent,
      the settings ops not yet sent, and the server's settings. */
  datatype Delegate = Delegate(
    session: Budget, mapVersion: nat, slot: Budget, slotVersion: nat, mapSent: nat, slotSent: nat,
    pending: seq<Budget>, genesisSent: bool, server: Budget)

  function Merged(server: Budget, pending: seq<Budget>): Budget {
    if pending == [] then server else Overlay(Merged(server, pending[..|pending| - 1]), pending[|pending| - 1])
  }

  /** What the server will hold once everything pending has landed. */
  function Held(d: Delegate): Budget { Merged(if d.genesisSent then d.server else UNSET, d.pending) }

  /** Queue a settings op when either source moved since the last one. */
  function Queued(d: Delegate): Delegate {
    if d.mapVersion == d.mapSent && d.slotVersion == d.slotSent then d
    else d.(mapSent := d.mapVersion, slotSent := d.slotVersion, pending := d.pending + [Overlay(d.session, d.slot)])
  }

  /** One live update: the first flush replaces the scene, later ones overlay it. */
  function Updated(d: Delegate, accepted: bool): Delegate {
    var q := Queued(d);
    if !accepted then q
    else q.(genesisSent := true, pending := [], server := Merged(if q.genesisSent then q.server else UNSET, q.pending))
  }

  datatype Move = MapSet(resolved: Budget) | SlotMoves(resolved: Budget) | Update(accepted: bool)

  /** Each source bumps its version when it moves. */
  function Moved(d: Delegate, m: Move): Delegate {
    match m
    case MapSet(resolved) => d.(session := resolved, mapVersion := d.mapVersion + 1)
    case SlotMoves(resolved) => d.(slot := resolved, slotVersion := d.slotVersion + 1)
    case Update(accepted) => Updated(d, accepted)
  }

  function MovedAll(d: Delegate, moves: seq<Move>): Delegate
    decreases |moves|
  {
    if moves == [] then d else MovedAll(Moved(d, moves[0]), moves[1..])
  }

  /** Every field the overlay answers reads as it does. */
  predicate Shows(server: Budget, overlay: Budget) {
    && (overlay.spp.Some? ==> server.spp == overlay.spp)
    && (overlay.noiseThreshold.Some? ==> server.noiseThreshold == overlay.noiseThreshold)
    && (overlay.maxBounces.Some? ==> server.maxBounces == overlay.maxBounces)
    && (overlay.denoise.Some? ==> server.denoise == overlay.denoise)
    && (overlay.seed.Some? ==> server.seed == overlay.seed)
  }

  /** What is marked sent is on the server or on its way. */
  ghost predicate SentInv(d: Delegate) {
    && d.mapSent <= d.mapVersion && d.slotSent <= d.slotVersion
    && (d.mapVersion == d.mapSent && d.slotVersion == d.slotSent ==>
          Shows(Held(d), Overlay(d.session, d.slot)))
  }

  lemma MergedLast(server: Budget, pending: seq<Budget>, last: Budget)
    ensures Merged(server, pending + [last]) == Overlay(Merged(server, pending), last)
  {
    assert (pending + [last])[..|pending|] == pending;
  }

  lemma MoveKeeps(d: Delegate, m: Move)
    requires SentInv(d)
    ensures SentInv(Moved(d, m))
    ensures m.Update? && m.accepted ==> Shows(Moved(d, m).server, Overlay(d.session, d.slot))
  {
    MergedLast(if d.genesisSent then d.server else UNSET, d.pending, Overlay(d.session, d.slot));
  }

  /** A delegate before its first update: the host's version starts past what is
      marked sent, so the settings ride the first flush. */
  function Fresh(resolved: Budget): Delegate { Delegate(resolved, 1, UNSET, 0, 0, 0, [], false, UNSET) }

  lemma {:induction false} MovesKeep(d: Delegate, moves: seq<Move>)
    requires SentInv(d)
    ensures SentInv(MovedAll(d, moves))
    decreases |moves|
  {
    if moves != [] {
      MoveKeeps(d, moves[0]);
      MovesKeep(Moved(d, moves[0]), moves[1..]);
    }
  }

  /** The map answers every setting a prim can. */
  predicate Answers(resolved: Budget) {
    resolved.spp.Some? && resolved.noiseThreshold.Some? && resolved.maxBounces.Some? && resolved.denoise.Some?
  }

  /** After every accepted update the server reads as the prim over the map, in
      every field either answers. When the map answers them all, that is the
      whole of it: nothing of a departed prim survives. */
  lemma ServerIsTheOverlay(resolved: Budget, moves: seq<Move>)
    ensures var d := MovedAll(Fresh(resolved), moves);
      var server := Updated(d, true).server;
      && Shows(server, Overlay(d.session, d.slot))
      && (Answers(d.session) ==>
            && server.spp == Over(d.session.spp, d.slot.spp) && server.noiseThreshold == Over(d.session.noiseThreshold, d.slot.noiseThreshold)
            && server.maxBounces == Over(d.session.maxBounces, d.slot.maxBounces) && server.denoise == Over(d.session.denoise, d.slot.denoise))
  {
    MovesKeep(Fresh(resolved), moves);
    MoveKeeps(MovedAll(Fresh(resolved), moves), Update(true));
  }

  datatype Field = Spp | NoiseThreshold | MaxBounces | Denoise

  function At(b: Budget, f: Field): Option<int> {
    match f
    case Spp => b.spp
    case NoiseThreshold => b.noiseThreshold
    case MaxBounces => b.maxBounces
    case Denoise => b.denoise
  }

  /** A field neither source answers keeps whatever was there, on the server or
      on its way. */
  lemma UnansweredStays(d: Delegate, f: Field)
    requires At(Overlay(d.session, d.slot), f).None?
    ensures At(Updated(d, true).server, f) == At(Held(d), f)
  {
    MergedLast(if d.genesisSent then d.server else UNSET, d.pending, Overlay(d.session, d.slot));
  }

  lemma MapReturns(d: Delegate, f: Field)
    requires SentInv(d) && At(d.slot, f).None?
    ensures At(Updated(d, true).server, f) == if At(d.session, f).Some? then At(d.session, f) else At(Held(d), f)
  {
    assert At(Overlay(d.session, d.slot), f) == At(d.session, f);
    if At(d.session, f).Some? { MoveKeeps(d, Update(true)); } else { UnansweredStays(d, f); }
  }

  /** Over every run: when no prim answers a field any more, the map is back in
      authority over it after the next accepted update exactly if the map answers
      it, or what a departed prim left there agrees with the map already. */
  lemma DepartureReturnsExactly(resolved: Budget, moves: seq<Move>, f: Field)
    ensures var d := MovedAll(Fresh(resolved), moves);
      At(d.slot, f).None? ==>
        (At(Updated(d, true).server, f) == At(d.session, f) <==> At(d.session, f).Some? || At(Held(d), f) == At(d.session, f))
  {
    var d := MovedAll(Fresh(resolved), moves);
    MovesKeep(Fresh(resolved), moves);
    if At(d.slot, f).None? { MapReturns(d, f); }
  }

  /** So a map that answers nothing lets a departed prim's budget survive it. */
  lemma DepartedBudgetSurvives(n: int)
    ensures var prim := UNSET.(spp := Some(n));
      var d := MovedAll(Fresh(UNSET), [SlotMoves(prim), Update(true), SlotMoves(UNSET), Update(true)]);
      d.server.spp == Some(n) && Overlay(d.session, d.slot) == UNSET
  {
    var prim := UNSET.(spp := Some(n));
    var moves := [SlotMoves(prim), Update(true), SlotMoves(UNSET), Update(true)];
    var d2 := Moved(Moved(Fresh(UNSET), moves[0]), moves[1]);
    MergedLast(UNSET, [], prim);
    assert [] + [prim] == [prim];
    var d3 := Moved(d2, moves[2]);
    UnansweredStays(d3, Spp);
    FourMoves(Fresh(UNSET), moves);
  }

  lemma FourMoves(d: Delegate, moves: seq<Move>)
    requires |moves| == 4
    ensures MovedAll(d, moves) == Moved(Moved(Moved(Moved(d, moves[0]), moves[1]), moves[2]), moves[3])
  {
    var d1 := Moved(d, moves[0]);
    var d2 := Moved(d1, moves[1]);
    var d3 := Moved(d2, moves[2]);
    assert MovedAll(d3, moves[1..][1..][1..]) == MovedAll(Moved(d3, moves[3]), moves[1..][1..][1..][1..]);
    assert MovedAll(d2, moves[1..][1..]) == MovedAll(d3, moves[1..][1..][1..]);
  }

  /** The delegate's own fields. */
  class RenderDelegate {
    const active: Active
    var session: Budget
    var mapVersion: nat
    var mapSent: nat
    var slotSent: nat
    var pending: seq<Budget>
    var genesisSent: bool
    /** What the server has merged, kept for the proof alone. */
    ghost var server: Budget

    constructor (active: Active, session: Budget)
      requires active.View() == Slot(None, UNSET, 0)
      ensures this.active == active && View() == Fresh(session)
    {
      this.active, this.session := active, session;
      mapVersion, mapSent, slotSent, pending, genesisSent, server := 1, 0, 0, [], false, UNSET;
    }

    ghost function View(): Delegate
      reads this, active
    {
      Delegate(session, mapVersion, active.resolved, active.version, mapSent, slotSent, pending, genesisSent, server)
    }

    method UpdateSettings()
      modifies this
      ensures View() == Queued(old(View()))
    {
      if mapVersion == mapSent && active.version == slotSent { return; }
      mapSent, slotSent := mapVersion, active.version;
      pending := pending + [Overlay(session, active.resolved)];
    }

    /** Flush; `alive` and `accepted` are what the client answers. A degraded
        client drops what is pending and marks nothing sent. */
    method Update(alive: bool, accepted: bool)
      modifies this
      ensures View() == if alive then Updated(old(View()), accepted) else old(View()).(pending := [])
    {
      if !alive {
        pending := [];
        return;
      }
      UpdateSettings();
      if !genesisSent {
        if accepted {
          server := Merged(UNSET, pending);
          genesisSent, pending := true, [];
        }
        return;
      }
      if pending == [] { return; }
      if accepted {
        server := Merged(server, pending);
        pending := [];
      }
    }
  }
}
