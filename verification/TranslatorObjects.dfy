/** The translators as objects: fields changed in place, one shared list of
    pending ops, registries that hand the same object to everyone. Every
    method is tied to the step function of the same name. */
module TranslatorObjects {
  import opened Options
  import opened SceneServer
  import opened Instancing
  import opened Geometry
  import T = Translators

  /** One geometry translator. What it asks of the other registries arrives
      as the answers they would give. */
  class GeometryPrim {
    const name: Path
    const curves: bool
    const pending: ChangeSet
    var payload: Option<Kind>
    var instanceLive: bool
    var binding: Path
    var wearsBinding: bool
    var visible: bool
    var protoXform: Matrix
    var instancedBy: seq<Copier>

    function Standing(): Ledger
      reads this
    {
      Ledger(payload, instanceLive, binding, wearsBinding, visible, protoXform, instancedBy)
    }

    /** A birth, or a resync that inherits the previous translator's ledger. */
    constructor (k: Calculus, name: Path, curves: bool, previous: Option<GeometryPrim>, prim: Option<Prim>, near: Registries, pending: ChangeSet,
        ghost l: Ledger, ghost rank: map<Path, nat>)
      requires Ranked(near.copiers, rank)
      requires l == Inherited(k, if previous.None? then None else Some(previous.value.Standing()))
      modifies pending
      ensures this.name == name && this.curves == curves && this.pending == pending
      ensures Standing() == AddEffect(k, near, name, curves, prim, l).ledger
      ensures pending.ops == old(pending.ops) + AddEffect(k, near, name, curves, prim, l).ops
    {
      this.name, this.curves, this.pending := name, curves, pending;
      payload, instanceLive, binding, wearsBinding := None, false, EmptyPath, false;
      visible, protoXform, instancedBy := true, k.identity, [];
      if previous.Some? {
        payload, instanceLive := previous.value.payload, previous.value.instanceLive;
        binding, wearsBinding := previous.value.binding, previous.value.wearsBinding;
      }
      new;
      if prim.None? {
        WithdrawAll();
      } else {
        Bring(k, near, prim.value, EVERYTHING, rank);
      }
    }

    method DropInstance()
      modifies this`instanceLive, pending
      ensures var e := WithdrawInstance(name, old(Standing())); Standing() == e.ledger && pending.ops == old(pending.ops) + e.ops
    {
      if instanceLive {
        pending.PushBack(Remove(Key(Instance, name)));
        instanceLive := false;
      }
    }

    method WithdrawAll()
      modifies this`instanceLive, this`payload, pending
      ensures var e := Withdraw(name, old(Standing())); Standing() == e.ledger && pending.ops == old(pending.ops) + e.ops
    {
      DropInstance();
      if payload.Some? {
        pending.PushBack(Remove(Key(payload.value, name)));
        pending.PushBack(Remove(Key(Material, Companion(name))));
        payload := None;
      }
    }

    method ComposePlacements(k: Calculus, copiers: Copiers, ghost rank: map<Path, nat>) returns (r: Option<seq<Matrix>>)
      requires Ranked(copiers, rank)
      ensures r == Geometry.ComposePlacements(k, copiers, Standing())
    {
      if !visible { return None; }
      if instancedBy == [] {
        var lone := k.wire(protoXform);
        return if lone.None? then None else Some([lone.value]);
      }
      r := Gather(k, copiers, protoXform, instancedBy, rank);
    }

    /** (Re)places the instance from the cached inputs. */
    method Put(k: Calculus, near: Registries, ghost rank: map<Path, nat>)
      requires Ranked(near.copiers, rank)
      modifies this`instanceLive, this`wearsBinding, pending
      ensures var e := Place(k, near, name, curves, old(Standing())); Standing() == e.ledger && pending.ops == old(pending.ops) + e.ops
    {
      var placements := ComposePlacements(k, near.copiers, rank);
      if placements.None? {
        DropInstance();
      } else if !instanceLive {
        wearsBinding := Bindable(near, binding);
        pending.PushBack(Patch(Key(Instance, name), BLANK.(
          target := Some(Key(KindOf(curves), name)),
          material := Some(if wearsBinding then binding else Companion(name)),
          transforms := placements)));
        instanceLive := true;
      } else {
        pending.PushBack(Patch(Key(Instance, name), BLANK.(transforms := placements)));
      }
    }

    method Repoint(near: Registries)
      modifies this`wearsBinding, pending
      ensures var e := ResolveBinding(near, name, old(Standing())); Standing() == e.ledger && pending.ops == old(pending.ops) + e.ops
    {
      if !instanceLive { return; }
      var bindable := Bindable(near, binding);
      if bindable == wearsBinding { return; }
      pending.PushBack(Patch(Key(Instance, name), BLANK.(material := Some(if bindable then binding else Companion(name)))));
      wearsBinding := bindable;
    }

    method Recompose(k: Calculus, near: Registries, ghost rank: map<Path, nat>)
      requires Ranked(near.copiers, rank)
      modifies this`instanceLive, this`wearsBinding, pending
      ensures var e := RecomposeInstancing(k, near, name, curves, old(Standing())); Standing() == e.ledger && pending.ops == old(pending.ops) + e.ops
    {
      if instancedBy == [] || payload.None? { return; }
      Put(k, near, rank);
    }

    /** A payload of the other kind goes first. */
    method ClearOther()
      modifies this`instanceLive, this`payload, pending
      ensures var e := Cleared(name, curves, old(Standing())); Standing() == e.ledger && pending.ops == old(pending.ops) + e.ops
    {
      if payload.Some? && payload.value != KindOf(curves) { WithdrawAll(); }
    }

    /** Publish what was read, or withdraw. */
    method Fill(prim: Prim)
      modifies this`instanceLive, this`payload, pending
      ensures var e := Filled(name, curves, prim, old(Standing())); Standing() == e.ledger && pending.ops == old(pending.ops) + e.ops
    {
      var source := Read(curves, prim);
      if source.None? {
        WithdrawAll();
        return;
      }
      pending.PushBack(SourcePatch(name, curves, source.value));
      if payload.None? {
        pending.PushBack(ColorPatch(name, prim));
        payload := Some(KindOf(curves));
      }
    }

    /** The geometry lane; the answer is whether the payload was born here. */
    method PutPayload(prim: Prim) returns (born: bool)
      modifies this`instanceLive, this`payload, pending
      ensures var e := PublishPayload(name, curves, prim, old(Standing())); Standing() == e.ledger && pending.ops == old(pending.ops) + e.ops
      ensures born == Born(name, curves, prim, old(Standing()))
    {
      born := Read(curves, prim).Some? && (payload.None? || payload.value != KindOf(curves));
      ghost var l, ops := Standing(), pending.ops;
      hide Cleared, Filled;
      ClearOther();
      Fill(prim);
      LanesJoin(ops, Cleared(name, curves, l), Filled(name, curves, prim, Cleared(name, curves, l).ledger));
    }

    /** Brings the server-side objects in line with the prim, touching only
        what `dirt` marks. */
    method Bring(k: Calculus, near: Registries, prim: Prim, dirt: Dirt, ghost rank: map<Path, nat>)
      requires Ranked(near.copiers, rank)
      modifies this, pending
      ensures var e := Reconcile(k, near, name, curves, prim, dirt, old(Standing())); Standing() == e.ledger && pending.ops == old(pending.ops) + e.ops
    {
      ghost var l, ops := Standing(), pending.ops;
      var born := PutGeometry(prim, dirt);
      ghost var published := if dirt.geometry then PublishPayload(name, curves, prim, l) else Idle(l);
      if payload.None? { return; }
      Dress(k, near, prim, dirt, born, rank);
      ghost var next := DressAndPlace(k, near, name, curves, prim, dirt, born, published.ledger);
      LanesJoin(ops, published, next);
    }

    lemma LanesJoin(ops: seq<Op>, a: Effect, b: Effect)
      ensures (ops + a.ops) + b.ops == ops + Followed(a, b).ops
    {}

    method PutGeometry(prim: Prim, dirt: Dirt) returns (born: bool)
      modifies this`instanceLive, this`payload, pending
      ensures var e := if dirt.geometry then PublishPayload(name, curves, prim, old(Standing())) else Idle(old(Standing()));
        Standing() == e.ledger && pending.ops == old(pending.ops) + e.ops
      ensures born == (dirt.geometry && Born(name, curves, prim, old(Standing())))
    {
      born := false;
      if dirt.geometry { born := PutPayload(prim); }
    }

    method Tint(prim: Prim, dirt: Dirt, born: bool)
      modifies this`binding, pending
      ensures var e := ColorAndBind(name, prim, dirt, born, old(Standing())); Standing() == e.ledger && pending.ops == old(pending.ops) + e.ops
    {
      if dirt.color && !born { pending.PushBack(ColorPatch(name, prim)); }
      if born || dirt.binding {
        if prim.binding != binding { binding := prim.binding; }
      }
    }

    method PutAgain(k: Calculus, near: Registries, prim: Prim, ghost rank: map<Path, nat>)
      requires Ranked(near.copiers, rank)
      modifies this, pending
      ensures var e := PlaceAgain(k, near, name, curves, prim, old(Standing())); Standing() == e.ledger && pending.ops == old(pending.ops) + e.ops
    {
      visible, protoXform, instancedBy := prim.visible, prim.world, prim.instancedBy;
      Put(k, near, rank);
    }

    method Dress(k: Calculus, near: Registries, prim: Prim, dirt: Dirt, born: bool, ghost rank: map<Path, nat>)
      requires Ranked(near.copiers, rank)
      modifies this, pending
      ensures var e := DressAndPlace(k, near, name, curves, prim, dirt, born, old(Standing())); Standing() == e.ledger && pending.ops == old(pending.ops) + e.ops
    {
      ghost var l, ops := Standing(), pending.ops;
      Tint(prim, dirt, born);
      ghost var bound := ColorAndBind(name, prim, dirt, born, l);
      ghost var placed := bound;
      if born || dirt.placement {
        PutAgain(k, near, prim, rank);
        placed := Followed(bound, PlaceAgain(k, near, name, curves, prim, bound.ledger));
        LanesJoin(ops, bound, PlaceAgain(k, near, name, curves, prim, bound.ledger));
      }
      Repoint(near);
      LanesJoin(ops, placed, ResolveBinding(near, name, placed.ledger));
    }
  }

  /** Every instancer's placements concatenated, the ones the server would
      refuse dropped; an unregistered instancer parks the prim. */
  method Gather(k: Calculus, copiers: Copiers, proto: Matrix, through: seq<Copier>, ghost rank: map<Path, nat>) returns (r: Option<seq<Matrix>>)
    requires Ranked(copiers, rank)
    ensures r == Gathered(k, copiers, proto, through)
  {
    var placements := [];
    assert through[0..] == through;
    for n := 0 to |through|
      invariant Gathered(k, copiers, proto, through) == Prefixed(placements, Gathered(k, copiers, proto, through[n..]))
    {
      assert through[n..][1..] == through[n + 1..];
      if through[n].path !in copiers { return None; }
      var chains := ComputePlacements(k, copiers, through[n], rank);
      var kept := KeepPlaceable(k, proto, chains);
      ghost var rest := Gathered(k, copiers, proto, through[n + 1..]);
      if rest.Some? { assert placements + (kept + rest.value) == (placements + kept) + rest.value; }
      placements := placements + kept;
    }
    r := Some(placements);
  }

  function Prefixed(head: seq<Matrix>, rest: Option<seq<Matrix>>): (r: Option<seq<Matrix>>)
    ensures head == [] ==> r == rest
    ensures rest == Some([]) ==> r == Some(head)
  {
    assert head + [] == head;
    if rest.None? then None
    else assert head == [] ==> head + rest.value == rest.value; Some(head + rest.value)
  }

  method KeepPlaceable(k: Calculus, proto: Matrix, chains: seq<Matrix>) returns (kept: seq<Matrix>)
    ensures kept == Placeable(k, proto, chains)
  {
    kept := [];
    assert chains[0..] == chains;
    for n := 0 to |chains|
      invariant Placeable(k, proto, chains) == kept + Placeable(k, proto, chains[n..])
    {
      assert chains[n..][1..] == chains[n + 1..];
      var one := k.wire(k.times(proto, chains[n]));
      if one.Some? { kept := kept + [one.value]; }
    }
  }

  class MaterialPrim {
    const name: Path
    var sent: bool

    constructor (name: Path, sent: bool)
      ensures this.name == name && this.sent == sent
    {
      this.name, this.sent := name, sent;
    }
  }

  /** The factory's registries, the scene as the observer shows it, and the
      delegate's end of the connection. */
  class Delegate {
    var scene: T.Scene
    var geometry: map<Path, GeometryPrim>
    var materials: map<Path, MaterialPrim>
    var instancers: set<Path>
    const pending: ChangeSet
    var sentGenesis: bool
    ghost var server: Db

    ghost predicate Valid()
      reads this, geometry.Values, materials.Values
    {
      && (forall g :: g in geometry ==> geometry[g].name == g && geometry[g].pending == pending)
      && (forall q :: q in materials ==> materials[q].name == q)
    }

    ghost function World(): T.World
      reads this, geometry.Values, materials.Values, pending
    {
      T.World(scene, map g | g in geometry :: T.Entry(geometry[g].curves, geometry[g].Standing()),
        map q | q in materials :: materials[q].sent, instancers, pending.ops, server, sentGenesis)
    }

    constructor (ghost server: Db)
      ensures Valid() && World() == T.World(T.Scene(map[], map[], map[]), map[], map[], {}, [], server, false)
      ensures fresh(pending)
    {
      scene, geometry, materials, instancers := T.Scene(map[], map[], map[]), map[], map[], {};
      pending := new ChangeSet();
      sentGenesis := false;
      this.server := server;
    }

    function Asked(): Registries
      reads this, materials.Values
    {
      Registries((set q | q in materials && materials[q].sent), T.CopiersOf(scene, instancers))
    }

    lemma AskedIsNear()
      ensures Asked() == T.Near(World())
    {
      assert Asked().published == T.Near(World()).published;
    }

    /** One translator moved: its object and the pending list, nothing else. */
    lemma Moved(was: T.World, g: Path, e: Effect)
      requires Valid() && g in geometry && geometry.Keys == was.geometry.Keys + {g}
      requires forall h :: h in geometry && h != g ==> was.geometry[h] == T.Entry(geometry[h].curves, geometry[h].Standing())
      requires geometry[g].Standing() == e.ledger && pending.ops == was.pending + e.ops
      requires World().scene == was.scene && World().materials == was.materials && World().instancers == was.instancers
      requires World().server == was.server && World().sentGenesis == was.sentGenesis
      ensures World() == T.Took(was, g, geometry[g].curves, e)
    {
      assert World().geometry == T.Took(was, g, geometry[g].curves, e).geometry;
    }

    /** One translator left: the registry's entry and the pending list, nothing else. */
    lemma Gone(was: T.World, g: Path)
      requires geometry.Keys == was.geometry.Keys - {g}
      requires forall h :: h in geometry ==> was.geometry[h] == T.Entry(geometry[h].curves, geometry[h].Standing())
      requires World().scene == was.scene && World().materials == was.materials && World().instancers == was.instancers
      requires World().server == was.server && World().sentGenesis == was.sentGenesis
      ensures World() == was.(geometry := was.geometry - {g}, pending := pending.ops)
    {
      assert World().geometry == was.geometry - {g};
    }

    /** A new translator for `g`, constructed while the old one still stands. */
    method MakeGeometry(k: Calculus, g: Path, curves: bool, ghost rank: map<Path, nat>) returns (made: GeometryPrim)
      requires Valid() && Ranked(T.CopiersOf(scene, instancers), rank)
      modifies pending
      ensures fresh(made) && made.name == g && made.curves == curves && made.pending == pending
      ensures var e := AddEffect(k, Asked(), g, curves, Get(scene.geometry, g), Inherited(k, T.PreviousLedger(old(World()), g)));
        made.Standing() == e.ledger && World() == old(World()).(pending := old(pending.ops) + e.ops)
    {
      hide AddEffect, Inherited;
      var previous := Get(geometry, g);
      ghost var l := Inherited(k, T.PreviousLedger(World(), g));
      var near := Asked();
      made := new GeometryPrim(k, g, curves, previous, Get(scene.geometry, g), near, pending, l, rank);
    }

    method AddGeometry(k: Calculus, g: Path, curves: bool, ghost rank: map<Path, nat>)
      requires Valid() && Ranked(T.CopiersOf(scene, instancers), rank)
      modifies this`geometry, pending
      ensures Valid() && World() == T.AddGeometry(k, old(World()), g, curves)
    {
      AskedIsNear();
      var made := MakeGeometry(k, g, curves, rank);
      Register(g, made);
    }

    /** The newcomer takes the registry slot. */
    method Register(g: Path, made: GeometryPrim)
      requires Valid() && made.name == g && made.pending == pending
      modifies this`geometry
      ensures Valid() && World() == old(World()).(geometry := old(World()).geometry[g := T.Entry(made.curves, made.Standing())])
    {
      ghost var was := World();
      geometry := geometry[g := made];
      assert World().geometry == was.geometry[g := T.Entry(made.curves, made.Standing())];
    }

    method ReconcileOne(k: Calculus, g: Path, dirt: Dirt, ghost rank: map<Path, nat>)
      requires Valid() && g in geometry && g in scene.geometry && Ranked(T.CopiersOf(scene, instancers), rank)
      modifies geometry[g], pending
      ensures Valid()
      ensures World() == T.Took(old(World()), g, geometry[g].curves,
        Reconcile(k, T.Near(old(World())), g, geometry[g].curves, scene.geometry[g], dirt, old(geometry[g].Standing())))
    {
      hide Reconcile, Ranked;
      AskedIsNear();
      var near, prim := Asked(), geometry[g];
      ghost var e := Reconcile(k, near, g, prim.curves, scene.geometry[g], dirt, prim.Standing());
      ghost var was := World();
      prim.Bring(k, near, scene.geometry[g], dirt, rank);
      Moved(was, g, e);
    }

    method DirtyGeometry(k: Calculus, g: Path, dirt: Dirt, ghost rank: map<Path, nat>)
      requires Valid() && Ranked(T.CopiersOf(scene, instancers), rank)
      modifies geometry.Values, pending
      ensures Valid() && World() == T.DirtyGeometry(k, old(World()), g, dirt)
    {
      hide Reconcile, Ranked;
      if g in geometry && g in scene.geometry { ReconcileOne(k, g, dirt, rank); }
    }

    method RemoveGeometry(g: Path)
      requires Valid()
      modifies this`geometry, geometry.Values, pending
      ensures Valid() && World() == T.RemoveGeometry(old(World()), g)
    {
      if g in geometry {
        var gone := geometry[g];
        geometry := geometry - {g};
        hide Withdraw;
        gone.WithdrawAll();
        Gone(old(World()), g);
      }
    }

    method RepointOne(g: Path)
      requires Valid() && g in geometry
      modifies geometry[g], pending
      ensures Valid()
      ensures World() == T.Took(old(World()), g, geometry[g].curves, ResolveBinding(T.Near(old(World())), g, old(geometry[g].Standing())))
    {
      AskedIsNear();
      var near, prim := Asked(), geometry[g];
      ghost var e := ResolveBinding(near, g, prim.Standing());
      ghost var was := World();
      prim.Repoint(near);
      Moved(was, g, e);
    }

    /** The materials' walk over the geometry registry. */
    method RepointGeometry(walk: seq<Path>)
      requires Valid()
      modifies geometry.Values, pending
      ensures Valid() && World() == T.RepointGeometry(old(World()), walk)
    {
      assert walk[0..] == walk;
      for n := 0 to |walk|
        invariant Valid()
        invariant T.RepointGeometry(World(), walk[n..]) == T.RepointGeometry(old(World()), walk)
      {
        assert walk[n..][1..] == walk[n + 1..];
        if walk[n] in geometry { RepointOne(walk[n]); }
      }
    }

    method RecomposeOne(k: Calculus, g: Path, ghost rank: map<Path, nat>)
      requires Valid() && g in geometry && Ranked(T.CopiersOf(scene, instancers), rank)
      modifies geometry[g], pending
      ensures Valid()
      ensures World() == T.Took(old(World()), g, geometry[g].curves,
        RecomposeInstancing(k, T.Near(old(World())), g, geometry[g].curves, old(geometry[g].Standing())))
    {
      AskedIsNear();
      var near, prim := Asked(), geometry[g];
      ghost var e := RecomposeInstancing(k, near, g, prim.curves, prim.Standing());
      ghost var was := World();
      prim.Recompose(k, near, rank);
      Moved(was, g, e);
    }

    /** The instancers' walk over the geometry registry. */
    method PokeGeometry(k: Calculus, walk: seq<Path>, ghost rank: map<Path, nat>)
      requires Valid() && Ranked(T.CopiersOf(scene, instancers), rank)
      modifies geometry.Values, pending
      ensures Valid() && World() == T.PokeGeometry(k, old(World()), walk)
    {
      assert walk[0..] == walk;
      for n := 0 to |walk|
        invariant Valid()
        invariant T.PokeGeometry(k, World(), walk[n..]) == T.PokeGeometry(k, old(World()), walk)
      {
        assert walk[n..][1..] == walk[n + 1..];
        if walk[n] in geometry { RecomposeOne(k, walk[n], rank); }
      }
    }

    method Append(op: Op)
      requires Valid()
      modifies pending
      ensures Valid() && World() == T.Emit(old(World()), op)
    {
      ghost var was := World();
      pending.PushBack(op);
      assert World().geometry == was.geometry && World().materials == was.materials;
    }

    method MarkSent(q: Path, sent: bool)
      requires Valid() && q in materials
      modifies materials[q]
      ensures Valid() && World() == old(World()).(materials := old(World()).materials[q := sent])
    {
      ghost var was := World();
      materials[q].sent := sent;
      assert World().geometry == was.geometry && World().materials == was.materials[q := sent];
    }

    method RegisterMaterial(q: Path, made: MaterialPrim)
      requires Valid() && made.name == q
      modifies this`materials
      ensures Valid() && World() == old(World()).(materials := old(World()).materials[q := made.sent])
      ensures materials == old(materials)[q := made]
    {
      ghost var was := World();
      materials := materials[q := made];
      assert World().materials == was.materials[q := made.sent];
    }

    /** The total patch, and the birth walk when the material was not up. */
    method ReconcileMaterial(q: Path, walk: seq<Path>)
      requires Valid() && q in materials && q in scene.materials
      modifies materials[q], geometry.Values, pending
      ensures Valid() && World() == T.ReconcileMaterial(old(World()), q, walk)
    {
      var born := !materials[q].sent;
      Append(T.NetworkPatch(q, scene.materials[q]));
      MarkSent(q, true);
      if born { RepointGeometry(walk); }
    }

    method DirtyMaterial(q: Path, network: bool, walk: seq<Path>)
      requires Valid()
      modifies materials.Values, geometry.Values, pending
      ensures Valid() && World() == T.DirtyMaterial(old(World()), q, network, walk)
    {
      if network && q in materials && q in scene.materials { ReconcileMaterial(q, walk); }
    }

    /** A newcomer inherits whether the material is up, and takes the slot. */
    method SupersedeMaterial(q: Path) returns (sent: bool)
      requires Valid()
      modifies this`materials
      ensures Valid() && q in materials && fresh(materials[q]) && geometry == old(geometry)
      ensures sent == (q in old(World()).materials && old(World()).materials[q])
      ensures World() == old(World()).(materials := old(World()).materials[q := sent])
    {
      sent := q in materials && materials[q].sent;
      var made := new MaterialPrim(q, sent);
      RegisterMaterial(q, made);
    }

    method AddMaterial(q: Path, walk: seq<Path>)
      requires Valid()
      modifies this`materials, geometry.Values, pending
      ensures Valid() && World() == T.AddMaterial(old(World()), q, walk)
    {
      ghost var was := World();
      var sent := SupersedeMaterial(q);
      if q in scene.materials {
        ReconcileMaterial(q, walk);
      } else if sent {
        MarkSent(q, false);
        assert was.materials[q := sent][q := false] == was.materials[q := false];
        RepointGeometry(walk);
        Append(Remove(Key(Material, q)));
      }
    }

    method UnregisterMaterial(q: Path)
      requires Valid() && q in materials
      modifies this`materials
      ensures Valid() && World() == old(World()).(materials := old(World()).materials - {q})
    {
      ghost var was := World();
      materials := materials - {q};
      assert World().materials == was.materials - {q};
    }

    method RemoveMaterial(q: Path, walk: seq<Path>)
      requires Valid()
      modifies this`materials, geometry.Values, pending
      ensures Valid() && World() == T.RemoveMaterial(old(World()), q, walk)
    {
      if q in materials {
        var sent := materials[q].sent;
        UnregisterMaterial(q);
        if sent {
          RepointGeometry(walk);
          Append(Remove(Key(Material, q)));
        }
      }
    }

    method AddInstancer(k: Calculus, q: Path, walk: seq<Path>, ghost rank: map<Path, nat>)
      requires Valid() && Ranked(T.CopiersOf(scene, instancers + {q}), rank)
      modifies this`instancers, geometry.Values, pending
      ensures Valid() && World() == T.PokeGeometry(k, old(World()).(instancers := old(instancers) + {q}), walk)
    {
      instancers := instancers + {q};
      assert World() == old(World()).(instancers := old(instancers) + {q});
      PokeGeometry(k, walk, rank);
    }

    method RemoveInstancer(k: Calculus, q: Path, walk: seq<Path>, ghost rank: map<Path, nat>)
      requires Valid() && Ranked(T.CopiersOf(scene, instancers - {q}), rank)
      modifies this`instancers, geometry.Values, pending
      ensures Valid() && World() == T.RemoveInstancer(k, old(World()), q, walk)
    {
      if q in instancers {
        instancers := instancers - {q};
        assert World() == old(World()).(instancers := old(instancers) - {q});
        PokeGeometry(k, walk, rank);
      }
    }

    method Sent(ghost answer: Db)
      requires Valid()
      modifies this`sentGenesis, this`server, pending
      ensures Valid() && World() == old(World()).(server := answer, sentGenesis := true, pending := [])
    {
      server := answer;
      sentGenesis := true;
      pending.ops := [];
    }

    /** The frame hook: the first time a replacement, then overlays, none when
        there is nothing to say. What fails to be delivered stays pending. */
    method Update(delivered: bool)
      requires Valid()
      modifies this`sentGenesis, this`server, pending
      ensures Valid() && World() == if delivered then T.Send(old(World())) else old(World())
    {
      ghost var was := World();
      if !sentGenesis {
        if delivered { Sent(T.Send(was).server); }
        return;
      }
      if pending.ops == [] {
        assert Commit(server, []) == server;
        return;
      }
      if delivered { Sent(T.Send(was).server); }
    }
  }
}
