/** The render server as its clients may rely on it: a map from (kind, name)
    to fields, edited by change sets that are accepted whole or not at all. */
module SceneServer {

  import opened Options

  /** A scene path. `EmptyPath` is the path that names nothing. */
  datatype Path = EmptyPath | RootPath | Child(parent: Path, name: string)

  datatype Kind = Mesh | Curves | Instance | Material | Light | Environment | Settings

  /** A transform, by its bit pattern: only the arithmetic handed to the
      translators gives it meaning. */
  type Matrix = int

  /** The settings have no name: there is one such object. */
  datatype Key = Key(kind: Kind, name: Path)

  /** Render settings, field by field; `seed` is never resolved. */
  datatype Budget = Budget(
    spp: Option<int>, noiseThreshold: Option<int>, maxBounces: Option<int>, denoise: Option<int>, seed: Option<int>)

  const UNSET := Budget(None, None, None, None, None)

  /** One budget over another: the server's merge, and the shot over the session. */
  function Overlay(under: Budget, over: Budget): Budget {
    Budget(Over(under.spp, over.spp), Over(under.noiseThreshold, over.noiseThreshold),
      Over(under.maxBounces, over.maxBounces), Over(under.denoise, over.denoise), Over(under.seed, over.seed))
  }

  /** The fields of an object or of a patch; `None` is an absent field. */
  datatype Fields = Fields(
    source: Option<int>,
    baseColor: Option<int>,
    shading: Option<int>,
    target: Option<Key>,
    material: Option<Path>,
    transforms: Option<seq<Matrix>>,
    budget: Budget)

  const BLANK := Fields(None, None, None, None, None, None, UNSET)

  datatype Op = Patch(key: Key, fields: Fields) | Remove(key: Key)

  type Db = map<Key, Fields>

  function Get<K, V>(m: map<K, V>, key: K): Option<V> {
    if key in m then Some(m[key]) else None
  }

  function Over<T>(under: Option<T>, over: Option<T>): Option<T> {
    if over.Some? then over else under
  }

  /** Only present fields overwrite. */
  function Merge(under: Fields, over: Fields): Fields {
    Fields(
      Over(under.source, over.source),
      Over(under.baseColor, over.baseColor),
      Over(under.shading, over.shading),
      Over(under.target, over.target),
      Over(under.material, over.material),
      Over(under.transforms, over.transforms),
      Overlay(under.budget, over.budget))
  }

  /** A patch gets or creates its object; removing a missing object fails. */
  function Apply(db: Db, op: Op): Option<Db> {
    match op
    case Patch(key, fields) => Some(db[key := Merge(if key in db then db[key] else BLANK, fields)])
    case Remove(key) => if key in db then Some(db - {key}) else None
  }

  function Replay(db: Db, ops: seq<Op>): Option<Db>
    decreases |ops|
  {
    if ops == [] then Some(db)
    else
      var next := Apply(db, ops[0]);
      if next.None? then None else Replay(next.value, ops[1..])
  }

  /** References are checked once, on the merged result: an instance names a
      payload and a material that both stand, and is placed. */
  ghost predicate Sound(db: Db) {
    forall name :: Key(Instance, name) in db ==>
      var i := db[Key(Instance, name)];
      && i.target.Some? && i.target.value in db
      && i.material.Some? && Key(Material, i.material.value) in db
      && i.transforms.Some?
  }

  /** What a change set does to the scene: everything, or nothing. */
  ghost function Commit(db: Db, ops: seq<Op>): Db {
    var merged := Replay(db, ops);
    if merged.Some? && Sound(merged.value) then merged.value else db
  }

  ghost predicate Accepted(db: Db, ops: seq<Op>) {
    var merged := Replay(db, ops);
    merged.Some? && Sound(merged.value)
  }

  /** Replaying a list in two parts is replaying it whole. */
  lemma {:induction false} ReplaySplits(db: Db, a: seq<Op>, b: seq<Op>)
    ensures Replay(db, a + b) == (var mid := Replay(db, a); if mid.None? then None else Replay(mid.value, b))
    decreases |a|
  {
    if a == [] {
      assert a + b == b;
    } else {
      assert (a + b)[1..] == a[1..] + b;
      var next := Apply(db, a[0]);
      if next.Some? { ReplaySplits(next.value, a[1..], b); }
    }
  }

  // ---------------------------------------------------------------- one list, many owners

  /** The objects under some keys, and the ops on them, in order. */
  ghost function Part(db: Db, keys: iset<Key>): Db {
    map key | key in db && key in keys :: db[key]
  }

  ghost function On(ops: seq<Op>, keys: iset<Key>): seq<Op> {
    if ops == [] then []
    else (if ops[0].key in keys then [ops[0]] else []) + On(ops[1..], keys)
  }

  lemma PartApplies(db: Db, op: Op, keys: iset<Key>)
    ensures op.key in keys ==>
      Apply(Part(db, keys), op) == (if Apply(db, op).None? then None else Some(Part(Apply(db, op).value, keys)))
    ensures op.key !in keys && Apply(db, op).Some? ==> Part(Apply(db, op).value, keys) == Part(db, keys)
  {
    var next := Apply(db, op);
    if next.Some? {
      if op.key in keys { assert Apply(Part(db, keys), op).value == Part(next.value, keys); }
      else { assert Part(next.value, keys) == Part(db, keys); }
    }
  }

  ghost function Others(keys: iset<Key>): iset<Key> { iset key | key !in keys }

  /** A list is accepted exactly when its ops on some keys and its ops beside
      them are, each replayed alone; and what it leaves under the keys is what
      its ops on them leave. */
  lemma {:induction false} ReplayRestricts(db: Db, ops: seq<Op>, keys: iset<Key>)
    ensures Replay(db, ops).Some? <==>
      Replay(Part(db, keys), On(ops, keys)).Some? && Replay(Part(db, Others(keys)), On(ops, Others(keys))).Some?
    ensures Replay(db, ops).Some? ==>
      Replay(Part(db, keys), On(ops, keys)) == Some(Part(Replay(db, ops).value, keys))
    decreases |ops|
  {
    if ops != [] {
      hide Apply, Part;
      var op, rest := ops[0], ops[1..];
      PartApplies(db, op, keys);
      PartApplies(db, op, Others(keys));
      FirstOn(db, ops, keys);
      FirstOn(db, ops, Others(keys));
      if Apply(db, op).Some? { ReplayRestricts(Apply(db, op).value, rest, keys); }
    }
  }

  lemma FirstOn(db: Db, ops: seq<Op>, keys: iset<Key>)
    requires ops != []
    ensures var part, rest := Part(db, keys), On(ops[1..], keys);
      Replay(part, On(ops, keys)) ==
        if ops[0].key !in keys then Replay(part, rest)
        else if Apply(part, ops[0]).None? then None else Replay(Apply(part, ops[0]).value, rest)
  {
    var rest := On(ops[1..], keys);
    if ops[0].key in keys {
      assert ([ops[0]] + rest)[1..] == rest;
    } else {
      assert [] + rest == rest;
    }
  }

  predicate Alike(was: Db, now: Db, key: Key) { Get(was, key) == Get(now, key) }

  ghost predicate AllOn(ops: seq<Op>, keys: iset<Key>) {
    forall n :: 0 <= n < |ops| ==> ops[n].key in keys
  }

  lemma {:induction false} OnAll(ops: seq<Op>, keys: iset<Key>)
    requires AllOn(ops, keys)
    ensures On(ops, keys) == ops && On(ops, Others(keys)) == []
  {
    if ops != [] {
      OnAll(ops[1..], keys);
      assert [ops[0]] + ops[1..] == ops;
    }
  }

  /** Ops on some keys alone: whether they are accepted, and what they leave,
      is decided there, and nothing else changes. */
  lemma ReplayFrames(db: Db, ops: seq<Op>, keys: iset<Key>)
    requires AllOn(ops, keys)
    ensures Replay(db, ops).Some? <==> Replay(Part(db, keys), ops).Some?
    ensures Replay(db, ops).Some? ==>
      && Part(Replay(db, ops).value, keys) == Replay(Part(db, keys), ops).value
      && forall key :: key !in keys ==> Alike(db, Replay(db, ops).value, key)
  {
    OnAll(ops, keys);
    ReplayRestricts(db, ops, keys);
    ReplayRestricts(db, ops, Others(keys));
    if Replay(db, ops).Some? {
      var after := Replay(db, ops).value;
      forall key | key !in keys ensures Alike(db, after, key) {
        assert Part(db, Others(keys)) == Part(after, Others(keys));
        assert Get(Part(db, Others(keys)), key) == Get(db, key);
        assert Get(Part(after, Others(keys)), key) == Get(after, key);
      }
    }
  }

  lemma ReplayNone(db: Db)
    ensures Replay(db, []) == Some(db)
  {}

  lemma ReplayOne(db: Db, op: Op)
    ensures Replay(db, [op]) == Apply(db, op)
  {
    var next := Apply(db, op);
    assert [op][1..] == [];
    if next.Some? { assert Replay(next.value, []) == next; }
  }

  /** The pending ops, shared by every translator. */
  class ChangeSet {
    var ops: seq<Op>

    constructor ()
      ensures ops == []
    {
      ops := [];
    }

    method PushBack(op: Op)
      modifies this
      ensures ops == old(ops) + [op]
    {
      ops := ops + [op];
    }
  }
}
