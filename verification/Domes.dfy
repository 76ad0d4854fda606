/** Dome lights contending for the one environment: the lowest path that is
    eligible holds it, and every hand-over is a removal and a patch in one flush. */
module Domes {

  import opened Options
  import opened SceneServer
  import opened Paths

  type Payload = int

  /** A dome as the scene gives it. */
  datatype Input = Input(visible: bool, payload: Payload)

  /** A dome's ledger; a payload never read is the blank patch, which names nothing. */
  datatype Dome = Dome(path: Path, eligible: bool, published: bool, payload: Option<Payload>)

  // ---------------------------------------------------------------- the registry

  /** The registry is sorted by path. */
  predicate Sorted(live: seq<Dome>) { forall i, j :: 0 <= i < j < |live| ==> Before(live[i].path, live[j].path) }

  /** The first eligible dome, or the length if there is none. */
  function Winner(live: seq<Dome>): (w: nat)
    ensures w <= |live| && (forall i :: 0 <= i < w ==> !live[i].eligible) && (w < |live| ==> live[w].eligible)
  {
    if live == [] || live[0].eligible then 0 else 1 + Winner(live[1..])
  }

  /** Where a path stands or would be put. */
  function Place(live: seq<Dome>, path: Path): (k: nat)
    ensures k <= |live| && (forall i :: 0 <= i < k ==> Before(live[i].path, path)) && (k < |live| ==> !Before(live[k].path, path))
  {
    if live == [] || !Before(live[0].path, path) then 0 else 1 + Place(live[1..], path)
  }

  predicate Registered(live: seq<Dome>, path: Path) {
    var k := Place(live, path);
    k < |live| && live[k].path == path
  }

  /** What a dome would have the server show. */
  datatype Picture = Picture(name: Path, fields: Fields)

  function PictureOf(d: Dome): Picture {
    if d.payload.Some? then Picture(d.path, BLANK.(source := d.payload)) else Picture(EmptyPath, BLANK)
  }

  /** The patch a dome publishes. */
  function PatchOf(d: Dome): Op { Patch(Key(Environment, PictureOf(d).name), PictureOf(d).fields) }

  datatype Effect = Effect(live: seq<Dome>, ops: seq<Op>)

  function Withdrawal(d: Dome): seq<Op> { if d.published then [Remove(Key(Environment, d.path))] else [] }

  /** Every published dome but the winner gives the slot up, in path order. */
  function Demoted(live: seq<Dome>, w: nat, n: nat): (e: Effect)
    requires n <= |live|
    ensures |e.live| == |live|
  {
    if n == 0 then Effect(live, [])
    else
      var e := Demoted(live, w, n - 1);
      if n - 1 == w then e
      else Effect(e.live[n - 1 := e.live[n - 1].(published := false)], e.ops + Withdrawal(e.live[n - 1]))
  }

  lemma {:induction false} DemotedIs(live: seq<Dome>, w: nat, n: nat)
    requires n <= |live|
    ensures var e := Demoted(live, w, n);
      && |e.live| == |live|
      && forall i :: 0 <= i < |live| ==>
           e.live[i] == if i < n && i != w then live[i].(published := false) else live[i]
  {
    if n > 0 { DemotedIs(live, w, n - 1); }
  }

  /** Square the registry with the one-environment rule. */
  function Arbitrated(live: seq<Dome>, refreshed: Option<Path>): Effect {
    var w := Winner(live);
    DemotedIs(live, w, |live|);
    var e := Demoted(live, w, |live|);
    if w == |live| then e
    else if !live[w].published || refreshed == Some(live[w].path) then
      Effect(e.live[w := e.live[w].(published := true)], e.ops + [PatchOf(live[w])])
    else e
  }

  function Prepended(ops: seq<Op>, e: Effect): Effect { e.(ops := ops + e.ops) }

  /** Re-read what is dirty, then arbitrate. */
  function Refreshed(live: seq<Dome>, k: nat, input: Input, light: bool, visibility: bool, born: bool): Effect
    requires k < |live|
  {
    if !born && !light && !visibility then Effect(live, [])
    else
      var rebuilt := born || light;
      var d := live[k].(eligible := input.visible, payload := if rebuilt then Some(input.payload) else live[k].payload);
      Arbitrated(live[k := d], if rebuilt then Some(d.path) else None)
  }

  /** A dome's birth, or its resync: the successor inherits the slot and its
      standing, but no payload. */
  function Joined(live: seq<Dome>, path: Path): (r: seq<Dome>)
    ensures |r| == if Registered(live, path) then |live| else |live| + 1
    ensures Place(live, path) < |r| && r[Place(live, path)].path == path
  {
    var k := Place(live, path);
    if Registered(live, path) then live[k := live[k].(payload := None)]
    else live[..k] + [Dome(path, false, false, None)] + live[k..]
  }

  function Constructed(live: seq<Dome>, path: Path, input: Option<Input>): Effect {
    var k, joined := Place(live, path), Joined(live, path);
    if input.Some? then Refreshed(joined, k, input.value, true, true, true)
    else
      Prepended(Withdrawal(joined[k]), Arbitrated(joined[k := joined[k].(eligible := false, published := false)], None))
  }

  function Destroyed(live: seq<Dome>, path: Path): Effect {
    var k := Place(live, path);
    if !Registered(live, path) then Effect(live, [])
    else Prepended(Withdrawal(live[k]), Arbitrated(live[..k] + live[k + 1..], None))
  }

  function Dirtied(live: seq<Dome>, path: Path, input: Option<Input>, light: bool, visibility: bool): Effect {
    if input.None? || !Registered(live, path) then Effect(live, [])
    else Refreshed(live, Place(live, path), input.value, light, visibility, false)
  }

  // ---------------------------------------------------------------- one sky

  /** What the winner would show; nothing when no dome is eligible. */
  function Due(live: seq<Dome>): Option<Picture> {
    var w := Winner(live);
    if w == |live| then None else Some(PictureOf(live[w]))
  }

  /** Only the winner is published. */
  predicate Squared(live: seq<Dome>) {
    forall i :: 0 <= i < |live| ==> (live[i].published <==> i == Winner(live))
  }

  /** The winner, if there is one, has been read. */
  predicate Lit(live: seq<Dome>) {
    Winner(live) < |live| ==> live[Winner(live)].payload.Some?
  }

  /** The server holds this environment and no other. */
  ghost predicate ShowsSky(db: Db, sky: Option<Picture>) {
    forall name :: Get(db, Key(Environment, name)) == if sky.Some? && sky.value.name == name then Some(sky.value.fields) else None
  }

  ghost predicate AtMostOne(db: Db) {
    forall a, b :: Key(Environment, a) in db && Key(Environment, b) in db ==> a == b
  }

  /** At every prefix the ops are accepted and leave at most one environment. */
  ghost predicate NeverTwo(db: Db, ops: seq<Op>) {
    forall n :: 0 <= n <= |ops| ==> Replay(db, ops[..n]).Some? && AtMostOne(Replay(db, ops[..n]).value)
  }

  /** The server shows exactly the winner, by its own name and payload. */
  ghost predicate OneSky(live: seq<Dome>, db: Db) {
    Sorted(live) && Squared(live) && Lit(live) && ShowsSky(db, Due(live))
  }

  /** The ops leave the registry squared and the server showing what it is given
      for the winner, never two environments on the way. */
  ghost predicate Arrives(e: Effect, db: Db) {
    && Sorted(e.live) && Squared(e.live) && NeverTwo(db, e.ops)
    && Replay(db, e.ops).Some? && ShowsSky(Replay(db, e.ops).value, Due(e.live))
  }

  /** At most the dome at p is published, and the server shows it and nothing else. */
  ghost predicate Holds(live: seq<Dome>, db: Db, p: nat, sky: Option<Picture>) {
    && ShowsSky(db, sky) && (sky.Some? ==> sky.value.fields == BLANK.(source := sky.value.fields.source))
    && (forall i :: 0 <= i < |live| ==> (live[i].published ==> i == p))
    && (if p < |live| && live[p].published then sky.Some? && sky.value.name == live[p].path else sky == None)
  }

  lemma DemotedStep(live: seq<Dome>, w: nat, m: nat)
    requires m < |live|
    ensures Demoted(live, w, m + 1).ops == Demoted(live, w, m).ops + (if m == w then [] else Withdrawal(live[m]))
  {
    DemotedIs(live, w, m);
  }

  lemma {:induction false} DemotedOps(live: seq<Dome>, w: nat, p: nat, n: nat)
    requires n <= |live| && forall i :: 0 <= i < |live| && live[i].published ==> i == p
    ensures Demoted(live, w, n).ops == if p < n && p != w && live[p].published then [Remove(Key(Environment, live[p].path))] else []
  {
    if n > 0 {
      hide Demoted;
      DemotedOps(live, w, p, n - 1);
      DemotedStep(live, w, n - 1);
    }
  }

  /** The ops one arbitration appends. */
  function HandOver(live: seq<Dome>, p: nat, refreshed: Option<Path>): seq<Op> {
    var w := Winner(live);
    (if p < |live| && p != w && live[p].published then [Remove(Key(Environment, live[p].path))] else [])
    + (if w < |live| && (!live[w].published || refreshed == Some(live[w].path)) then [PatchOf(live[w])] else [])
  }

  lemma ArbitratedIs(live: seq<Dome>, p: nat, refreshed: Option<Path>)
    requires forall i :: 0 <= i < |live| && live[i].published ==> i == p
    ensures var e := Arbitrated(live, refreshed);
      && e.ops == HandOver(live, p, refreshed) && |e.live| == |live|
      && forall i :: 0 <= i < |live| ==> e.live[i] == live[i].(published := i == Winner(live))
  {
    DemotedIs(live, Winner(live), |live|);
    DemotedOps(live, Winner(live), p, |live|);
  }

  lemma {:induction false} SameWinner(a: seq<Dome>, b: seq<Dome>)
    requires |a| == |b| && forall i :: 0 <= i < |a| ==> a[i].eligible == b[i].eligible
    ensures Winner(a) == Winner(b)
  {
  }

  lemma ShowsOne(db: Db, sky: Option<Picture>)
    requires ShowsSky(db, sky)
    ensures AtMostOne(db)
  {
    forall a, b | Key(Environment, a) in db && Key(Environment, b) in db ensures a == b {
      assert Get(db, Key(Environment, a)).Some? && Get(db, Key(Environment, b)).Some?;
    }
  }

  lemma NoOps(db: Db, sky: Option<Picture>)
    requires ShowsSky(db, sky)
    ensures Replay(db, []) == Some(db) && NeverTwo(db, [])
  {
    var none: seq<Op> := [];
    ShowsOne(db, sky);
    ReplayNone(db);
    hide Replay, ShowsSky;
    assert none[..0] == [];
  }

  /** One op from one picture to the next. */
  lemma OneOp(db: Db, op: Op, sky: Option<Picture>, next: Option<Picture>)
    requires Apply(db, op).Some? && ShowsSky(db, sky) && ShowsSky(Apply(db, op).value, next)
    ensures Replay(db, [op]) == Apply(db, op) && NeverTwo(db, [op])
  {
    ReplayOne(db, op);
    ReplayNone(db);
    ShowsOne(db, sky);
    ShowsOne(Apply(db, op).value, next);
    hide Replay, ShowsSky, AtMostOne;
    forall n | 0 <= n <= 1 ensures Replay(db, [op][..n]).Some? && AtMostOne(Replay(db, [op][..n]).value) {
      assert [op][..n] == if n == 0 then [] else [op];
    }
  }

  lemma NeverTwoGrows(db: Db, a: seq<Op>, b: seq<Op>)
    requires NeverTwo(db, a) && Replay(db, a).Some? && NeverTwo(Replay(db, a).value, b)
    ensures NeverTwo(db, a + b)
  {
    hide Replay, AtMostOne;
    var all := a + b;
    forall n | 0 <= n <= |all| ensures Replay(db, all[..n]).Some? && AtMostOne(Replay(db, all[..n]).value) {
      if n <= |a| {
        assert all[..n] == a[..n];
      } else {
        assert all[..n] == a + b[..n - |a|];
        ReplaySplits(db, a, b[..n - |a|]);
      }
    }
  }

  lemma NeverTwoWhole(db: Db, ops: seq<Op>)
    requires NeverTwo(db, ops)
    ensures Replay(db, ops).Some? && AtMostOne(Replay(db, ops).value)
  {
    assert ops[..|ops|] == ops;
  }

  lemma RemovalShows(db: Db, sky: Option<Picture>, path: Path)
    requires ShowsSky(db, sky) && sky.Some? && sky.value.name == path
    ensures var next := Apply(db, Remove(Key(Environment, path))); next.Some? && ShowsSky(next.value, None)
  {
    assert Get(db, Key(Environment, path)).Some?;
  }

  lemma PatchShows(db: Db, sky: Option<Picture>, d: Dome)
    requires ShowsSky(db, sky) && (sky.Some? ==> sky.value.name == PictureOf(d).name && d.payload.Some?)
    requires sky.Some? ==> sky.value.fields == BLANK.(source := sky.value.fields.source)
    ensures Apply(db, PatchOf(d)).Some? && ShowsSky(Apply(db, PatchOf(d)).value, Some(PictureOf(d)))
  {
    assert Get(db, Key(Environment, PictureOf(d).name)) == if sky.Some? then Some(sky.value.fields) else None;
  }

  /** What arbitration needs: the dome that holds the slot shows what it should,
      or is about to be sent anew. */
  ghost predicate Fresh(live: seq<Dome>, p: nat, sky: Option<Picture>, refreshed: Option<Path>) {
    p < |live| && live[p].published && p == Winner(live) ==>
      if refreshed == Some(live[p].path) then live[p].payload.Some? else sky == Due(live)
  }

  /** Two ops at most, each accepted, with never two environments between them. */
  lemma HandOverReplays(live: seq<Dome>, db: Db, p: nat, sky: Option<Picture>, refreshed: Option<Path>)
    requires Holds(live, db, p, sky) && Fresh(live, p, sky, refreshed)
    ensures var ops := HandOver(live, p, refreshed);
      NeverTwo(db, ops) && Replay(db, ops).Some? && ShowsSky(Replay(db, ops).value, Due(live))
  {
    hide NeverTwo, Replay, ShowsSky, Apply;
    var w, ops := Winner(live), HandOver(live, p, refreshed);
    if p < |live| && p != w && live[p].published {
      var removal := Remove(Key(Environment, live[p].path));
      RemovalShows(db, sky, live[p].path);
      var mid := Apply(db, removal).value;
      OneOp(db, removal, sky, None);
      if w == |live| {
        assert ops == [removal];
      } else {
        assert ops == [removal] + [PatchOf(live[w])];
        PatchShows(mid, None, live[w]);
        OneOp(mid, PatchOf(live[w]), None, Due(live));
        NeverTwoGrows(db, [removal], [PatchOf(live[w])]);
        ReplaySplits(db, [removal], [PatchOf(live[w])]);
      }
    } else if w < |live| && (!live[w].published || refreshed == Some(live[w].path)) {
      assert ops == [PatchOf(live[w])];
      PatchShows(db, sky, live[w]);
      OneOp(db, PatchOf(live[w]), sky, Due(live));
    } else {
      assert ops == [];
      NoOps(db, sky);
    }
  }

  /** However the registry was left, arbitration squares it and the server. */
  lemma ArbitrationSettles(live: seq<Dome>, db: Db, p: nat, sky: Option<Picture>, refreshed: Option<Path>)
    requires Sorted(live) && Holds(live, db, p, sky) && Fresh(live, p, sky, refreshed)
    ensures Arrives(Arbitrated(live, refreshed), db)
  {
    var e := Arbitrated(live, refreshed);
    ArbitratedIs(live, p, refreshed);
    SameWinner(live, e.live);
    HandOverReplays(live, db, p, sky, refreshed);
    hide NeverTwo, Replay, Arbitrated, HandOver, Winner, ShowsSky;
    assert Due(e.live) == Due(live);
  }

  lemma SkyHolds(live: seq<Dome>, db: Db)
    requires OneSky(live, db)
    ensures Holds(live, db, Winner(live), Due(live))
  {
  }

  lemma DistinctPaths(live: seq<Dome>, i: nat, j: nat)
    requires Sorted(live) && i < |live| && j < |live| && live[i].path == live[j].path
    ensures i == j
  {
    PathsAreOrdered(live[i].path, live[i].path);
  }

  /** One dome read again. */
  lemma RefreshArrives(live: seq<Dome>, db: Db, k: nat, input: Input, light: bool, visibility: bool, born: bool)
    requires OneSky(live, db) && k < |live|
    ensures Arrives(Refreshed(live, k, input, light, visibility, born), db)
  {
    if !born && !light && !visibility {
      NoOps(db, Due(live));
    } else {
      var rebuilt := born || light;
      var d := live[k].(eligible := input.visible, payload := if rebuilt then Some(input.payload) else live[k].payload);
      var p := Winner(live);
      SkyHolds(live, db);
      if p < |live| && live[p].path == d.path { DistinctPaths(live, p, k); }
      hide NeverTwo, Replay, ShowsSky;
      ArbitrationSettles(live[k := d], db, p, Due(live), if rebuilt then Some(d.path) else None);
    }
  }

  // ---------------------------------------------------------------- births and deaths

  lemma {:induction false} WinnerIs(live: seq<Dome>, w: nat)
    requires w <= |live| && (forall i :: 0 <= i < w ==> !live[i].eligible) && (w < |live| ==> live[w].eligible)
    ensures Winner(live) == w
    decreases w
  {
    if w > 0 { WinnerIs(live[1..], w - 1); }
  }

  function Newcomer(path: Path): Dome { Dome(path, false, false, None) }

  ghost predicate Inserted(live: seq<Dome>, k: nat, d: Dome, joined: seq<Dome>) {
    && k <= |live| && |joined| == |live| + 1 && joined[k] == d
    && (forall i {:trigger joined[i]} :: 0 <= i < k ==> joined[i] == live[i])
    && (forall i {:trigger joined[i]} :: k < i < |joined| ==> joined[i] == live[i - 1])
  }

  lemma InsertedAt(live: seq<Dome>, k: nat, d: Dome)
    requires k <= |live|
    ensures Inserted(live, k, d, live[..k] + [d] + live[k..])
  {
  }

  lemma InsertedSorted(live: seq<Dome>, path: Path)
    requires Sorted(live) && !Registered(live, path)
    ensures Sorted(Joined(live, path))
  {
    var k, joined := Place(live, path), Joined(live, path);
    InsertedAt(live, k, Newcomer(path));
    LaterPaths(live, path);
    hide Place;
    forall i, j | 0 <= i < j < |joined| ensures Before(joined[i].path, joined[j].path) {
      if i != k && j != k { assert Before(live[if i < k then i else i - 1].path, live[if j < k then j else j - 1].path); }
    }
  }

  lemma LaterPaths(live: seq<Dome>, path: Path)
    requires Sorted(live) && !Registered(live, path)
    ensures forall i :: Place(live, path) <= i < |live| ==> Before(path, live[i].path)
  {
    var k := Place(live, path);
    forall i | k <= i < |live| ensures Before(path, live[i].path) {
      PathsAreOrdered(live[k].path, path);
      if i > k { BeforeIsTransitive(path, live[k].path, live[i].path); }
    }
  }

  /** A dome that was not there before joins unseen. */
  lemma NewcomerJoins(live: seq<Dome>, db: Db, path: Path)
    requires OneSky(live, db) && !Registered(live, path)
    ensures OneSky(Joined(live, path), db) && Joined(live, path)[Place(live, path)] == Newcomer(path)
  {
    var k, joined := Place(live, path), Joined(live, path);
    InsertedSorted(live, path);
    InsertedAt(live, k, Newcomer(path));
    hide Joined, Place, Sorted, Squared, ShowsSky, Winner;
    InsertedWinner(live, k, joined, path);
    InsertedSquared(live, k, joined, path);
  }

  lemma InsertedWinner(live: seq<Dome>, k: nat, joined: seq<Dome>, path: Path)
    requires Inserted(live, k, Newcomer(path), joined)
    ensures Winner(joined) == (if Winner(live) < k then Winner(live) else Winner(live) + 1)
    ensures Due(joined) == Due(live) && Lit(joined) == Lit(live)
  {
    var w := Winner(live);
    var v := if w < k then w else w + 1;
    forall i | 0 <= i < v ensures !joined[i].eligible { if i != k { assert !live[if i < k then i else i - 1].eligible; } }
    assert v < |joined| ==> joined[v] == live[w];
    WinnerIs(joined, v);
  }

  lemma InsertedSquared(live: seq<Dome>, k: nat, joined: seq<Dome>, path: Path)
    requires Squared(live) && Inserted(live, k, Newcomer(path), joined)
    requires Winner(joined) == if Winner(live) < k then Winner(live) else Winner(live) + 1
    ensures Squared(joined)
  {
    forall i | 0 <= i < |joined| ensures joined[i].published <==> i == Winner(joined) {
      if i != k {
        var j := if i < k then i else i - 1;
        assert joined[i] == live[j] && (live[j].published <==> j == Winner(live));
      }
    }
  }

  /** Withdrawing a dome that holds the slot empties the server; any other
      changes nothing. */
  lemma WithdrawalReplays(live: seq<Dome>, db: Db, k: nat)
    requires OneSky(live, db) && k < |live|
    ensures var ops := Withdrawal(live[k]);
      && NeverTwo(db, ops) && Replay(db, ops).Some?
      && ShowsSky(Replay(db, ops).value, if live[k].published then None else Due(live))
  {
    hide NeverTwo, Replay, ShowsSky, Apply;
    if live[k].published {
      RemovalShows(db, Due(live), live[k].path);
      OneOp(db, Remove(Key(Environment, live[k].path)), Due(live), None);
    } else {
      NoOps(db, Due(live));
    }
  }

  lemma LeavingSettles(live: seq<Dome>, db: Db, k: nat, left: seq<Dome>, p: nat)
    requires OneSky(live, db) && k < |live| && Sorted(left)
    requires var sky := if live[k].published then None else Due(live);
      Fresh(left, p, sky, None) && forall mid :: ShowsSky(mid, sky) ==> Holds(left, mid, p, sky)
    ensures Arrives(Prepended(Withdrawal(live[k]), Arbitrated(left, None)), db)
  {
    WithdrawalReplays(live, db, k);
    var w, e, sky := Withdrawal(live[k]), Arbitrated(left, None), if live[k].published then None else Due(live);
    hide NeverTwo, Replay, Arbitrated, Withdrawal, Winner, OneSky, ShowsSky, Holds, Fresh;
    var mid := Replay(db, w).value;
    ArbitrationSettles(left, mid, p, sky, None);
    NeverTwoGrows(db, w, e.ops);
    ReplaySplits(db, w, e.ops);
  }

  /** A dome that turns out to have no data gives the slot up at once. */
  lemma UnreadableArrives(live: seq<Dome>, db: Db, k: nat, blank: Dome)
    requires OneSky(live, db) && k < |live| && blank == live[k].(eligible := false, published := false, payload := blank.payload)
    ensures Arrives(Prepended(Withdrawal(live[k]), Arbitrated(live[k := blank], None)), db)
  {
    var left, w := live[k := blank], Winner(live);
    if k != w { WinnerIs(left, w); }
    SkyHolds(live, db);
    hide NeverTwo, Replay, Arbitrated, Withdrawal, ShowsSky;
    LeavingSettles(live, db, k, left, w);
  }

  ghost predicate Erased(live: seq<Dome>, k: nat, left: seq<Dome>) {
    && k < |live| && |left| == |live| - 1
    && (forall i {:trigger left[i]} :: 0 <= i < k ==> left[i] == live[i])
    && (forall i {:trigger left[i]} :: k <= i < |left| ==> left[i] == live[i + 1])
  }

  lemma ErasedAt(live: seq<Dome>, k: nat)
    requires k < |live|
    ensures Erased(live, k, live[..k] + live[k + 1..])
  {
  }

  lemma ErasedSorted(live: seq<Dome>, k: nat, left: seq<Dome>)
    requires Sorted(live) && Erased(live, k, left)
    ensures Sorted(left)
  {
    forall i, j | 0 <= i < j < |left| ensures Before(left[i].path, left[j].path) {
      assert Before(live[if i < k then i else i + 1].path, live[if j < k then j else j + 1].path);
    }
  }

  lemma ErasedWinner(live: seq<Dome>, k: nat, left: seq<Dome>)
    requires Erased(live, k, left) && Winner(live) != k
    ensures Winner(left) == (if Winner(live) < k then Winner(live) else Winner(live) - 1)
    ensures Due(left) == Due(live) && Lit(left) == Lit(live)
  {
    var w := Winner(live);
    var p := if w < k then w else w - 1;
    forall i | 0 <= i < p ensures !left[i].eligible { assert !live[if i < k then i else i + 1].eligible; }
    assert p < |left| ==> left[p] == live[w];
    WinnerIs(left, p);
  }

  lemma ErasedPublished(live: seq<Dome>, k: nat, left: seq<Dome>, p: nat)
    requires Squared(live) && Erased(live, k, left)
    requires p == if Winner(live) < k then Winner(live) else if Winner(live) == k then |left| else Winner(live) - 1
    ensures forall i :: 0 <= i < |left| && left[i].published ==> i == p
    ensures p < |left| ==> left[p] == live[Winner(live)] && left[p].published && !live[k].published
    ensures p == |left| && Winner(live) != k ==> Winner(live) == |live|
  {
  }

  lemma DestructionArrives(live: seq<Dome>, db: Db, k: nat)
    requires OneSky(live, db) && k < |live|
    ensures Arrives(Prepended(Withdrawal(live[k]), Arbitrated(live[..k] + live[k + 1..], None)), db)
  {
    hide NeverTwo, Replay, Arbitrated, Withdrawal, ShowsSky;
    var left, w := live[..k] + live[k + 1..], Winner(live);
    var p := if w < k then w else if w == k then |left| else w - 1;
    ErasedAt(live, k);
    ErasedSorted(live, k, left);
    ErasedPublished(live, k, left, p);
    if w != k { ErasedWinner(live, k, left); }
    SkyHolds(live, db);
    LeavingSettles(live, db, k, left, p);
  }

  // ---------------------------------------------------------------- events

  datatype Event =
    | Born(path: Path, input: Option<Input>)
    | Dirty(path: Path, input: Option<Input>, light: bool, visibility: bool)
    | Died(path: Path)

  function Step(live: seq<Dome>, e: Event): Effect {
    match e
    case Born(path, input) => Constructed(live, path, input)
    case Dirty(path, input, light, visibility) => Dirtied(live, path, input, light, visibility)
    case Died(path) => Destroyed(live, path)
  }

  lemma BirthArrives(live: seq<Dome>, db: Db, path: Path, input: Option<Input>)
    requires OneSky(live, db)
    ensures Arrives(Constructed(live, path, input), db)
  {
    var k, joined := Place(live, path), Joined(live, path);
    if !Registered(live, path) {
      NewcomerJoins(live, db, path);
      hide OneSky, Joined, Place, Arrives;
      if input.Some? { RefreshArrives(joined, db, k, input.value, true, true, true); }
      else { UnreadableArrives(joined, db, k, joined[k].(eligible := false, published := false)); }
    } else {
      hide OneSky, Arrives;
      if input.Some? {
        RefreshArrives(live, db, k, input.value, true, true, true);
        RefreshForgets(live, k, input.value);
      } else {
        var blank := joined[k].(eligible := false, published := false);
        assert joined[k := blank] == live[k := blank];
        UnreadableArrives(live, db, k, blank);
      }
    }
  }

  /** A payload about to be rebuilt does not matter. */
  lemma RefreshForgets(live: seq<Dome>, k: nat, input: Input)
    requires k < |live|
    ensures Refreshed(live[k := live[k].(payload := None)], k, input, true, true, true) == Refreshed(live, k, input, true, true, true)
  {
    var d := live[k].(eligible := input.visible, payload := Some(input.payload));
    assert live[k := live[k].(payload := None)][k := d] == live[k := d];
  }

  /** Every event is accepted, leaves the registry square, and never puts up two
      environments. */
  lemma EventArrives(live: seq<Dome>, db: Db, e: Event)
    requires OneSky(live, db)
    ensures Arrives(Step(live, e), db)
  {
    match e {
      case Born(path, input) => BirthArrives(live, db, path, input);
      case Died(path) =>
        if Registered(live, path) { DestructionArrives(live, db, Place(live, path)); } else { NoOps(db, Due(live)); }
      case Dirty(path, input, light, visibility) =>
        if input.None? || !Registered(live, path) { NoOps(db, Due(live)); }
        else { RefreshArrives(live, db, Place(live, path), input.value, light, visibility, false); }
    }
  }

  // ---------------------------------------------------------------- the exact condition

  /** Whether a dome will contend for the slot once the event is heard. */
  predicate WillContend(d: Dome, e: Event) {
    if d.path != e.path then d.eligible
    else
      match e
      case Born(_, input) => input.Some? && input.value.visible
      case Dirty(_, input, light, visibility) => if input.Some? && (light || visibility) then input.value.visible else d.eligible
      case Died(_) => false
  }

  /** Its payload was never read, and the event does not read it. */
  predicate StaysUnread(d: Dome, e: Event) {
    && d.payload.None?
    && (d.path == e.path ==> !(e.Born? && e.input.Some?) && !(e.Dirty? && e.input.Some? && e.light))
  }

  /** A newcomer below this path takes the slot. */
  predicate Undercut(live: seq<Dome>, e: Event, path: Path) {
    e.Born? && !Registered(live, e.path) && e.input.Some? && e.input.value.visible && Before(e.path, path)
  }

  /** The event makes a dome whose payload was never read the lowest contender:
      by showing it, or by hiding, killing or losing the one ahead of it. */
  predicate BlankRises(live: seq<Dome>, e: Event) {
    exists i :: 0 <= i < |live| && RisesBlank(live, e, i)
  }

  predicate RisesBlank(live: seq<Dome>, e: Event, i: nat)
    requires i < |live|
  {
    && WillContend(live[i], e) && StaysUnread(live[i], e) && !Undercut(live, e, live[i].path)
    && forall j :: 0 <= j < i ==> !WillContend(live[j], e)
  }

  /** A registry after an event, dome by dome. */
  ghost predicate Heard(live: seq<Dome>, e: Event, next: seq<Dome>) {
    |next| == |live| && forall i :: 0 <= i < |live| ==>
      && next[i].eligible == WillContend(live[i], e)
      && (next[i].eligible ==> (next[i].payload.None? <==> StaysUnread(live[i], e)))
  }

  lemma HeardIsLit(live: seq<Dome>, e: Event, next: seq<Dome>)
    requires Heard(live, e, next) && forall path :: !Undercut(live, e, path)
    ensures Lit(next) <==> !BlankRises(live, e)
  {
    var w := Winner(next);
    if w < |next| && next[w].payload.None? { assert RisesBlank(live, e, w); }
    if BlankRises(live, e) {
      var i :| 0 <= i < |live| && RisesBlank(live, e, i);
      WinnerIs(next, i);
    }
  }

  lemma OnlyOneIs(live: seq<Dome>, path: Path)
    requires Sorted(live) && Registered(live, path)
    ensures forall i :: 0 <= i < |live| ==> (live[i].path == path <==> i == Place(live, path))
  {
    forall i | 0 <= i < |live| && live[i].path == path ensures i == Place(live, path) { DistinctPaths(live, i, Place(live, path)); }
  }

  lemma NobodyIs(live: seq<Dome>, path: Path)
    requires Sorted(live) && !Registered(live, path)
    ensures forall i :: 0 <= i < |live| ==> live[i].path != path
  {
    LaterPaths(live, path);
    forall i | 0 <= i < |live| ensures live[i].path != path { PathsAreOrdered(live[i].path, path); }
  }

  lemma RefreshedHeard(live: seq<Dome>, e: Event, k: nat, input: Input, light: bool, visibility: bool, born: bool)
    requires Sorted(live) && Squared(live) && k < |live|
    requires forall i :: 0 <= i < |live| ==> (live[i].path == e.path <==> i == k)
    requires if born then e == Born(e.path, Some(input)) && light && visibility else e == Dirty(e.path, Some(input), light, visibility)
    ensures Heard(live, e, Refreshed(live, k, input, light, visibility, born).live)
  {
    RefreshReads(live, k, input, light, visibility, born);
    hide Refreshed;
  }

  lemma WithdrawnHeard(live: seq<Dome>, e: Event, k: nat, blank: Dome)
    requires Squared(live) && k < |live| && e == Born(e.path, None)
    requires forall i :: 0 <= i < |live| ==> (live[i].path == e.path <==> i == k)
    requires blank == live[k].(eligible := false, published := false, payload := blank.payload)
    ensures Heard(live, e, Arbitrated(live[k := blank], None).live)
  {
    ArbitratedIs(live[k := blank], Winner(live), None);
  }

  /** The registry with the dome still in it, but out of the running. */
  function Gone(live: seq<Dome>, k: nat): seq<Dome>
    requires k < |live|
  {
    live[k := live[k].(eligible := false, published := false)]
  }

  lemma GoneIsLit(live: seq<Dome>, k: nat, left: seq<Dome>)
    requires k < |live| && left == live[..k] + live[k + 1..]
    ensures Lit(left) == Lit(Gone(live, k))
  {
    var gone := Gone(live, k);
    ErasedAt(gone, k);
    assert left == gone[..k] + gone[k + 1..];
    hide Winner, Erased;
    if Winner(gone) < |gone| { assert gone[Winner(gone)].eligible; }
    ErasedWinner(gone, k, left);
  }

  lemma ArbitrationKeepsLight(live: seq<Dome>, p: nat)
    requires forall i :: 0 <= i < |live| && live[i].published ==> i == p
    ensures Lit(Arbitrated(live, None).live) == Lit(live)
  {
    ArbitratedIs(live, p, None);
    hide Arbitrated, HandOver;
    SameLight(live, Arbitrated(live, None).live);
  }

  /** A dome that leaves takes nobody's payload along. */
  lemma DeathIsLit(live: seq<Dome>, e: Event)
    requires Sorted(live) && Squared(live) && e.Died? && Registered(live, e.path)
    ensures Lit(Destroyed(live, e.path).live) <==> !BlankRises(live, e)
  {
    var k := Place(live, e.path);
    var left := live[..k] + live[k + 1..];
    OnlyOneIs(live, e.path);
    HeardIsLit(live, e, Gone(live, k));
    DestroyedIs(live, e.path);
    GoneIsLit(live, k, left);
    ErasedAt(live, k);
    AtMostOneLeft(live, k, left);
    hide Winner, Lit, Arbitrated, BlankRises, Erased;
    ArbitrationKeepsLight(left, if Winner(live) < k then Winner(live) else if Winner(live) == k then |left| else Winner(live) - 1);
  }

  lemma SameLight(a: seq<Dome>, b: seq<Dome>)
    requires |a| == |b| && forall i :: 0 <= i < |a| ==> b[i] == a[i].(published := b[i].published)
    ensures Lit(a) == Lit(b)
  {
    SameWinner(a, b);
  }

  /** A newcomer is heard among the others; unseen, or read. */
  lemma NewcomerIsLit(live: seq<Dome>, db: Db, e: Event)
    requires OneSky(live, db) && e.Born? && !Registered(live, e.path)
    ensures Lit(Constructed(live, e.path, e.input).live) && !BlankRises(live, e)
  {
    var k, joined := Place(live, e.path), Joined(live, e.path);
    NewcomerJoins(live, db, e.path);
    ConstructedIs(live, e.path, e.input);
    var next := Constructed(live, e.path, e.input).live;
    if e.input.Some? { RefreshReads(joined, k, e.input.value, true, true, true); }
    else { ArbitratedIs(joined[k := joined[k].(eligible := false, published := false)], Winner(joined), None); }
    hide Constructed, Refreshed, Arbitrated, Joined, Place, ShowsSky;
    assert |next| == |joined| && forall i :: 0 <= i < |joined| && i != k ==> next[i].eligible == joined[i].eligible && next[i].payload == joined[i].payload;
    NewcomerLit(joined, next, k);
    NewcomerRises(live, e);
  }

  lemma NewcomerLit(joined: seq<Dome>, next: seq<Dome>, k: nat)
    requires Lit(joined) && |next| == |joined| && k < |joined| && !joined[k].eligible
    requires forall i :: 0 <= i < |joined| && i != k ==> next[i].eligible == joined[i].eligible && next[i].payload == joined[i].payload
    requires next[k].eligible ==> next[k].payload.Some?
    ensures Lit(next)
  {
    var w := Winner(joined);
    WinnerIs(next, if next[k].eligible && k < w then k else w);
  }

  /** Nobody blank was lowest before, and a newcomer lifts nobody. */
  lemma NewcomerRises(live: seq<Dome>, e: Event)
    requires Sorted(live) && Lit(live) && e.Born? && !Registered(live, e.path)
    ensures !BlankRises(live, e)
  {
    NobodyIs(live, e.path);
    if BlankRises(live, e) {
      var i :| 0 <= i < |live| && RisesBlank(live, e, i);
      assert forall j :: 0 <= j < |live| ==> WillContend(live[j], e) == live[j].eligible;
      WinnerIs(live, i);
    }
  }

  /** Nothing is heard: nobody's standing moves. */
  lemma UnheardIsLit(live: seq<Dome>, e: Event)
    requires Sorted(live) && !e.Born? && (Registered(live, e.path) ==> e.Dirty? && e.input.None?)
    ensures Lit(live) <==> !BlankRises(live, e)
  {
    if !Registered(live, e.path) { NobodyIs(live, e.path); }
    HeardIsLit(live, e, live);
  }

  lemma ResyncIsLit(live: seq<Dome>, db: Db, e: Event)
    requires OneSky(live, db) && e.Born? && Registered(live, e.path)
    ensures Lit(Constructed(live, e.path, e.input).live) <==> !BlankRises(live, e)
  {
    var k := Place(live, e.path);
    OnlyOneIs(live, e.path);
    if e.input.Some? {
      RefreshForgets(live, k, e.input.value);
      RefreshedHeard(live, e, k, e.input.value, true, true, true);
    } else {
      var blank := live[k].(eligible := false, published := false, payload := None);
      ConstructedIs(live, e.path, None);
      assert Joined(live, e.path)[k := blank] == live[k := blank];
      WithdrawnHeard(live, e, k, blank);
    }
    HeardIsLit(live, e, Constructed(live, e.path, e.input).live);
  }

  /** The winner after an event has been read, exactly when no blank dome rises. */
  lemma LitExactly(live: seq<Dome>, db: Db, e: Event)
    requires OneSky(live, db)
    ensures Lit(Step(live, e).live) <==> !BlankRises(live, e)
  {
    hide ShowsSky, Constructed, Refreshed, Winner, BlankRises, Arbitrated;
    match e {
      case Born(path, input) =>
        if Registered(live, path) { ResyncIsLit(live, db, e); } else { NewcomerIsLit(live, db, e); }
      case Died(path) =>
        if Registered(live, path) { DeathIsLit(live, e); } else { UnheardIsLit(live, e); }
      case Dirty(path, input, light, visibility) =>
        if input.None? || !Registered(live, path) {
          UnheardIsLit(live, e);
        } else {
          OnlyOneIs(live, path);
          RefreshedHeard(live, e, Place(live, path), input.value, light, visibility, false);
          HeardIsLit(live, e, Step(live, e).live);
        }
    }
  }

  /** Every event is accepted and never puts up two environments. Afterwards the
      server shows exactly the lowest eligible dome, unless the event makes a
      dome whose payload was never read the lowest; then the server has nothing
      under that dome's name. */
  lemma EventKeeps(live: seq<Dome>, db: Db, e: Event)
    requires OneSky(live, db)
    ensures var next := Step(live, e);
      && NeverTwo(db, next.ops) && Replay(db, next.ops).Some?
      && var after := Replay(db, next.ops).value;
      && (OneSky(next.live, after) <==> !BlankRises(live, e))
      && (BlankRises(live, e) ==>
            && Winner(next.live) < |next.live|
            && var path := next.live[Winner(next.live)].path;
            path != EmptyPath ==> Key(Environment, path) !in after)
  {
    EventArrives(live, db, e);
    LitExactly(live, db, e);
    hide Step, BlankRises, NeverTwo, Replay, Winner, Sorted, Squared;
    var next := Step(live, e);
    var after := Replay(db, next.ops).value;
    if BlankRises(live, e) {
      assert Get(after, Key(Environment, next.live[Winner(next.live)].path)) == if next.live[Winner(next.live)].path == EmptyPath then Some(BLANK) else None;
    }
  }

  // ---------------------------------------------------------------- runs

  function After(live: seq<Dome>, events: seq<Event>): Effect
    decreases |events|
  {
    if events == [] then Effect(live, [])
    else
      var e := Step(live, events[0]);
      Prepended(e.ops, After(e.live, events[1..]))
  }

  predicate NeverRisesBlank(live: seq<Dome>, events: seq<Event>)
    decreases |events|
  {
    events == [] || (!BlankRises(live, events[0]) && NeverRisesBlank(Step(live, events[0]).live, events[1..]))
  }

  ghost predicate SkyThroughout(live: seq<Dome>, db: Db, events: seq<Event>)
    decreases |events|
  {
    && OneSky(live, db)
    && (events != [] ==>
          var e := Step(live, events[0]);
          Replay(db, e.ops).Some? && SkyThroughout(e.live, Replay(db, e.ops).value, events[1..]))
  }

  /** Over every run: one sky after every event, exactly when no event makes a
      dome the lowest whose payload was never read. */
  lemma {:induction false} RunKeepsOneSky(live: seq<Dome>, db: Db, events: seq<Event>)
    requires OneSky(live, db)
    ensures SkyThroughout(live, db, events) <==> NeverRisesBlank(live, events)
    decreases |events|
  {
    if events != [] {
      hide OneSky, Step, BlankRises, NeverTwo, Replay;
      EventKeeps(live, db, events[0]);
      var e := Step(live, events[0]);
      var after := Replay(db, e.ops).value;
      if !BlankRises(live, events[0]) {
        RunKeepsOneSky(e.live, after, events[1..]);
      } else {
        SkyNow(e.live, after, events[1..]);
      }
    }
  }

  lemma SkyNow(live: seq<Dome>, db: Db, events: seq<Event>)
    requires !OneSky(live, db)
    ensures !SkyThroughout(live, db, events)
  {
  }

  lemma NothingYet(db: Db)
    requires forall name :: Key(Environment, name) !in db
    ensures OneSky([], db)
  {
  }

  // ---------------------------------------------------------------- against the scene

  /** Every dome there is, with its data or without any. */
  type Scene = map<Path, Option<Input>>

  /** The registry has read the scene as it is. */
  ghost predicate Reads(live: seq<Dome>, scene: Scene) {
    && (forall i :: 0 <= i < |live| ==> live[i].path in scene && Read(live[i], scene[live[i].path]))
    && (forall p :: p in scene ==> exists i :: 0 <= i < |live| && live[i].path == p)
  }

  predicate Read(d: Dome, input: Option<Input>) {
    if input.None? then !d.eligible else d.eligible == input.value.visible && d.payload == Some(input.value.payload)
  }

  /** The scene after an event, which carries what its dome now reads. */
  function SceneAfter(scene: Scene, e: Event): Scene {
    match e
    case Born(path, input) => scene[path := input]
    case Dirty(path, input, _, _) => scene[path := input]
    case Died(path) => scene - {path}
  }

  /** The dirty flags cover what changed; data that appears where there was none
      changes the light, and data does not vanish without a resync. */
  predicate Covers(scene: Scene, e: Event) {
    match e
    case Born(_, _) => true
    case Died(_) => true
    case Dirty(path, input, light, visibility) =>
      && path in scene && (input.None? ==> scene[path].None?)
      && (input.Some? && scene[path].None? ==> light)
      && (input.Some? && scene[path].Some? && input.value.payload != scene[path].value.payload ==> light)
      && (input.Some? && scene[path].Some? && input.value.visible != scene[path].value.visible ==> light || visibility)
  }

  /** Just the lowest visible dome's payload, or nothing. */
  ghost predicate IsSky(scene: Scene, db: Db) {
    forall name :: Get(db, Key(Environment, name)) ==
      if Lowest(scene, name) then Some(BLANK.(source := Some(scene[name].value.payload))) else None
  }

  predicate Contends(scene: Scene, p: Path) { p in scene && scene[p].Some? && scene[p].value.visible }

  ghost predicate Lowest(scene: Scene, p: Path) {
    Contends(scene, p) && forall q :: Contends(scene, q) ==> q == p || Before(p, q)
  }

  lemma ReadIsLit(live: seq<Dome>, scene: Scene)
    requires Reads(live, scene)
    ensures Lit(live)
  {
    var w := Winner(live);
    if w < |live| { assert Read(live[w], scene[live[w].path]); }
  }

  lemma DueIsSky(live: seq<Dome>, scene: Scene, db: Db)
    requires Sorted(live) && Reads(live, scene) && ShowsSky(db, Due(live))
    ensures IsSky(scene, db)
  {
    var w := Winner(live);
    ReadIsLit(live, scene);
    forall q | Contends(scene, q) ensures w < |live| && (q == live[w].path || Before(live[w].path, q)) {
      var i :| 0 <= i < |live| && live[i].path == q;
      assert Read(live[i], scene[q]);
      assert i >= w;
    }
    if w < |live| {
      assert Read(live[w], scene[live[w].path]);
      assert Lowest(scene, live[w].path);
    }
    forall name ensures Get(db, Key(Environment, name)) ==
      if Lowest(scene, name) then Some(BLANK.(source := Some(scene[name].value.payload))) else None
    {
      if Lowest(scene, name) { PathsAreOrdered(name, live[w].path); }
    }
  }

  lemma PlaceFinds(live: seq<Dome>, i: nat)
    requires Sorted(live) && i < |live|
    ensures Registered(live, live[i].path) && Place(live, live[i].path) == i
  {
    PathsAreOrdered(live[i].path, live[i].path);
    assert forall j :: 0 <= j < i ==> Before(live[j].path, live[i].path);
  }

  /** A refreshed registry differs only at the dome re-read, and in who is published. */
  lemma RefreshReads(live: seq<Dome>, k: nat, input: Input, light: bool, visibility: bool, born: bool)
    requires Squared(live) && k < |live|
    ensures var e := Refreshed(live, k, input, light, visibility, born).live;
      && |e| == |live| && (forall i :: 0 <= i < |live| && i != k ==> e[i] == live[i].(published := e[i].published))
      && e[k].path == live[k].path
      && e[k].eligible == (if born || light || visibility then input.visible else live[k].eligible)
      && e[k].payload == (if born || light then Some(input.payload) else live[k].payload)
  {
    if born || light || visibility {
      var rebuilt := born || light;
      var d := live[k].(eligible := input.visible, payload := if rebuilt then Some(input.payload) else live[k].payload);
      ArbitratedIs(live[k := d], Winner(live), if rebuilt then Some(d.path) else None);
    }
  }

  /** One dome read anew, the others as they were. */
  lemma OneReadAnew(live: seq<Dome>, next: seq<Dome>, scene: Scene, after: Scene, k: nat)
    requires Sorted(live) && Reads(live, scene) && k < |live| && |next| == |live| && next[k].path == live[k].path
    requires forall i :: 0 <= i < |live| && i != k ==> next[i] == live[i].(published := next[i].published)
    requires live[k].path in after && after == scene[live[k].path := after[live[k].path]] && Read(next[k], after[live[k].path])
    ensures Reads(next, after)
  {
    forall j | 0 <= j < |next| ensures next[j].path in after && Read(next[j], after[next[j].path]) {
      if j != k {
        assert Read(live[j], scene[live[j].path]);
        if live[j].path == live[k].path { DistinctPaths(live, j, k); }
      }
    }
    forall p | p in after ensures exists j :: 0 <= j < |next| && next[j].path == p {
      assert p in scene;
      var j :| 0 <= j < |live| && live[j].path == p;
      assert next[j].path == p;
    }
  }

  lemma DirtyReads(live: seq<Dome>, scene: Scene, e: Event)
    requires Sorted(live) && Squared(live) && Reads(live, scene) && e.Dirty? && Covers(scene, e)
    ensures Reads(Step(live, e).live, SceneAfter(scene, e))
  {
    var i :| 0 <= i < |live| && live[i].path == e.path;
    assert Read(live[i], scene[e.path]);
    PlaceFinds(live, i);
    hide Sorted, Squared, Place, Winner, Refreshed;
    if e.input.Some? {
      RefreshReads(live, i, e.input.value, e.light, e.visibility, false);
    }
    OneReadAnew(live, Step(live, e).live, scene, SceneAfter(scene, e), i);
  }

  lemma ResyncReads(live: seq<Dome>, scene: Scene, path: Path, input: Input)
    requires Sorted(live) && Squared(live) && Reads(live, scene) && Registered(live, path)
    ensures Reads(Constructed(live, path, Some(input)).live, scene[path := Some(input)])
  {
    var k := Place(live, path);
    RefreshForgets(live, k, input);
    RefreshReads(live, k, input, true, true, true);
    hide Refreshed, Squared, Winner;
    OneReadAnew(live, Constructed(live, path, Some(input)).live, scene, scene[path := Some(input)], k);
  }

  lemma BlankReads(live: seq<Dome>, scene: Scene, k: nat, blank: Dome)
    requires Sorted(live) && Squared(live) && Reads(live, scene) && k < |live|
    requires blank == live[k].(eligible := false, published := false, payload := blank.payload)
    ensures Reads(Arbitrated(live[k := blank], None).live, scene[live[k].path := None])
  {
    ArbitratedIs(live[k := blank], Winner(live), None);
    hide Arbitrated, Squared, Winner;
    OneReadAnew(live, Arbitrated(live[k := blank], None).live, scene, scene[live[k].path := None], k);
  }

  lemma ConstructedIs(live: seq<Dome>, path: Path, input: Option<Input>)
    ensures var k, joined := Place(live, path), Joined(live, path);
      Constructed(live, path, input).live
        == if input.Some? then Refreshed(joined, k, input.value, true, true, true).live
           else Arbitrated(joined[k := joined[k].(eligible := false, published := false)], None).live
  {
    hide Joined, Place, Refreshed, Arbitrated;
  }

  lemma LostReads(live: seq<Dome>, scene: Scene, path: Path)
    requires Sorted(live) && Squared(live) && Reads(live, scene) && Registered(live, path)
    ensures Reads(Constructed(live, path, None).live, scene[path := None])
  {
    ConstructedIs(live, path, None);
    hide Arbitrated, Squared, Winner, Reads, Sorted, Constructed, Place;
    var k := Place(live, path);
    var blank := live[k].(eligible := false, published := false, payload := None);
    assert Joined(live, path) == live[k := live[k].(payload := None)];
    assert Joined(live, path)[k := blank] == live[k := blank];
    BlankReads(live, scene, k, blank);
  }

  lemma NewReads(live: seq<Dome>, scene: Scene, k: nat, path: Path, joined: seq<Dome>)
    requires Reads(live, scene) && path !in scene && Inserted(live, k, Newcomer(path), joined)
    ensures Reads(joined, scene[path := None])
  {
    var after := scene[path := None];
    forall j | 0 <= j < |joined| ensures joined[j].path in after && Read(joined[j], after[joined[j].path]) {
      if j != k {
        var i := if j < k then j else j - 1;
        assert joined[j] == live[i] && Read(live[i], scene[live[i].path]);
      }
    }
    forall p | p in after ensures exists j :: 0 <= j < |joined| && joined[j].path == p {
      if p == path {
        assert joined[k].path == p;
      } else {
        var i :| 0 <= i < |live| && live[i].path == p;
        assert joined[if i < k then i else i + 1].path == p;
      }
    }
  }

  lemma GoneReads(live: seq<Dome>, scene: Scene, k: nat, left: seq<Dome>, next: seq<Dome>)
    requires Sorted(live) && Reads(live, scene) && Erased(live, k, left) && |next| == |left|
    requires forall i :: 0 <= i < |left| ==> next[i] == left[i].(published := next[i].published)
    ensures Reads(next, scene - {live[k].path})
  {
    var after := scene - {live[k].path};
    forall j | 0 <= j < |next| ensures next[j].path in after && Read(next[j], after[next[j].path]) {
      var i := if j < k then j else j + 1;
      assert left[j] == live[i] && Read(live[i], scene[live[i].path]);
      if live[i].path == live[k].path { DistinctPaths(live, i, k); }
    }
    forall q | q in after ensures exists j :: 0 <= j < |next| && next[j].path == q {
      var i :| 0 <= i < |live| && live[i].path == q;
      var j := if i < k then i else i - 1;
      assert left[j] == live[i];
      assert next[j].path == q;
    }
  }

  lemma DeathReads(live: seq<Dome>, scene: Scene, path: Path)
    requires Sorted(live) && Squared(live) && Reads(live, scene) && Registered(live, path)
    ensures Reads(Destroyed(live, path).live, scene - {path})
  {
    var k := Place(live, path);
    var left := live[..k] + live[k + 1..];
    ErasedAt(live, k);
    AtMostOneLeft(live, k, left);
    DestroyedIs(live, path);
    var p := if Winner(live) < k then Winner(live) else if Winner(live) == k then |left| else Winner(live) - 1;
    hide Sorted, Squared, Reads, Winner, Erased, Arbitrated, Place, Destroyed, Registered;
    ArbitratedIs(left, p, None);
    GoneReads(live, scene, k, left, Arbitrated(left, None).live);
  }

  lemma DestroyedIs(live: seq<Dome>, path: Path)
    requires Registered(live, path)
    ensures var k := Place(live, path);
      live[k].path == path && Destroyed(live, path).live == Arbitrated(live[..k] + live[k + 1..], None).live
  {
  }

  lemma AtMostOneLeft(live: seq<Dome>, k: nat, left: seq<Dome>)
    requires Squared(live) && Erased(live, k, left)
    ensures var p := if Winner(live) < k then Winner(live) else if Winner(live) == k then |left| else Winner(live) - 1;
      forall i :: 0 <= i < |left| && left[i].published ==> i == p
  {
  }

  lemma UnregisteredIsAbsent(live: seq<Dome>, scene: Scene, path: Path)
    requires Sorted(live) && Reads(live, scene) && !Registered(live, path)
    ensures path !in scene
  {
    if path in scene {
      var i :| 0 <= i < |live| && live[i].path == path;
      PlaceFinds(live, i);
    }
  }

  lemma BirthReads(live: seq<Dome>, db: Db, scene: Scene, path: Path, input: Option<Input>)
    requires OneSky(live, db) && Reads(live, scene)
    ensures Reads(Constructed(live, path, input).live, scene[path := input])
  {
    if Registered(live, path) {
      hide Reads, Constructed, Sorted, Squared;
      if input.Some? { ResyncReads(live, scene, path, input.value); } else { LostReads(live, scene, path); }
    } else {
      hide Reads, Constructed, OneSky;
      NewcomerReads(live, db, scene, path, input);
    }
  }

  /** A newcomer joins as a dome without data. */
  lemma NewcomerJoinsScene(live: seq<Dome>, db: Db, scene: Scene, path: Path)
    requires OneSky(live, db) && Reads(live, scene) && !Registered(live, path)
    ensures var joined := Joined(live, path);
      && Sorted(joined) && Squared(joined) && Reads(joined, scene[path := None]) && path !in scene
      && joined[Place(live, path)] == Newcomer(path)
  {
    UnregisteredIsAbsent(live, scene, path);
    NewcomerJoins(live, db, path);
    InsertedAt(live, Place(live, path), Newcomer(path));
    hide Reads, ShowsSky, Sorted, Squared, Place, Inserted;
    NewReads(live, scene, Place(live, path), path, Joined(live, path));
  }

  lemma NewcomerReads(live: seq<Dome>, db: Db, scene: Scene, path: Path, input: Option<Input>)
    requires OneSky(live, db) && Reads(live, scene) && !Registered(live, path)
    ensures Reads(Constructed(live, path, input).live, scene[path := input])
  {
    hide OneSky, Reads, Constructed, Joined, Place, Sorted, Squared, Refreshed, Arbitrated;
    var k, joined := Place(live, path), Joined(live, path);
    NewcomerJoinsScene(live, db, scene, path);
    ConstructedIs(live, path, input);
    if input.Some? {
      RefreshReads(joined, k, input.value, true, true, true);
      assert scene[path := None][path := input] == scene[path := input];
      OneReadAnew(joined, Constructed(live, path, input).live, scene[path := None], scene[path := input], k);
    } else {
      assert scene[path := None][path := None] == scene[path := None];
      BlankReads(joined, scene[path := None], k, joined[k].(eligible := false, published := false));
    }
  }

  /** One event delivered in full: the registry has read the scene again. */
  lemma EventReads(live: seq<Dome>, db: Db, scene: Scene, e: Event)
    requires OneSky(live, db) && Reads(live, scene) && Covers(scene, e)
    ensures Reads(Step(live, e).live, SceneAfter(scene, e))
  {
    match e {
      case Born(path, input) =>
        hide Reads, Constructed;
        BirthReads(live, db, scene, path, input);
      case Dirty(_, _, _, _) => DirtyReads(live, scene, e);
      case Died(path) =>
        if Registered(live, path) {
          hide Reads, Destroyed;
          DeathReads(live, scene, path);
        } else {
          UnregisteredIsAbsent(live, scene, path);
          assert scene - {path} == scene;
        }
    }
  }

  predicate AllCovered(scene: Scene, events: seq<Event>)
    decreases |events|
  {
    events == [] || (Covers(scene, events[0]) && AllCovered(SceneAfter(scene, events[0]), events[1..]))
  }

  function SceneLeft(scene: Scene, events: seq<Event>): Scene
    decreases |events|
  {
    if events == [] then scene else SceneLeft(SceneAfter(scene, events[0]), events[1..])
  }

  lemma RunStep(live: seq<Dome>, scene: Scene, events: seq<Event>)
    requires events != []
    ensures var e, rest := Step(live, events[0]), events[1..];
      After(live, events).ops == e.ops + After(e.live, rest).ops
    ensures SceneLeft(scene, events) == SceneLeft(SceneAfter(scene, events[0]), events[1..])
    ensures AllCovered(scene, events) ==> Covers(scene, events[0]) && AllCovered(SceneAfter(scene, events[0]), events[1..])
  {
    hide Step, SceneAfter, Covers;
  }

  /** One event delivered in full keeps one sky. */
  lemma CoveredKeeps(live: seq<Dome>, db: Db, scene: Scene, e: Event)
    requires OneSky(live, db) && Reads(live, scene) && Covers(scene, e)
    ensures var next := Step(live, e);
      && NeverTwo(db, next.ops) && Replay(db, next.ops).Some?
      && OneSky(next.live, Replay(db, next.ops).value) && Reads(next.live, SceneAfter(scene, e)) && !BlankRises(live, e)
  {
    hide NeverTwo, Replay, Reads, Step, BlankRises, Covers, Sorted, Squared, ShowsSky;
    EventReads(live, db, scene, e);
    EventKeeps(live, db, e);
    LitExactly(live, db, e);
    ReadIsLit(Step(live, e).live, SceneAfter(scene, e));
  }

  /** One sky, never dark: when every change is delivered, what the ops leave on
      the server is just the lowest visible dome's payload, or nothing if no dome
      is visible, and at no point were there two. */
  lemma {:induction false} SkyFollowsScene(live: seq<Dome>, db: Db, scene: Scene, events: seq<Event>)
    requires OneSky(live, db) && Reads(live, scene) && AllCovered(scene, events)
    ensures var ops := After(live, events).ops;
      NeverTwo(db, ops) && Replay(db, ops).Some? && IsSky(SceneLeft(scene, events), Replay(db, ops).value)
    decreases |events|
  {
    if events == [] {
      NoOps(db, Due(live));
      DueIsSky(live, scene, db);
    } else {
      hide *;
      var e := Step(live, events[0]);
      var later := After(e.live, events[1..]).ops;
      RunStep(live, scene, events);
      CoveredKeeps(live, db, scene, events[0]);
      var mid := Replay(db, e.ops).value;
      SkyFollowsScene(e.live, mid, SceneAfter(scene, events[0]), events[1..]);
      NeverTwoGrows(db, e.ops, later);
      ReplaySplits(db, e.ops, later);
    }
  }

  // ---------------------------------------------------------------- a blank sky

  /** A dome born without data, then made visible, then hidden. */
  function Blanked(path: Path, payload: Payload): seq<Event> {
    [Born(path, None), Dirty(path, Some(Input(true, payload)), false, true), Dirty(path, Some(Input(false, payload)), false, true)]
  }

  /** Arbitration with a single dome. */
  lemma Alone(d: Dome, refreshed: Option<Path>)
    ensures Arbitrated([d], refreshed) == Effect([d.(published := d.eligible)],
      if !d.eligible then Withdrawal(d) else if !d.published || refreshed == Some(d.path) then [PatchOf(d)] else [])
  {
    ArbitratedIs([d], 0, refreshed);
    WinnerIs([d], if d.eligible then 0 else 1);
    var e := Arbitrated([d], refreshed);
    hide Arbitrated;
    assert e.live == [e.live[0]];
  }

  lemma BornUnread(path: Path)
    ensures Step([], Born(path, None)) == Effect([Newcomer(path)], [])
  {
    var d := Newcomer(path);
    assert Joined([], path) == [d];
    assert [d][0 := d.(eligible := false, published := false)] == [d];
    Alone(d, None);
  }

  lemma ShownOrHidden(d: Dome, input: Input)
    ensures Step([d], Dirty(d.path, Some(input), false, true)) == Arbitrated([d.(eligible := input.visible)], None)
  {
    PathsAreOrdered(d.path, d.path);
    assert Place([d], d.path) == 0;
    assert [d][0 := d.(eligible := input.visible)] == [d.(eligible := input.visible)];
  }

  /** It publishes a patch that names nothing, and the removal that follows is of
      an object that is not there: the server refuses it. */
  lemma BlankSkyIsRefused(path: Path, payload: Payload)
    requires path != EmptyPath
    ensures After([], Blanked(path, payload)).ops == [Patch(Key(Environment, EmptyPath), BLANK), Remove(Key(Environment, path))]
    ensures Replay(map[], After([], Blanked(path, payload)).ops) == None
  {
    var d := Newcomer(path);
    ThreeEvents([], Blanked(path, payload));
    BornUnread(path);
    ShownOrHidden(d, Input(true, payload));
    Alone(d.(eligible := true), None);
    var shown := d.(eligible := true, published := true);
    ShownOrHidden(shown, Input(false, payload));
    Alone(shown.(eligible := false), None);
    hide Step, Arbitrated, Replay, After;
    var ops: seq<Op> := [Patch(Key(Environment, EmptyPath), BLANK), Remove(Key(Environment, path))];
    assert After([], Blanked(path, payload)).ops == ops;
    NothingToRemove(path);
  }

  lemma NothingToRemove(path: Path)
    requires path != EmptyPath
    ensures Replay(map[], [Patch(Key(Environment, EmptyPath), BLANK), Remove(Key(Environment, path))]) == None
  {
    var ops: seq<Op> := [Patch(Key(Environment, EmptyPath), BLANK), Remove(Key(Environment, path))];
    assert ops[1..] == [Remove(Key(Environment, path))];
  }

  lemma ThreeEvents(live: seq<Dome>, events: seq<Event>)
    requires |events| == 3
    ensures var e1 := Step(live, events[0]);
      var e2 := Step(e1.live, events[1]);
      var e3 := Step(e2.live, events[2]);
      After(live, events) == Effect(e3.live, e1.ops + (e2.ops + (e3.ops + [])))
  {
    var e1 := Step(live, events[0]);
    var e2 := Step(e1.live, events[1]);
    assert After(e2.live, events[1..][1..]) == Prepended(Step(e2.live, events[2]).ops, After(Step(e2.live, events[2]).live, events[1..][1..][1..]));
  }

  // ---------------------------------------------------------------- the translators' shared registry

  /** The live domes in path order, beside the pending ops. */
  class Registry {
    var live: seq<Dome>
    const pending: ChangeSet

    constructor (pending: ChangeSet)
      ensures live == [] && this.pending == pending
    {
      live := [];
      this.pending := pending;
    }

    /** Give the slot up, if this dome holds it. */
    method Withdraw(k: nat)
      requires k < |live|
      modifies this, pending
      ensures live == old(live)[k := old(live)[k].(published := false)] && pending.ops == old(pending.ops) + Withdrawal(old(live)[k])
    {
      if live[k].published {
        pending.PushBack(Remove(Key(Environment, live[k].path)));
        live := live[k := live[k].(published := false)];
      } else {
        assert live[k := live[k].(published := false)] == live;
      }
    }

    /** Append the cached patch and take the slot. */
    method Take(k: nat)
      requires k < |live|
      modifies this, pending
      ensures live == old(live)[k := old(live)[k].(published := true)] && pending.ops == old(pending.ops) + [PatchOf(old(live)[k])]
    {
      pending.PushBack(PatchOf(live[k]));
      live := live[k := live[k].(published := true)];
    }

    method FindWinner() returns (w: nat)
      ensures w == Winner(live)
    {
      w := 0;
      while w < |live| && !live[w].eligible
        invariant w <= |live| && forall i :: 0 <= i < w ==> !live[i].eligible
      {
        w := w + 1;
      }
      WinnerIs(live, w);
    }

    /** Demotions first, then the winner. */
    method Arbitrate(refreshed: Option<Path>)
      modifies this, pending
      ensures live == Arbitrated(old(live), refreshed).live && pending.ops == old(pending.ops) + Arbitrated(old(live), refreshed).ops
    {
      ghost var was := live;
      var w := FindWinner();
      for k := 0 to |live|
        invariant |live| == |was| && live == Demoted(was, w, k).live && pending.ops == old(pending.ops) + Demoted(was, w, k).ops
      {
        DemotedIs(was, w, k);
        if k != w {
          Withdraw(k);
        }
      }
      DemotedIs(was, w, |was|);
      if w < |live| && (!live[w].published || refreshed == Some(live[w].path)) {
        Take(w);
      }
    }

    /** Re-read what is dirty, then arbitrate. */
    method Refresh(k: nat, input: Input, light: bool, visibility: bool, born: bool)
      requires k < |live|
      modifies this, pending
      ensures var e := Refreshed(old(live), k, input, light, visibility, born);
        live == e.live && pending.ops == old(pending.ops) + e.ops
    {
      if !born && !light && !visibility { return; }
      live := live[k := live[k].(eligible := input.visible)];
      var rebuilt := born || light;
      if rebuilt {
        live := live[k := live[k].(payload := Some(input.payload))];
      }
      var d := old(live)[k].(eligible := input.visible, payload := if rebuilt then Some(input.payload) else old(live)[k].payload);
      assert live == old(live)[k := d];
      Arbitrate(if rebuilt then Some(live[k].path) else None);
    }

    /** A dome's place in the registry, new or inherited. */
    method Register(path: Path) returns (k: nat)
      modifies this, pending
      ensures live == Joined(old(live), path) && pending.ops == old(pending.ops) && k == Place(old(live), path)
    {
      k := Find(path);
      if k < |live| && live[k].path == path {
        live := live[k := live[k].(payload := None)];
      } else {
        live := live[..k] + [Dome(path, false, false, None)] + live[k..];
      }
    }

    method Find(path: Path) returns (k: nat)
      ensures k == Place(live, path)
    {
      k := 0;
      while k < |live| && Before(live[k].path, path)
        invariant k <= |live| && forall i :: 0 <= i < k ==> Before(live[i].path, path)
      {
        k := k + 1;
      }
      PlaceIs(live, path, k);
    }

    method Construct(path: Path, input: Option<Input>)
      modifies this, pending
      ensures var e := Constructed(old(live), path, input); live == e.live && pending.ops == old(pending.ops) + e.ops
    {
      hide Arbitrated, Refreshed, Joined, Place;
      var k := Register(path);
      ghost var joined := live;
      if input.None? {
        live := live[k := live[k].(eligible := false)];
        Withdraw(k);
        assert live == joined[k := joined[k].(eligible := false, published := false)];
        Arbitrate(None);
      } else {
        Refresh(k, input.value, true, true, true);
      }
    }

    /** The destructor of the translator that still answers for its path. */
    method Destroy(path: Path)
      requires Registered(live, path)
      modifies this, pending
      ensures var e := Destroyed(old(live), path); live == e.live && pending.ops == old(pending.ops) + e.ops
    {
      hide Arbitrated, Place;
      var k := Find(path);
      var d := live[k];
      live := live[..k] + live[k + 1..];
      if d.published { pending.PushBack(Remove(Key(Environment, d.path))); }
      Arbitrate(None);
    }

    method Dirty(path: Path, input: Option<Input>, light: bool, visibility: bool)
      requires Registered(live, path)
      modifies this, pending
      ensures var e := Dirtied(old(live), path, input, light, visibility); live == e.live && pending.ops == old(pending.ops) + e.ops
    {
      hide Refreshed, Place;
      if input.None? { return; }
      var k := Find(path);
      Refresh(k, input.value, light, visibility, false);
    }
  }

  lemma {:induction false} PlaceIs(live: seq<Dome>, path: Path, k: nat)
    requires k <= |live| && (forall i :: 0 <= i < k ==> Before(live[i].path, path)) && (k < |live| ==> !Before(live[k].path, path))
    ensures Place(live, path) == k
    decreases k
  {
    if k > 0 { PlaceIs(live[1..], path, k - 1); }
  }
}
