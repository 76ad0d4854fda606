/** The shared-memory framebuffer, one load or store at a time: a writer that
    alternates two buffers, a reader that copies the front one and believes the
    copy when the counter moved by at most one. Steps are sequentially
    consistent; the words of one copy move in any order. */
module SharedFrames {

  type Word = int

  /** The words of one frame: beauty plane, then depth plane. */
  type Frame = seq<Word>

  /** Where the writer stands inside `publish`; `stored` are the words of the
      back buffer already written. */
  datatype Writer = Resting | Filling(stored: set<nat>) | Full | Flipped

  /** Where the reader stands inside one attempt. The number of the frame whose
      buffer it picked, and the words it loaded late, after the writer had
      stored over them, are known to the proof alone. */
  datatype Reader =
    | Away
    | Opened(before: nat)
    | Copying(before: nat, front: nat, picked: nat, copied: map<nat, Word>, late: set<nat>)

  /** An accepted attempt; `overwritten` are the words of the picked buffer
      stored over by the time the closing counter was loaded. */
  datatype Copy = Copy(before: nat, after: nat, picked: nat, words: map<nat, Word>, late: set<nat>, overwritten: set<nat>)

  /** `frames` are all frames whose publish has begun: frame `n` is `frames[n - 1]`. */
  datatype State = State(
    buffers: seq<Frame>, front: nat, counter: nat, frames: seq<Frame>, writer: Writer,
    reader: Reader, accepted: seq<Copy>)

  /** The size of a buffer in words, and the words of the plane being copied. */
  datatype Plane = Plane(size: nat, lo: nat, hi: nat)

  datatype Action =
    | Begin(frame: Frame) | Store(word: nat) | FinishFill | Flip | Advance
    | Open | Pick | Load(word: nat) | Close

  function Range(lo: nat, hi: nat): (r: set<nat>)
    ensures forall i :: i in r <==> lo <= i < hi
    decreases hi - lo
  {
    if lo >= hi then {} else {lo} + Range(lo + 1, hi)
  }

  function All(p: Plane): set<nat> { Range(0, p.size) }

  function Wanted(p: Plane): set<nat> { Range(p.lo, p.hi) }

  ghost predicate Shaped(p: Plane, s: State) {
    && p.lo <= p.hi <= p.size
    && |s.buffers| == 2 && |s.buffers[0]| == p.size && |s.buffers[1]| == p.size && s.front < 2
    && (forall n :: 0 <= n < |s.frames| ==> |s.frames[n]| == p.size)
    && (s.writer.Filling? ==> s.frames != [])
    && (s.reader.Copying? ==> s.reader.front < 2)
  }

  function Start(p: Plane): State {
    State([seq(p.size, _ => 0), seq(p.size, _ => 0)], 0, 0, [], Resting, Away, [])
  }

  /** The words of the buffer of frame `n` that a later frame has stored over. */
  function Overwritten(p: Plane, s: State, n: nat): set<nat> {
    if |s.frames| < n + 2 then {}
    else if |s.frames| == n + 2 && s.writer.Filling? then s.writer.stored
    else All(p)
  }

  /** The number of the frame in the front buffer: flipped, if not yet counted. */
  function FrontFrame(s: State): nat {
    if s.writer.Flipped? then s.counter + 1 else s.counter
  }

  /** One step; an action that is not next in its program does nothing. */
  ghost function Step(p: Plane, s: State, a: Action): (t: State)
    requires Shaped(p, s)
    ensures Shaped(p, t)
  {
    match a
    case Begin(frame) =>
      if s.writer.Resting? && |frame| == p.size then s.(frames := s.frames + [frame], writer := Filling({})) else s
    case Store(i) =>
      if s.writer.Filling? && i < p.size then
        var back := 1 - s.front;
        s.(buffers := s.buffers[back := s.buffers[back][i := s.frames[|s.frames| - 1][i]]], writer := Filling(s.writer.stored + {i}))
      else s
    case FinishFill => if s.writer.Filling? && s.writer.stored == All(p) then s.(writer := Full) else s
    case Flip => if s.writer.Full? then s.(front := 1 - s.front, writer := Flipped) else s
    case Advance => if s.writer.Flipped? then s.(counter := s.counter + 1, writer := Resting) else s
    case Open => if s.reader.Away? && s.counter != 0 then s.(reader := Opened(s.counter)) else s
    case Pick => if s.reader.Opened? then s.(reader := Copying(s.reader.before, s.front, FrontFrame(s), map[], {})) else s
    case Load(i) =>
      if s.reader.Copying? && i in Wanted(p) && i !in s.reader.copied then
        var r := s.reader;
        s.(reader := r.(copied := r.copied[i := s.buffers[r.front][i]],
                        late := if i in Overwritten(p, s, r.picked) then r.late + {i} else r.late))
      else s
    case Close =>
      if s.reader.Copying? && s.reader.copied.Keys == Wanted(p) then
        var r := s.reader;
        if s.counter - r.before <= 1 then
          s.(reader := Away,
             accepted := s.accepted + [Copy(r.before, s.counter, r.picked, r.copied, r.late, Overwritten(p, s, r.picked))])
        else s.(reader := Away)
      else s
  }

  ghost function Run(p: Plane, s: State, actions: seq<Action>): (t: State)
    requires Shaped(p, s)
    ensures Shaped(p, t)
    decreases |actions|
  {
    if actions == [] then s else Run(p, Step(p, s, actions[0]), actions[1..])
  }

  // ---------------------------------------------------------------- the invariant

  /** The buffer frame `n` is written to. */
  function BufferOf(n: nat): nat { n % 2 }

  /** Word `i` of the buffer frame `n` was written to. */
  function At(s: State, n: nat, i: nat): Word
    requires |s.buffers| == 2 && i < |s.buffers[BufferOf(n)]|
  {
    s.buffers[BufferOf(n)][i]
  }

  ghost predicate WriterInv(p: Plane, s: State)
    requires Shaped(p, s)
  {
    && |s.frames| == (if s.writer.Resting? then s.counter else s.counter + 1)
    && s.front == BufferOf(FrontFrame(s))
    && (s.writer.Filling? ==> s.writer.stored <= All(p))
  }

  /** Every frame that has been flipped is whole in its buffer, save for the
      words overwritten by the frame two later. */
  ghost predicate BufferInv(p: Plane, s: State)
    requires Shaped(p, s) && WriterInv(p, s)
  {
    forall i: nat :: i < p.size ==> WordInv(p, s, i)
  }

  ghost predicate WordInv(p: Plane, s: State, i: nat)
    requires Shaped(p, s) && WriterInv(p, s) && i < p.size
  {
    && (s.counter >= 1 ==> At(s, s.counter, i) == s.frames[s.counter - 1][i])
    && (s.counter >= 2 && i !in Overwritten(p, s, s.counter - 1) ==> At(s, s.counter + 1, i) == s.frames[s.counter - 2][i])
    && (s.writer.Full? || s.writer.Flipped? || (s.writer.Filling? && i in s.writer.stored) ==>
          At(s, s.counter + 1, i) == s.frames[s.counter][i])
  }

  ghost predicate ReaderInv(p: Plane, s: State)
    requires Shaped(p, s) && WriterInv(p, s)
  {
    match s.reader
    case Away => true
    case Opened(before) => 1 <= before <= s.counter
    case Copying(before, front, picked, copied, late) =>
      && 1 <= before <= s.counter && before <= picked <= FrontFrame(s) && front == BufferOf(picked)
      && copied.Keys <= Wanted(p) && late <= copied.Keys && late <= Overwritten(p, s, picked)
      && (forall i :: i in copied && i !in late ==> copied[i] == s.frames[picked - 1][i])
      && (|s.frames| == picked + 2 ==> forall i :: i in late ==> copied[i] == s.frames[picked + 1][i])
  }

  /** What an accepted copy is made of. */
  ghost predicate Sorted(p: Plane, frames: seq<Frame>, c: Copy)
    requires p.lo <= p.hi <= p.size && forall n :: 0 <= n < |frames| ==> |frames[n]| == p.size
  {
    && 1 <= c.before <= c.after <= c.before + 1
    && c.before <= c.picked <= c.after + 1 && c.picked <= |frames|
    && c.words.Keys == Wanted(p) && c.late <= Wanted(p) && c.late <= c.overwritten
    && (c.overwritten != {} ==> c.after == c.before + 1 && c.picked == c.before && c.picked + 2 <= |frames|)
    && forall i :: i in c.words ==>
      c.words[i] == (if i in c.late && c.picked + 2 <= |frames| then frames[c.picked + 1][i] else frames[c.picked - 1][i])
  }

  ghost predicate AcceptedInv(p: Plane, s: State)
    requires Shaped(p, s)
  {
    && (forall n :: 0 <= n < |s.accepted| ==> Sorted(p, s.frames, s.accepted[n]))
    && (forall m, n :: 0 <= m < n < |s.accepted| ==> NotAfter(s.accepted[m], s.accepted[n]))
    && (forall n :: 0 <= n < |s.accepted| ==>
          && s.accepted[n].picked <= FrontFrame(s) && s.accepted[n].after <= s.counter
          && (!s.reader.Away? ==> s.accepted[n].after <= s.reader.before)
          && (s.reader.Copying? ==> s.accepted[n].picked <= s.reader.picked))
  }

  ghost predicate NotAfter(a: Copy, b: Copy) {
    a.picked <= b.picked && a.after <= b.before
  }

  ghost predicate Inv(p: Plane, s: State) {
    Shaped(p, s) && WriterInv(p, s) && BufferInv(p, s) && ReaderInv(p, s) && AcceptedInv(p, s)
  }

  lemma StoreKeeps(p: Plane, s: State, i: nat)
    requires Inv(p, s)
    ensures Inv(p, Step(p, s, Store(i)))
  {
    var t := Step(p, s, Store(i));
    if s.writer.Filling? && i < p.size {
      forall j: nat | j < p.size ensures WordInv(p, t, j) {
        assert WordInv(p, s, j);
        assert At(t, s.counter, j) == At(s, s.counter, j);
      }
    }
  }

  lemma WriterKeeps(p: Plane, s: State, a: Action)
    requires Inv(p, s) && (a.Begin? || a.FinishFill? || a.Flip? || a.Advance?)
    ensures Inv(p, Step(p, s, a))
  {
    var t := Step(p, s, a);
    assert forall n :: 0 <= n < |s.frames| ==> t.frames[n] == s.frames[n];
    forall j: nat | j < p.size ensures WordInv(p, t, j) {
      assert WordInv(p, s, j);
    }
  }

  lemma LoadKeeps(p: Plane, s: State, i: nat)
    requires Inv(p, s)
    ensures Inv(p, Step(p, s, Load(i)))
  {
    if s.reader.Copying? && i in Wanted(p) && i !in s.reader.copied {
      LoadedWord(p, s, i);
      SameWords(p, s, Step(p, s, Load(i)));
    }
  }

  /** What one load finds: the picked frame's word, or, where the frame two
      later has stored, that frame's. */
  lemma LoadedWord(p: Plane, s: State, i: nat)
    requires Inv(p, s) && s.reader.Copying? && i in Wanted(p)
    ensures i !in Overwritten(p, s, s.reader.picked) ==> s.buffers[s.reader.front][i] == s.frames[s.reader.picked - 1][i]
    ensures i in Overwritten(p, s, s.reader.picked) && |s.frames| == s.reader.picked + 2 ==>
      s.buffers[s.reader.front][i] == s.frames[s.reader.picked + 1][i]
  {
    var n := s.reader.picked;
    assert WordInv(p, s, i);
    assert s.buffers[s.reader.front][i] == At(s, n, i);
    assert n == s.counter - 1 || n == s.counter + 1 ==> At(s, n, i) == At(s, s.counter + 1, i);
    assert n + 2 == s.counter ==> At(s, n, i) == At(s, s.counter, i);
  }

  lemma CloseKeeps(p: Plane, s: State)
    requires Inv(p, s)
    ensures Inv(p, Step(p, s, Close))
  {
    var t := Step(p, s, Close);
    SameWords(p, s, t);
    if s.reader.Copying? && s.reader.copied.Keys == Wanted(p) && s.counter - s.reader.before <= 1 {
      AcceptedIsSorted(p, s);
      var c := t.accepted[|s.accepted|];
      assert forall n :: 0 <= n < |s.accepted| ==> NotAfter(s.accepted[n], c);
    }
  }

  lemma AcceptedIsSorted(p: Plane, s: State)
    requires Inv(p, s) && s.reader.Copying? && s.reader.copied.Keys == Wanted(p) && s.counter - s.reader.before <= 1
    ensures var r := s.reader; Sorted(p, s.frames, Copy(r.before, s.counter, r.picked, r.copied, r.late, Overwritten(p, s, r.picked)))
  {}

  lemma SameWords(p: Plane, s: State, t: State)
    requires Inv(p, s) && Shaped(p, t) && t == s.(reader := t.reader, accepted := t.accepted)
    ensures WriterInv(p, t) && BufferInv(p, t)
  {
    forall j: nat | j < p.size ensures WordInv(p, t, j) { assert WordInv(p, s, j); }
  }

  lemma ReaderKeeps(p: Plane, s: State, a: Action)
    requires Inv(p, s) && (a.Open? || a.Pick?)
    ensures Inv(p, Step(p, s, a))
  {
    SameWords(p, s, Step(p, s, a));
  }

  lemma StepKeeps(p: Plane, s: State, a: Action)
    requires Inv(p, s)
    ensures Inv(p, Step(p, s, a))
  {
    match a
    case Store(i) => StoreKeeps(p, s, i);
    case Load(i) => LoadKeeps(p, s, i);
    case Close => CloseKeeps(p, s);
    case _ => if a.Open? || a.Pick? { ReaderKeeps(p, s, a); } else { WriterKeeps(p, s, a); }
  }

  lemma {:induction false} RunKeeps(p: Plane, s: State, actions: seq<Action>)
    requires Inv(p, s)
    ensures Inv(p, Run(p, s, actions))
    decreases |actions|
  {
    if actions != [] {
      StepKeeps(p, s, actions[0]);
      RunKeeps(p, Step(p, s, actions[0]), actions[1..]);
    }
  }

  lemma StartInv(p: Plane)
    requires p.lo <= p.hi <= p.size
    ensures Inv(p, Start(p))
  {}

  // ---------------------------------------------------------------- what an accepted copy holds

  /** The copy is the plane of frame `n`, every word of it. */
  ghost predicate IsFrame(p: Plane, frames: seq<Frame>, c: Copy, n: nat) {
    && 1 <= n <= |frames| && |frames[n - 1]| == p.size && p.hi <= p.size
    && c.words.Keys == Wanted(p) && forall i :: i in Wanted(p) ==> c.words[i] == frames[n - 1][i]
  }

  /** The two frames have the same word `i`. */
  ghost predicate SameWord(frames: seq<Frame>, m: nat, n: nat, i: nat) {
    1 <= m <= |frames| && 1 <= n <= |frames| && i < |frames[m - 1]| && i < |frames[n - 1]| && frames[m - 1][i] == frames[n - 1][i]
  }

  /** In every interleaving, an accepted copy is the frame it picked, one that
      was whole when picked, as soon as the counter did not move, or the reader
      picked a newer frame than the one first counted, or no word of the buffer
      had been stored over when the closing counter was loaded. */
  lemma NoTornFrame(p: Plane, actions: seq<Action>, n: nat)
    requires p.lo <= p.hi <= p.size && n < |Run(p, Start(p), actions).accepted|
    ensures var t := Run(p, Start(p), actions);
      var c := t.accepted[n];
      && c.before <= c.picked <= c.after + 1 && c.after <= c.before + 1
      && (c.after == c.before || c.picked != c.before || c.overwritten == {} ==> IsFrame(p, t.frames, c, c.picked))
  {
    StartInv(p);
    RunKeeps(p, Start(p), actions);
    var c := Run(p, Start(p), actions).accepted[n];
    assert Sorted(p, Run(p, Start(p), actions).frames, c);
  }

  /** Exactly when a copy accepted after one advance is torn: it is the frame
      picked if and only if, at every word loaded late, the frame two later
      happens to have the same word. */
  lemma TornExactlyWhenLate(p: Plane, actions: seq<Action>, n: nat)
    requires p.lo <= p.hi <= p.size && n < |Run(p, Start(p), actions).accepted|
    ensures var t := Run(p, Start(p), actions);
      var c := t.accepted[n];
      && (IsFrame(p, t.frames, c, c.picked) <==> forall i :: i in c.late ==> SameWord(t.frames, c.picked, c.picked + 2, i))
      && (forall i :: i in c.words ==>
            SomeFrameWord(t.frames, if i in c.late then c.picked + 2 else c.picked, i, c.words[i]))
  {
    StartInv(p);
    RunKeeps(p, Start(p), actions);
    var t := Run(p, Start(p), actions);
    SortedTears(p, t.frames, t.accepted[n]);
  }

  lemma SortedTears(p: Plane, frames: seq<Frame>, c: Copy)
    requires p.lo <= p.hi <= p.size && forall n :: 0 <= n < |frames| ==> |frames[n]| == p.size
    requires Sorted(p, frames, c)
    ensures IsFrame(p, frames, c, c.picked) <==> forall i :: i in c.late ==> SameWord(frames, c.picked, c.picked + 2, i)
    ensures forall i :: i in c.words ==> SomeFrameWord(frames, if i in c.late then c.picked + 2 else c.picked, i, c.words[i])
  {
    if forall i :: i in c.late ==> SameWord(frames, c.picked, c.picked + 2, i) {
      forall i | i in Wanted(p) ensures c.words[i] == frames[c.picked - 1][i] {
        assert i in c.words;
        assert i in c.late ==> SameWord(frames, c.picked, c.picked + 2, i);
      }
    }
  }

  ghost predicate SomeFrameWord(frames: seq<Frame>, n: nat, i: nat, word: Word) {
    1 <= n <= |frames| && i < |frames[n - 1]| && word == frames[n - 1][i]
  }

  /** Successive accepted copies never go back, in frame or in counter. */
  lemma SnapshotsNeverGoBack(p: Plane, actions: seq<Action>, m: nat, n: nat)
    requires p.lo <= p.hi <= p.size && m < n < |Run(p, Start(p), actions).accepted|
    ensures var accepted := Run(p, Start(p), actions).accepted;
      && accepted[m].picked <= accepted[n].picked
      && accepted[m].after <= accepted[n].before <= accepted[n].after
  {
    StartInv(p);
    RunKeeps(p, Start(p), actions);
    var t := Run(p, Start(p), actions);
    assert NotAfter(t.accepted[m], t.accepted[n]) && Sorted(p, t.frames, t.accepted[n]);
  }

  // ---------------------------------------------------------------- a copy that one advance lets through torn

  lemma {:induction false} RunSplits(p: Plane, s: State, a: seq<Action>, b: seq<Action>)
    requires Shaped(p, s)
    ensures Run(p, s, a + b) == Run(p, Run(p, s, a), b)
    decreases |a|
  {
    if a == [] {
      assert a + b == b;
    } else {
      assert (a + b)[1..] == a[1..] + b;
      RunSplits(p, Step(p, s, a[0]), a[1..], b);
    }
  }

  lemma ThreeRuns(p: Plane, s: State, a: Action, b: Action, c: Action)
    requires Shaped(p, s)
    ensures Run(p, s, [a, b, c]) == Step(p, Step(p, Step(p, s, a), b), c)
  {
    var s1 := Step(p, s, a);
    var s2 := Step(p, s1, b);
    var s3 := Step(p, s2, c);
    assert [a, b, c][1..] == [b, c] && [b, c][1..] == [c] && [c][1..] == [];
    assert Run(p, s3, []) == s3;
    assert Run(p, s2, [c]) == s3;
  }

  const PAIR := Plane(2, 0, 2)

  /** The words a publish has stored once the first `n` are written. */
  function Stores(n: nat): seq<Action> { seq(n, i requires 0 <= i < n => Store(i)) }

  /** A publish that nothing interrupts. */
  function Publishing(frame: Frame): seq<Action> {
    [Begin(frame)] + Stores(|frame|) + [FinishFill, Flip, Advance]
  }

  lemma {:induction false} StoresRun(p: Plane, s: State, frame: Frame, n: nat)
    requires Shaped(p, s) && s.writer.Filling? && s.writer.stored == {} && s.frames[|s.frames| - 1] == frame && n <= p.size == |frame|
    ensures Run(p, s, Stores(n)) ==
      s.(buffers := s.buffers[1 - s.front := frame[..n] + s.buffers[1 - s.front][n..]], writer := Filling(Range(0, n)))
    decreases n
  {
    if n == 0 {
      assert s.buffers[1 - s.front] == frame[..0] + s.buffers[1 - s.front][0..];
    } else {
      StoresRun(p, s, frame, n - 1);
      assert Stores(n) == Stores(n - 1) + [Store(n - 1)];
      RunSplits(p, s, Stores(n - 1), [Store(n - 1)]);
      var mid := Run(p, s, Stores(n - 1));
      assert Run(p, mid, [Store(n - 1)]) == Step(p, mid, Store(n - 1));
      var b := s.buffers[1 - s.front];
      assert (frame[..n - 1] + b[n - 1..])[n - 1 := frame[n - 1]] == frame[..n] + b[n..];
      assert Range(0, n - 1) + {n - 1} == Range(0, n);
    }
  }

  /** An uninterrupted publish is one buffer filled, flipped and counted. */
  lemma PublishRuns(p: Plane, s: State, frame: Frame)
    requires Shaped(p, s) && s.writer.Resting? && |frame| == p.size
    ensures Run(p, s, Publishing(frame)) ==
      s.(buffers := s.buffers[1 - s.front := frame], front := 1 - s.front, counter := s.counter + 1, frames := s.frames + [frame])
  {
    var s1 := Step(p, s, Begin(frame));
    RunSplits(p, s, [Begin(frame)], Stores(|frame|) + [FinishFill, Flip, Advance]);
    assert [Begin(frame)] + (Stores(|frame|) + [FinishFill, Flip, Advance]) == Publishing(frame);
    assert Run(p, s, [Begin(frame)]) == s1 by { assert Run(p, s1, []) == s1; }
    RunSplits(p, s1, Stores(|frame|), [FinishFill, Flip, Advance]);
    StoresRun(p, s1, frame, |frame|);
    var s2 := Run(p, s1, Stores(|frame|));
    assert frame[..|frame|] + s.buffers[1 - s.front][|frame|..] == frame;
    ThreeRuns(p, s2, FinishFill, Flip, Advance);
  }

  const OPENED := Publishing([10, 11]) + [Open, Pick, Load(0)]

  const OVERTAKEN := Publishing([20, 21]) + [Begin([30, 31]), Store(1), Load(1)]

  const TEARING := OPENED + OVERTAKEN + [Close, Close, Close]

  lemma FirstPublished()
    ensures Run(PAIR, Start(PAIR), Publishing([10, 11])) == State([[0, 0], [10, 11]], 1, 1, [[10, 11]], Resting, Away, [])
  {
    var s := Start(PAIR);
    assert s.buffers[0] == [0, 0];
    PublishRuns(PAIR, s, [10, 11]);
    assert s.buffers[1 := [10, 11]] == [[0, 0], [10, 11]];
  }

  lemma PickedUp(s: State)
    requires s == State([[0, 0], [10, 11]], 1, 1, [[10, 11]], Resting, Away, [])
    ensures Run(PAIR, s, [Open, Pick, Load(0)]) == s.(reader := Copying(1, 1, 1, map[0 := 10], {}))
  {
    ThreeRuns(PAIR, s, Open, Pick, Load(0));
    assert 0 in Wanted(PAIR);
  }

  lemma Opening()
    ensures Run(PAIR, Start(PAIR), OPENED) ==
      State([[0, 0], [10, 11]], 1, 1, [[10, 11]], Resting, Copying(1, 1, 1, map[0 := 10], {}), [])
  {
    FirstPublished();
    RunSplits(PAIR, Start(PAIR), Publishing([10, 11]), [Open, Pick, Load(0)]);
    PickedUp(State([[0, 0], [10, 11]], 1, 1, [[10, 11]], Resting, Away, []));
  }

  lemma SecondPublished(s: State, g: Frame)
    requires s == State([[0, 0], [10, 11]], 1, 1, [[10, 11]], Resting, Copying(1, 1, 1, map[0 := 10], {}), []) && |g| == 2
    ensures Run(PAIR, s, Publishing(g)) == s.(buffers := [g, [10, 11]], front := 0, counter := 2, frames := [[10, 11], g])
  {
    PublishRuns(PAIR, s, g);
    assert s.buffers[0 := g] == [g, [10, 11]];
    assert s.frames + [g] == [[10, 11], g];
  }

  lemma ThirdBegun(s: State)
    requires s == State([[20, 21], [10, 11]], 0, 2, [[10, 11], [20, 21]], Resting, Copying(1, 1, 1, map[0 := 10], {}), [])
    ensures Run(PAIR, s, [Begin([30, 31]), Store(1), Load(1)]) ==
      State([[20, 21], [10, 31]], 0, 2, [[10, 11], [20, 21], [30, 31]], Filling({1}), Copying(1, 1, 1, map[0 := 10, 1 := 31], {1}), [])
  {
    ThreeRuns(PAIR, s, Begin([30, 31]), Store(1), Load(1));
    assert 1 in Wanted(PAIR);
    var s3 := Step(PAIR, Step(PAIR, s, Begin([30, 31])), Store(1));
    assert s3.frames == [[10, 11], [20, 21], [30, 31]];
    assert s3.buffers[1] == [10, 11][1 := 31] == [10, 31];
    assert s3.buffers[0] == [20, 21];
  }

  lemma Overtaking(s: State)
    requires s == State([[0, 0], [10, 11]], 1, 1, [[10, 11]], Resting, Copying(1, 1, 1, map[0 := 10], {}), [])
    ensures Run(PAIR, s, OVERTAKEN) ==
      State([[20, 21], [10, 31]], 0, 2, [[10, 11], [20, 21], [30, 31]], Filling({1}), Copying(1, 1, 1, map[0 := 10, 1 := 31], {1}), [])
  {
    SecondPublished(s, [20, 21]);
    RunSplits(PAIR, s, Publishing([20, 21]), [Begin([30, 31]), Store(1), Load(1)]);
    ThirdBegun(Run(PAIR, s, Publishing([20, 21])));
  }

  /** A copy across one advance, accepted, that is no frame at all: its first
      word is frame 1's and its second is frame 3's. */
  lemma OneAdvanceCanTear()
    ensures var t := Run(PAIR, Start(PAIR), TEARING);
      && |t.accepted| == 1 && t.accepted[0].after == t.accepted[0].before + 1
      && t.accepted[0].words == map[0 := 10, 1 := 31]
      && forall n :: !IsFrame(PAIR, t.frames, t.accepted[0], n)
  {
    RunSplits(PAIR, Start(PAIR), OPENED + OVERTAKEN, [Close, Close, Close]);
    RunSplits(PAIR, Start(PAIR), OPENED, OVERTAKEN);
    Opening();
    Overtaking(Run(PAIR, Start(PAIR), OPENED));
    var s := Run(PAIR, Start(PAIR), OPENED + OVERTAKEN);
    assert Wanted(PAIR) == {0, 1};
    ThreeRuns(PAIR, s, Close, Close, Close);
  }

  // ---------------------------------------------------------------- the two sides as objects

  /** The mapping both sides share, and the frames published through it. */
  class Segment {
    const words: nat
    const first: array<Word>
    const second: array<Word>
    var front: nat
    var counter: nat
    ghost var frames: seq<Frame>

    ghost predicate Valid()
      reads this
    {
      first != second && first.Length == words && second.Length == words && front < 2
      && forall n :: 0 <= n < |frames| ==> |frames[n]| == words
    }

    ghost function Abs(): State
      reads this, first, second
    {
      State([first[..], second[..]], front, counter, frames, Resting, Away, [])
    }

    constructor (words: nat)
      ensures Valid() && this.words == words && Abs() == Start(Plane(words, 0, words))
      ensures fresh(first) && fresh(second)
    {
      this.words := words;
      first := new Word[words](_ => 0);
      second := new Word[words](_ => 0);
      front, counter, frames := 0, 0, [];
      new;
      assert first[..] == seq(words, _ => 0) && second[..] == seq(words, _ => 0);
    }

    method FillBack(back: array<Word>, frame: seq<Word>)
      requires |frame| == back.Length
      modifies back
      ensures back[..] == frame
    {
      for i := 0 to |frame|
        invariant back[..i] == frame[..i]
      {
        back[i] := frame[i];
      }
    }

    /** Fill the back buffer, flip it front, advance the counter. */
    method Publish(frame: seq<Word>)
      requires Valid() && |frame| == words
      modifies this`front, this`counter, this`frames, first, second
      ensures Valid()
      ensures var p := Plane(words, 0, words); Shaped(p, old(Abs())) && Abs() == Run(p, old(Abs()), Publishing(frame))
    {
      ghost var was := Abs();
      var back := 1 - front;
      if back == 0 { FillBack(first, frame); } else { FillBack(second, frame); }
      front := back;
      counter := counter + 1;
      frames := frames + [frame];
      PublishRuns(Plane(words, 0, words), was, frame);
      assert Abs().buffers == was.buffers[back := frame];
    }

    /** Copies words `lo..hi` of the front buffer out, with three attempts
        under the counter check; false when nothing was published. */
    method CopyPlane(dst: array<Word>, lo: nat, hi: nat) returns (ok: bool)
      requires Valid() && lo <= hi <= words && dst.Length == hi - lo && dst != first && dst != second
      modifies dst
      ensures ok == (counter != 0)
      ensures ok ==> dst[..] == Abs().buffers[front][lo..hi]
      ensures !ok ==> dst[..] == old(dst[..])
    {
      ok := false;
      for attempt := 0 to 3
        invariant attempt == 0 && !ok
        invariant dst[..] == old(dst[..])
      {
        var before := counter;
        if before == 0 { return; }
        var source := if front == 0 then first else second;
        for i := 0 to hi - lo
          invariant dst[..i] == source[lo..lo + i]
        {
          dst[i] := source[lo + i];
        }
        var after := counter;
        if after - before <= 1 { return true; }
      }
    }
  }
}
