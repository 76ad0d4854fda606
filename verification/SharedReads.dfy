/** When a reader's copy of the shared frame is believed. */
module SharedReads {

  import opened SharedFrames

  /** A finished copy is believed just when the counter moved by one at most. */
  lemma CloseAccepts(p: Plane, s: State)
    requires Inv(p, s) && s.reader.Copying? && s.reader.copied.Keys == Wanted(p)
    ensures var t := Step(p, s, Close);
      && t == s.(reader := Away, accepted := t.accepted)
      && (if s.counter == s.reader.before || s.counter == s.reader.before + 1
          then |t.accepted| == |s.accepted| + 1 && t.accepted[..|s.accepted|] == s.accepted && t.accepted[|s.accepted|].words == s.reader.copied
          else t.accepted == s.accepted)
  {}

  function Loads(lo: nat, n: nat): seq<Action> { seq(n, i requires 0 <= i < n => Load(lo + i)) }

  /** An attempt that nothing interrupts. */
  function Attempt(p: Plane): seq<Action>
    requires p.lo <= p.hi
  {
    [Open, Pick] + (Loads(p.lo, p.hi - p.lo) + [Close])
  }

  /** The reader has copied the first `n` words of the plane, and nothing else happened. */
  ghost predicate Loaded(p: Plane, s: State, t: State, n: nat)
    requires Shaped(p, s) && Shaped(p, t) && s.reader.Copying?
  {
    && t.reader.Copying? && t == s.(reader := s.reader.(copied := t.reader.copied))
    && p.lo + n <= p.hi
    && (forall i :: i in t.reader.copied <==> p.lo <= i < p.lo + n)
    && forall i :: p.lo <= i < p.lo + n ==> t.reader.copied[i] == s.buffers[s.reader.front][i]
  }

  lemma OneLoad(p: Plane, s: State, t: State, n: nat)
    requires Shaped(p, s) && s.reader.Copying? && s.reader.late == {} && |s.frames| < s.reader.picked + 2
    requires Shaped(p, t) && Loaded(p, s, t, n) && p.lo + n < p.hi
    ensures Loaded(p, s, Step(p, t, Load(p.lo + n)), n + 1)
  {
    assert p.lo + n in Wanted(p);
  }

  lemma {:induction false} LoadsRun(p: Plane, s: State, t: State, k: nat, n: nat)
    requires Shaped(p, s) && s.reader.Copying? && s.reader.late == {} && |s.frames| < s.reader.picked + 2
    requires Shaped(p, t) && Loaded(p, s, t, k) && p.lo + k + n <= p.hi
    ensures Loaded(p, s, Run(p, t, Loads(p.lo + k, n)), k + n)
    decreases n
  {
    if n > 0 {
      assert Loads(p.lo + k, n)[0] == Load(p.lo + k) && Loads(p.lo + k, n)[1..] == Loads(p.lo + k + 1, n - 1);
      OneLoad(p, s, t, k);
      hide Step, Loaded, Loads;
      LoadsRun(p, s, Step(p, t, Load(p.lo + k)), k + 1, n - 1);
    }
  }

  /** The front buffer is whole, and nobody has begun to store over it. */
  lemma FrontIsWhole(p: Plane, s: State)
    requires Inv(p, s) && s.counter != 0
    ensures |s.frames| < FrontFrame(s) + 2 && 1 <= FrontFrame(s) <= |s.frames|
    ensures forall i :: i in Wanted(p) ==> s.buffers[s.front][i] == s.frames[FrontFrame(s) - 1][i]
  {
    forall i | i in Wanted(p) ensures s.buffers[s.front][i] == s.frames[FrontFrame(s) - 1][i] {
      assert WordInv(p, s, i);
      assert s.buffers[s.front][i] == At(s, FrontFrame(s), i);
    }
  }

  lemma AttemptRuns(p: Plane, s: State, s1: State, s2: State, s3: State)
    requires Shaped(p, s) && Shaped(p, s1) && Shaped(p, s2)
    requires Step(p, s, Open) == s1 && Step(p, s1, Pick) == s2 && Run(p, s2, Loads(p.lo, p.hi - p.lo)) == s3
    ensures Shaped(p, s3) && Run(p, s, Attempt(p)) == Step(p, s3, Close)
  {
    var loads := Loads(p.lo, p.hi - p.lo);
    var late := [Pick] + (loads + [Close]);
    assert Attempt(p)[0] == Open && Attempt(p)[1..] == late && late[0] == Pick && late[1..] == loads + [Close];
    hide Step, Shaped, Loads, Attempt;
    assert Run(p, s, Attempt(p)) == Run(p, s1, late);
    assert Run(p, s1, late) == Run(p, s2, loads + [Close]);
    RunSplits(p, s2, loads, [Close]);
    assert Run(p, s3, [Close]) == Run(p, Step(p, s3, Close), []);
  }

  lemma CopyMade(p: Plane, s: State, s2: State) returns (s3: State)
    requires Inv(p, s) && s.reader.Away? && s.counter != 0
    requires s2 == s.(reader := Copying(s.counter, s.front, FrontFrame(s), map[], {}))
    ensures Shaped(p, s2) && Shaped(p, s3) && Loaded(p, s2, s3, p.hi - p.lo) && Run(p, s, Attempt(p)) == Step(p, s3, Close)
  {
    var s1 := s.(reader := Opened(s.counter));
    PicksUp(p, s);
    FrontIsWhole(p, s);
    hide Inv, Step, Attempt, Loads, FrontFrame;
    s3 := Run(p, s2, Loads(p.lo, p.hi - p.lo));
    LoadsRun(p, s2, s2, 0, p.hi - p.lo);
    AttemptRuns(p, s, s1, s2, s3);
  }

  /** An attempt the writer leaves alone is believed, and is the newest frame shown. */
  lemma QuietCopyAccepted(p: Plane, s: State)
    requires Inv(p, s) && s.reader.Away? && s.counter != 0
    ensures var t := Run(p, s, Attempt(p));
      && t == s.(accepted := t.accepted) && |t.accepted| == |s.accepted| + 1 && t.accepted[..|s.accepted|] == s.accepted
      && IsFrame(p, t.frames, t.accepted[|s.accepted|], if s.writer.Flipped? then s.counter + 1 else s.counter)
  {
    var s2 := s.(reader := Copying(s.counter, s.front, FrontFrame(s), map[], {}));
    var s3 := CopyMade(p, s, s2);
    hide Run, Loaded, Inv;
    WholeCopy(p, s, s2, s3);
  }

  lemma PicksUp(p: Plane, s: State)
    requires Shaped(p, s) && s.reader.Away? && s.counter != 0
    ensures Step(p, s, Open) == s.(reader := Opened(s.counter))
    ensures var s2 := s.(reader := Copying(s.counter, s.front, FrontFrame(s), map[], {}));
      Step(p, s.(reader := Opened(s.counter)), Pick) == s2 && Shaped(p, s2) && Loaded(p, s2, s2, 0)
  {}

  lemma WholeCopy(p: Plane, s: State, s2: State, s3: State)
    requires Inv(p, s) && s.counter != 0 && s2 == s.(reader := Copying(s.counter, s.front, FrontFrame(s), map[], {}))
    requires Shaped(p, s2) && Shaped(p, s3) && Loaded(p, s2, s3, p.hi - p.lo)
    ensures var t := Step(p, s3, Close);
      && t == s.(reader := Away, accepted := t.accepted) && |t.accepted| == |s.accepted| + 1 && t.accepted[..|s.accepted|] == s.accepted
      && IsFrame(p, t.frames, t.accepted[|s.accepted|], FrontFrame(s))
  {
    FrontIsWhole(p, s);
    hide Inv, Overwritten;
    assert s3.reader.copied.Keys == Wanted(p);
  }
}
