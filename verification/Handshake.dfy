/** The convergence handshake end to end: a session that renders waves, a pump
    that publishes frames under the server's lock, a server that answers one
    request at a time, and a client that polls the header between requests. */
module Handshake {

  import opened Options

  type Message = string

  /** A frame: its epoch stamp, how many session calls it really incorporates,
      its size, and whether it settled. */
  datatype Frame = Frame(stamp: nat, includes: nat, size: nat, converged: bool)

  /** The mapped header of the current segment. `flagStamp` and `flagIncludes`
      tell, for the proof, which frame the CONVERGED word came from; `bumps` is
      the true number of rejections behind the wrapping counter. */
  datatype Header = Header(
    size: nat, counter: nat, converged: bool, epoch: nat, rejectedEdits: nat,
    flagStamp: nat, flagIncludes: nat, bumps: nat)

  /** The session: `epoch` counts the calls placed; a wave reads it before it
      drains what is queued. */
  datatype Wave = NoWave | Stamped(stamp: nat) | Drained(stamp: nat, includes: nat)

  /** The pump's place: waiting, between listing a rejection and counting it,
      downloading a frame, or inside `publish`. */
  datatype Pump = Waiting | Raising | Downloading(frame: Frame) | WroteFlag(frame: Frame) | WroteEpoch(frame: Frame)

  /** An acknowledged request makes some number of session calls: a ping none,
      an edit that touches the camera two. */
  datatype Request = Edit(calls: nat) | Resize(size: nat)

  datatype Reply = Ack(rejected: seq<Message>, epoch: nat) | Resized(epoch: nat)

  /** `Client::converged` is four loads; the second and the last are of EPOCH
      and CONVERGED. */
  datatype Client =
    | Idle
    | Sent(request: Request)
    | Answered(reply: Reply)
    | Polled | CounterSeen | EpochAccepted(epoch: nat) | CounterSeenAgain(epoch: nat)

  /** A poll that answered true: the bar, and the frame the flag belonged to. */
  datatype Verdict = Verdict(acked: nat, stamp: nat, includes: nat)

  datatype State = State(
    epoch: nat, wave: Wave, ready: Option<Frame>, pump: Pump, header: Header,
    rejected: seq<Message>, client: Client, lastAcked: nat, seenRejections: nat,
    raised: seq<Message>, delivered: seq<Message>, verdicts: seq<Verdict>, startedClean: bool)

  datatype Action =
    | ReadEpoch | Drain | FinishWave(size: nat, converged: bool)
    | Reject(message: Message) | CountRejection | TakeFrame | StoreFlag | StoreEpoch | CountFrame
    | Send(request: Request) | Collect | Serve | Receive
    | Poll | LoadCounter | LoadEpoch | LoadCounterAgain | LoadFlag

  const WORD := 0x1_0000_0000

  function FreshHeader(size: nat): Header { Header(size, 0, false, 0, 0, 0, 0, 0) }

  function Start(size: nat): State {
    State(0, NoWave, None, Waiting, FreshHeader(size), [], Idle, 0, 0, [], [], [], true)
  }

  predicate Publishing(s: State) { s.pump.WroteFlag? || s.pump.WroteEpoch? }

  /** The server's lock is held while a rejection is raised or a frame published.
      The client's loads need no lock. */
  predicate Locked(s: State) { s.pump.Raising? || Publishing(s) }

  /** One step; an action that is not enabled does nothing. */
  function Step(s: State, a: Action): State {
    match a
    // the render thread
    case ReadEpoch => if s.wave.NoWave? then s.(wave := Stamped(s.epoch)) else s
    case Drain => if s.wave.Stamped? then s.(wave := Drained(s.wave.stamp, s.epoch)) else s
    case FinishWave(size, converged) =>
      if s.wave.Drained? then s.(wave := NoWave, ready := Some(Frame(s.wave.stamp, s.wave.includes, size, converged))) else s
    // the frame pump
    case Reject(message) =>
      if s.pump.Waiting? then
        s.(pump := Raising, rejected := s.rejected + [message], raised := s.raised + [message])
      else s
    case CountRejection =>
      if s.pump.Raising? then
        s.(pump := Waiting,
           header := s.header.(rejectedEdits := (s.header.rejectedEdits + 1) % WORD, bumps := s.header.bumps + 1))
      else s
    case TakeFrame =>
      if s.pump.Waiting? && s.ready.Some? then s.(pump := Downloading(s.ready.value), ready := None) else s
    case StoreFlag =>
      if s.pump.Downloading? then
        var f := s.pump.frame;
        if f.size != s.header.size then s.(pump := Waiting)
        else s.(pump := WroteFlag(f), header := s.header.(converged := f.converged, flagStamp := f.stamp, flagIncludes := f.includes))
      else s
    case StoreEpoch =>
      if s.pump.WroteFlag? then s.(pump := WroteEpoch(s.pump.frame), header := s.header.(epoch := s.pump.frame.stamp)) else s
    case CountFrame =>
      if s.pump.WroteEpoch? then s.(pump := Waiting, header := s.header.(counter := s.header.counter + 1)) else s
    // the socket
    case Send(request) => if s.client.Idle? then s.(client := Sent(request)) else s
    case Collect =>
      if s.client.Idle? && s.header.rejectedEdits != s.seenRejections then
        s.(seenRejections := s.header.rejectedEdits, client := Sent(Edit(0)))
      else s
    case Serve =>
      if s.client.Sent? && !Locked(s) then
        match s.client.request
        case Edit(calls) =>
          s.(epoch := s.epoch + calls, rejected := [], client := Answered(Ack(s.rejected, s.epoch + calls)))
        case Resize(size) =>
          s.(epoch := s.epoch + 1, header := FreshHeader(size), client := Answered(Resized(s.epoch + 1)),
             startedClean := s.rejected == [] && s.seenRejections == 0)
      else s
    case Receive =>
      if s.client.Answered? then
        match s.client.reply
        case Ack(rejected, epoch) => s.(client := Idle, lastAcked := epoch, delivered := s.delivered + rejected)
        case Resized(epoch) => s.(client := Idle, lastAcked := epoch)
      else s
    // Client::converged, one load at a time
    case Poll => if s.client.Idle? then s.(client := Polled) else s
    case LoadCounter =>
      if s.client.Polled? then
        if s.header.counter != 0 then s.(client := CounterSeen) else Judged(s, 0)
      else s
    case LoadEpoch => if s.client.CounterSeen? then Judged(s, s.header.epoch) else s
    case LoadCounterAgain =>
      if s.client.EpochAccepted? then
        if s.header.counter != 0 then s.(client := CounterSeenAgain(s.client.epoch)) else s.(client := Idle)
      else s
    case LoadFlag =>
      if s.client.CounterSeenAgain? then
        if s.header.converged then
          s.(client := Idle, verdicts := s.verdicts + [Verdict(s.lastAcked, s.header.flagStamp, s.header.flagIncludes)])
        else s.(client := Idle)
      else s
  }

  /** The epoch read is believed when it reaches the last one acknowledged. */
  function Judged(s: State, epoch: nat): State {
    if epoch >= s.lastAcked then s.(client := EpochAccepted(epoch)) else s.(client := Idle)
  }

  function Run(s: State, actions: seq<Action>): State
    decreases |actions|
  {
    if actions == [] then s else Run(Step(s, actions[0]), actions[1..])
  }

  // ---------------------------------------------------------------- epochs

  predicate Empty(p: Pump) { p.Waiting? || p.Raising? }

  /** Stamps never fall along the way from the session to the header, and a
      frame incorporates at least every call its stamp counts. */
  ghost predicate EpochInv(s: State) {
    var waveStamp := match s.wave case NoWave => s.epoch case Stamped(e) => e case Drained(e, _) => e;
    var readyStamp := if s.ready.Some? then s.ready.value.stamp else waveStamp;
    var pumpStamp := if Empty(s.pump) then readyStamp else s.pump.frame.stamp;
    && s.header.flagStamp <= pumpStamp <= readyStamp <= waveStamp <= s.epoch
    && (s.wave.Drained? ==> s.wave.stamp <= s.wave.includes)
    && (s.ready.Some? ==> s.ready.value.stamp <= s.ready.value.includes)
    && (!Empty(s.pump) ==> s.pump.frame.stamp <= s.pump.frame.includes)
    && s.header.epoch <= s.header.flagStamp <= s.header.flagIncludes
    && (Publishing(s) ==> s.header.flagStamp == s.pump.frame.stamp)
    && (s.client.EpochAccepted? || s.client.CounterSeenAgain? ==> s.lastAcked <= s.client.epoch <= s.header.epoch)
    && forall n :: 0 <= n < |s.verdicts| ==> Current(s.verdicts[n])
  }

  /** The picture is current: its frame is stamped at or past the bar and
      incorporates every call the bar counts. */
  predicate Current(v: Verdict) { v.acked <= v.stamp <= v.includes }

  predicate Rendering(a: Action) { a.ReadEpoch? || a.Drain? || a.FinishWave? || a.Reject? || a.CountRejection? || a.TakeFrame? }

  predicate Storing(a: Action) { a.StoreFlag? || a.StoreEpoch? || a.CountFrame? }

  lemma RenderingStep(s: State, a: Action)
    requires EpochInv(s) && Rendering(a)
    ensures EpochInv(Step(s, a))
  {}

  lemma StoringStep(s: State, a: Action)
    requires EpochInv(s) && Storing(a)
    ensures EpochInv(Step(s, a))
  {}

  lemma SocketStep(s: State, a: Action)
    requires EpochInv(s) && !Rendering(a) && !Storing(a)
    ensures EpochInv(Step(s, a))
  {}

  lemma EpochStep(s: State, a: Action)
    requires EpochInv(s)
    ensures EpochInv(Step(s, a))
  {
    hide EpochInv, Step;
    if Rendering(a) { RenderingStep(s, a); }
    else if Storing(a) { StoringStep(s, a); }
    else { SocketStep(s, a); }
  }

  lemma {:induction false} EpochRun(s: State, actions: seq<Action>)
    requires EpochInv(s)
    ensures EpochInv(Run(s, actions))
    decreases |actions|
  {
    if actions != [] {
      EpochStep(s, actions[0]);
      EpochRun(Step(s, actions[0]), actions[1..]);
    }
  }

  /** In every interleaving, resizes and skipped frames included, whenever a
      poll answers converged, the flag it read belongs to a frame stamped at or
      past the last acknowledged epoch, and that frame incorporates every
      request acknowledged so far. */
  lemma ConvergedMeansCurrent(size: nat, actions: seq<Action>, n: nat)
    requires n < |Run(Start(size), actions).verdicts|
    ensures Current(Run(Start(size), actions).verdicts[n])
  {
    EpochRun(Start(size), actions);
  }

  lemma {:induction false} RunSplits(s: State, a: seq<Action>, b: seq<Action>)
    ensures Run(s, a + b) == Run(Run(s, a), b)
    decreases |a|
  {
    if a == [] {
      assert a + b == b;
    } else {
      assert (a + b)[1..] == a[1..] + b;
      RunSplits(Step(s, a[0]), a[1..], b);
    }
  }

  lemma FiveSteps(s: State, acts: seq<Action>)
    requires |acts| == 5
    ensures Run(s, acts) == Step(Step(Step(Step(Step(s, acts[0]), acts[1]), acts[2]), acts[3]), acts[4])
  {
    hide Step;
    var s1 := Step(s, acts[0]);
    var s2 := Step(s1, acts[1]);
    var s3 := Step(s2, acts[2]);
    var s4 := Step(s3, acts[3]);
    var s5 := Step(s4, acts[4]);
    assert acts[1..][1..][1..][1..][1..] == [];
    assert Run(s4, acts[1..][1..][1..][1..]) == Run(s5, acts[1..][1..][1..][1..][1..]);
    assert Run(s3, acts[1..][1..][1..]) == s5;
    assert Run(s2, acts[1..][1..]) == s5;
    assert Run(s1, acts[1..]) == s5;
  }

  lemma FourSteps(s: State, acts: seq<Action>)
    requires |acts| == 4
    ensures Run(s, acts) == Step(Step(Step(Step(s, acts[0]), acts[1]), acts[2]), acts[3])
  {
    hide Step;
    var s1 := Step(s, acts[0]);
    var s2 := Step(s1, acts[1]);
    var s3 := Step(s2, acts[2]);
    var s4 := Step(s3, acts[3]);
    assert acts[1..][1..][1..][1..] == [];
    assert Run(s3, acts[1..][1..][1..]) == Run(s4, acts[1..][1..][1..][1..]);
    assert Run(s2, acts[1..][1..]) == s4;
    assert Run(s1, acts[1..]) == s4;
  }

  // ---------------------------------------------------------------- what a poll answers

  /** The loads of one poll that nothing interrupts. */
  const POLLED := [LoadCounter, LoadEpoch, LoadCounterAgain, LoadFlag]

  predicate Loads(a: Action) { a.LoadCounter? || a.LoadEpoch? || a.LoadCounterAgain? || a.LoadFlag? }

  lemma IdleLoads(s: State, a: Action)
    requires s.client.Idle? && Loads(a)
    ensures Step(s, a) == s
  {}

  /** Nothing has been counted yet: the poll cannot answer true. */
  lemma UncountedPoll(s: State)
    requires s.client.Polled? && s.header.counter == 0
    ensures Run(s, POLLED) == s.(client := Idle)
  {
    FourSteps(s, POLLED);
    var s1, idle := Step(s, LoadCounter), s.(client := Idle);
    IdleLoads(idle, LoadEpoch);
    IdleLoads(idle, LoadCounterAgain);
    IdleLoads(idle, LoadFlag);
    assert s1 == idle || s1 == s.(client := EpochAccepted(0));
    assert Step(s1, LoadEpoch) == s1 && Step(s1, LoadCounterAgain) == idle;
  }

  lemma CounterLoad(s: State)
    requires s.client.Polled? && s.header.counter != 0
    ensures Step(s, LoadCounter) == s.(client := CounterSeen)
  {}

  lemma EpochLoad(s: State)
    requires s.client.CounterSeen?
    ensures Step(s, LoadEpoch) == if s.header.epoch >= s.lastAcked then s.(client := EpochAccepted(s.header.epoch)) else s.(client := Idle)
  {}

  lemma CounterLoadAgain(s: State)
    requires s.client.EpochAccepted? && s.header.counter != 0
    ensures Step(s, LoadCounterAgain) == s.(client := CounterSeenAgain(s.client.epoch))
  {}

  lemma FlagLoad(s: State)
    requires s.client.CounterSeenAgain?
    ensures Step(s, LoadFlag) ==
      if s.header.converged then
        s.(client := Idle, verdicts := s.verdicts + [Verdict(s.lastAcked, s.header.flagStamp, s.header.flagIncludes)])
      else s.(client := Idle)
  {}

  lemma CountedPoll(s: State)
    requires s.client.Polled? && s.header.counter != 0
    ensures Run(s, POLLED) == (
      if s.header.epoch >= s.lastAcked && s.header.converged then
        s.(client := Idle, verdicts := s.verdicts + [Verdict(s.lastAcked, s.header.flagStamp, s.header.flagIncludes)])
      else s.(client := Idle))
  {
    FourSteps(s, POLLED);
    hide Step, Run;
    var idle := s.(client := Idle);
    IdleLoads(idle, LoadCounterAgain);
    IdleLoads(idle, LoadFlag);
    CounterLoad(s);
    EpochLoad(s.(client := CounterSeen));
    if s.header.epoch >= s.lastAcked {
      CounterLoadAgain(s.(client := EpochAccepted(s.header.epoch)));
      FlagLoad(s.(client := CounterSeenAgain(s.header.epoch)));
    }
  }

  /** It answers true just when a frame has been counted, the header's epoch has
      reached the last one acknowledged, and the flag is up; it changes nothing else. */
  lemma PollAnswers(s: State)
    requires s.client.Idle?
    ensures Run(s, [Poll] + POLLED) ==
      if s.header.counter != 0 && s.header.epoch >= s.lastAcked && s.header.converged then
        s.(verdicts := s.verdicts + [Verdict(s.lastAcked, s.header.flagStamp, s.header.flagIncludes)])
      else s
  {
    var polled := Step(s, Poll);
    assert ([Poll] + POLLED)[1..] == POLLED;
    assert Run(s, [Poll] + POLLED) == Run(polled, POLLED);
    assert polled == s.(client := Polled);
    hide Run, Step;
    if s.header.counter == 0 { UncountedPoll(polled); } else { CountedPoll(polled); }
  }

  /** The picture on display has settled and is current, and so is every frame on
      its way there. */
  ghost predicate Settled(s: State) {
    && s.client.Idle? && s.header.counter != 0 && s.header.converged && s.header.epoch >= s.lastAcked
    && (s.ready.Some? ==> s.ready.value.converged)
    && (!Empty(s.pump) ==> s.pump.frame.converged)
  }

  /** No request follows: the renderer and the pump go on alone, and what is
      rendered stays settled. */
  predicate Quiet(a: Action) { (Rendering(a) || Storing(a)) && (a.FinishWave? ==> a.converged) }

  lemma QuietStep(s: State, a: Action)
    requires EpochInv(s) && Settled(s) && Quiet(a)
    ensures Settled(Step(s, a)) && Step(s, a).verdicts == s.verdicts && Step(s, a).lastAcked == s.lastAcked
  {}

  lemma {:induction false} QuietRun(s: State, actions: seq<Action>)
    requires EpochInv(s) && Settled(s) && forall n :: 0 <= n < |actions| ==> Quiet(actions[n])
    ensures var t := Run(s, actions); Settled(t) && t.verdicts == s.verdicts && t.lastAcked == s.lastAcked
    decreases |actions|
  {
    if actions != [] {
      QuietStep(s, actions[0]);
      EpochStep(s, actions[0]);
      QuietRun(Step(s, actions[0]), actions[1..]);
    }
  }

  /** The host's loop ends: from the moment a settled frame stamped at or past the
      last acknowledgement is counted, and until another request is made, every
      poll answers true. */
  lemma SettledIsSeen(size: nat, actions: seq<Action>, quiet: seq<Action>)
    requires var s := Run(Start(size), actions);
      && s.client.Idle? && s.pump.WroteEpoch? && s.pump.frame.converged && s.pump.frame.stamp >= s.lastAcked
      && (s.ready.Some? ==> s.ready.value.converged)
    requires forall n :: 0 <= n < |quiet| ==> Quiet(quiet[n])
    ensures var s := Run(Start(size), actions);
      var t := Run(Run(Step(s, CountFrame), quiet), [Poll] + POLLED);
      |t.verdicts| == |s.verdicts| + 1 && t.verdicts[|s.verdicts|].acked == s.lastAcked
  {
    var s := Run(Start(size), actions);
    EpochRun(Start(size), actions);
    WrittenRun(Start(size), actions);
    EpochStep(s, CountFrame);
    var settled := Step(s, CountFrame);
    QuietRun(settled, quiet);
    PollAnswers(Run(settled, quiet));
  }

  /** Between its stores a publish has left the frame's own flag and epoch; and
      once a reply is in, the bar is every session call there has been. */
  ghost predicate WrittenInv(s: State) {
    && (Publishing(s) ==> s.header.converged == s.pump.frame.converged)
    && (s.pump.WroteEpoch? ==> s.header.epoch == s.pump.frame.stamp)
    && (if s.client.Answered? then s.client.reply.epoch else s.lastAcked) == s.epoch
  }

  lemma WrittenStep(s: State, a: Action)
    requires WrittenInv(s)
    ensures WrittenInv(Step(s, a))
  {}

  lemma {:induction false} WrittenRun(s: State, actions: seq<Action>)
    requires WrittenInv(s)
    ensures WrittenInv(Run(s, actions))
    decreases |actions|
  {
    if actions != [] {
      WrittenStep(s, actions[0]);
      WrittenRun(Step(s, actions[0]), actions[1..]);
    }
  }

  /** A resize waits for the publish under way, so no frame is ever written into a
      segment of another size. */
  ghost predicate SizeInv(s: State) { Publishing(s) ==> s.pump.frame.size == s.header.size }

  lemma SizeStep(s: State, a: Action)
    requires SizeInv(s)
    ensures SizeInv(Step(s, a))
  {}

  lemma {:induction false} FramesFit(s: State, actions: seq<Action>)
    requires SizeInv(s)
    ensures SizeInv(Run(s, actions))
    decreases |actions|
  {
    if actions != [] {
      SizeStep(s, actions[0]);
      FramesFit(Step(s, actions[0]), actions[1..]);
    }
  }

  /** So a true answer is never about less than everything asked: at the moment a
      poll can answer true, the frame on display incorporates every session call
      placed so far. */
  lemma TrueMeansEverything(size: nat, actions: seq<Action>)
    requires var s := Run(Start(size), actions); Step(s, LoadFlag).verdicts != s.verdicts
    ensures var s := Run(Start(size), actions);
      Step(s, LoadFlag).verdicts == s.verdicts + [Verdict(s.epoch, s.header.flagStamp, s.header.flagIncludes)]
      && s.epoch <= s.header.flagStamp && s.epoch <= s.header.flagIncludes
  {
    EpochRun(Start(size), actions);
    WrittenRun(Start(size), actions);
  }

  /** Whatever is under way, finished: the pump's publish, the client's exchange or
      poll, and the renderer's wave. */
  const PUMPED := [CountRejection, StoreFlag, StoreEpoch, CountFrame]

  const ANSWERED := [Serve, Receive]

  /** One wave rendered to the end, and its frame published. */
  function Settling(size: nat): seq<Action> { OneWave(size) + RENDERED }

  /** The wave under way ends, and one begun now. */
  function OneWave(size: nat): seq<Action> { [Drain, FinishWave(size, true), ReadEpoch, Drain, FinishWave(size, true)] }

  lemma PumpRests(s: State)
    ensures Run(s, PUMPED).pump.Waiting? && Run(s, PUMPED).client == s.client && Run(s, PUMPED).verdicts == s.verdicts
  {
    FourSteps(s, PUMPED);
  }

  lemma ExchangeEnds(s: State)
    requires s.pump.Waiting?
    ensures var t := Run(s, ANSWERED); t.pump.Waiting? && !t.client.Sent? && !t.client.Answered? && t.verdicts == s.verdicts
  {
    var s1 := Step(s, Serve);
    assert ANSWERED[1..] == [Receive] && [Receive][1..] == [];
    assert Run(s1, [Receive]) == Run(Step(s1, Receive), []);
  }

  lemma LateLoads(s: State)
    requires s.client.CounterSeen? || s.client.EpochAccepted? || s.client.CounterSeenAgain? || s.client.Idle?
    ensures var t := Step(Step(Step(s, LoadEpoch), LoadCounterAgain), LoadFlag);
      t.client.Idle? && t == s.(client := Idle, verdicts := t.verdicts) && |s.verdicts| <= |t.verdicts|
  {}

  lemma PollEnds(s: State)
    requires s.pump.Waiting? && !s.client.Sent? && !s.client.Answered?
    ensures var t := Run(s, POLLED); t.pump.Waiting? && t.client.Idle? && t.lastAcked == s.lastAcked && |s.verdicts| <= |t.verdicts|
  {
    FourSteps(s, POLLED);
    var s1 := Step(s, LoadCounter);
    assert s1 == s.(client := s1.client) && !s1.client.Sent? && !s1.client.Answered? && !s1.client.Polled?;
    hide Step, Run;
    LateLoads(s1);
  }

  const RENDERED := [TakeFrame, StoreFlag, StoreEpoch, CountFrame]

  lemma WaveRenders(s: State)
    requires s.pump.Waiting?
    ensures var t := Run(s, OneWave(s.header.size));
      && t.ready.Some? && t.ready.value.stamp == s.epoch && t.ready.value.size == s.header.size && t.ready.value.converged
      && t == s.(wave := NoWave, ready := t.ready)
  {
    FiveSteps(s, OneWave(s.header.size));
  }

  lemma FrameShows(s: State)
    requires s.pump.Waiting? && s.ready.Some? && s.ready.value.size == s.header.size
    ensures var t, f := Run(s, RENDERED), s.ready.value;
      && t.client == s.client && t.lastAcked == s.lastAcked && t.verdicts == s.verdicts && t.ready.None?
      && t.header.counter == s.header.counter + 1 && t.header.epoch == f.stamp && t.header.converged == f.converged
  {
    FourSteps(s, RENDERED);
  }

  lemma WaveSettles(s: State)
    requires s.pump.Waiting? && s.client.Idle? && WrittenInv(s)
    ensures var t := Run(s, Settling(s.header.size));
      && t.client.Idle? && t.lastAcked == s.lastAcked && t.verdicts == s.verdicts
      && t.header.counter != 0 && t.header.epoch >= t.lastAcked && t.header.converged
  {
    RunSplits(s, OneWave(s.header.size), RENDERED);
    WaveRenders(s);
    FrameShows(Run(s, OneWave(s.header.size)));
  }

  /** From every reachable state, whatever was under way, convergence can still be
      reached without another request: finish it, render one wave that settles,
      and the next poll answers true. */
  lemma ConvergenceStaysReachable(size: nat, actions: seq<Action>)
    ensures var s := Run(Run(Run(Run(Start(size), actions), PUMPED), ANSWERED), POLLED);
      var t := Run(Run(s, Settling(s.header.size)), [Poll] + POLLED);
      |t.verdicts| == |s.verdicts| + 1 && t.verdicts[|s.verdicts|].acked == s.lastAcked == t.lastAcked
  {
    var s0 := Run(Start(size), actions);
    var s1 := Run(s0, PUMPED);
    var s2 := Run(s1, ANSWERED);
    var s3 := Run(s2, POLLED);
    WrittenRun(Start(size), actions);
    WrittenRun(s0, PUMPED);
    WrittenRun(s1, ANSWERED);
    WrittenRun(s2, POLLED);
    hide Run;
    PumpRests(s0);
    ExchangeEnds(s1);
    PollEnds(s2);
    WaveSettles(s3);
    PollAnswers(Run(s3, Settling(s3.header.size)));
  }

  // ---------------------------------------------------------------- rejections

  function InFlight(s: State): seq<Message> {
    if s.client.Answered? && s.client.reply.Ack? then s.client.reply.rejected else []
  }

  /** Every rejection raised is delivered, on its way, or pending, in order. */
  ghost predicate RejectionInv(s: State) {
    && s.raised == s.delivered + InFlight(s) + s.rejected
    && s.header.rejectedEdits == s.header.bumps % WORD && s.seenRejections < WORD
    && (s.pump.Raising? ==> s.rejected != [])
  }

  lemma RejectKeeps(s: State, message: Message)
    requires RejectionInv(s)
    ensures RejectionInv(Step(s, Reject(message)))
  {
    if s.pump.Waiting? {
      assert s.delivered + InFlight(s) + (s.rejected + [message]) == (s.delivered + InFlight(s) + s.rejected) + [message];
    }
  }

  lemma CountKeeps(s: State)
    requires RejectionInv(s)
    ensures RejectionInv(Step(s, CountRejection))
  {
    CountWraps(s.header.bumps);
  }

  lemma OthersKeep(s: State, a: Action)
    requires RejectionInv(s) && !a.Reject? && !a.CountRejection?
    ensures RejectionInv(Step(s, a))
  {}

  lemma RejectionStep(s: State, a: Action)
    requires RejectionInv(s)
    ensures RejectionInv(Step(s, a))
  {
    hide RejectionInv, Step;
    match a
    case Reject(message) => RejectKeeps(s, message);
    case CountRejection => CountKeeps(s);
    case _ => OthersKeep(s, a);
  }

  lemma CountWraps(n: nat)
    ensures (n % WORD + 1) % WORD == (n + 1) % WORD
  {}

  lemma {:induction false} RejectionRun(s: State, actions: seq<Action>)
    requires RejectionInv(s)
    ensures RejectionInv(Run(s, actions))
    decreases |actions|
  {
    if actions != [] {
      RejectionStep(s, actions[0]);
      RejectionRun(Step(s, actions[0]), actions[1..]);
    }
  }

  /** Rejections reach the client exactly once and in order: over every run,
      what was delivered, what the current reply carries, and what is still
      pending are together what was raised. */
  lemma RejectionsDeliveredOnce(size: nat, actions: seq<Action>)
    ensures var t := Run(Start(size), actions); t.raised == t.delivered + InFlight(t) + t.rejected
  {
    RejectionRun(Start(size), actions);
  }

  /** Rejections listed and counted: all but the one being raised. */
  function Counted(s: State): int { |s.rejected| - (if s.pump.Raising? then 1 else 0) }

  /** In a generation that started with nothing pending and the counter where
      the client last saw it, the counter is ahead by at least what is counted,
      unless a request that will drain it is on its way. */
  ghost predicate NoticeInv(s: State) {
    s.startedClean && s.header.bumps < WORD ==>
      && s.seenRejections <= s.header.bumps
      && (Counted(s) <= s.header.bumps - s.seenRejections || (s.client.Sent? && s.client.request.Edit?))
  }

  lemma NoticeStep(s: State, a: Action)
    requires RejectionInv(s) && NoticeInv(s)
    ensures NoticeInv(Step(s, a))
  {
    if s.header.bumps < WORD { Small(s.header.bumps); }
  }

  lemma Small(n: nat)
    requires n < WORD
    ensures n % WORD == n
  {}

  lemma {:induction false} NoticeRun(s: State, actions: seq<Action>)
    requires RejectionInv(s) && NoticeInv(s)
    ensures NoticeInv(Run(s, actions))
    decreases |actions|
  {
    if actions != [] {
      RejectionStep(s, actions[0]);
      NoticeStep(s, actions[0]);
      NoticeRun(Step(s, actions[0]), actions[1..]);
    }
  }

  /** An idle client can tell that rejections wait for it. */
  predicate Noticeable(s: State) { Counted(s) > 0 ==> s.header.rejectedEdits != s.seenRejections }

  /** In a generation that started clean, and before the counter wraps, an idle
      client always notices; all it can miss is a rejection just being raised. */
  lemma RejectionsAreNoticed(size: nat, actions: seq<Action>)
    ensures var t := Run(Start(size), actions);
      t.client.Idle? && t.startedClean && t.header.bumps < WORD ==> Noticeable(t)
  {
    RejectionRun(Start(size), actions);
    NoticeRun(Start(size), actions);
    var t := Run(Start(size), actions);
    if t.header.bumps < WORD { Small(t.header.bumps); }
  }

  lemma ThreeSteps(s: State, a: Action, b: Action, c: Action)
    ensures Run(s, [a, b, c]) == Step(Step(Step(s, a), b), c)
  {
    hide Step;
    var s2 := Step(Step(s, a), b);
    assert [a, b, c][1..] == [b, c] && [b, c][1..] == [c] && [c][1..] == [];
    assert Run(s2, [c]) == Run(Step(s2, c), []);
    assert Run(Step(s, a), [b, c]) == Run(s2, [c]);
  }

  lemma SendOnly(s: State, request: Request)
    requires s.client.Idle?
    ensures Step(s, Send(request)) == s.(client := Sent(request))
  {}

  /** One exchange: an edit places its calls and brings home what is pending. */
  lemma EditCounts(s: State, calls: nat)
    requires s.client.Idle? && !Locked(s)
    ensures Run(s, [Send(Edit(calls)), Serve, Receive]) ==
      s.(epoch := s.epoch + calls, lastAcked := s.epoch + calls, rejected := [], delivered := s.delivered + s.rejected)
  {
    ThreeSteps(s, Send(Edit(calls)), Serve, Receive);
    SendOnly(s, Edit(calls));
  }

  /** A resize is one call, and opens a segment that shows nothing yet. */
  lemma ResizeCounts(s: State, size: nat)
    requires s.client.Idle? && !Locked(s)
    ensures var t := Run(s, [Send(Resize(size)), Serve, Receive]);
      t == s.(epoch := s.epoch + 1, lastAcked := s.epoch + 1, header := Header(size, 0, false, 0, 0, 0, 0, 0), startedClean := t.startedClean)
  {
    ThreeSteps(s, Send(Resize(size)), Serve, Receive);
    SendOnly(s, Resize(size));
  }

  /** An idle client's collection: when the counter has moved, one ping brings
      home all that is pending; when it has not, nothing happens. */
  lemma CollectDelivers(s: State)
    requires s.client.Idle? && !Locked(s)
    ensures Run(s, [Collect, Serve, Receive]) ==
      if s.header.rejectedEdits == s.seenRejections then s
      else s.(rejected := [], delivered := s.delivered + s.rejected, seenRejections := s.header.rejectedEdits, lastAcked := s.epoch)
  {
    ThreeSteps(s, Collect, Serve, Receive);
    if s.header.rejectedEdits != s.seenRejections {
      assert Step(s, Collect) == s.(client := Sent(Edit(0)), seenRejections := s.header.rejectedEdits);
    }
  }

  // ---------------------------------------------------------------- what a resize hides

  /** The generation goes on: nobody asks for another size. */
  predicate KeepsSize(actions: seq<Action>) {
    forall n :: 0 <= n < |actions| ==> !(actions[n].Send? && actions[n].request.Resize?)
  }

  /** Whatever happens in this generation before its counter wraps, an idle
      client notices what is pending. */
  ghost predicate AlwaysNotices(g: State) {
    forall actions :: KeepsSize(actions) ==>
      var t := Run(g, actions); t.client.Idle? && t.header.bumps < WORD ==> Noticeable(t)
  }

  predicate Resizing(s: State) { s.client.Sent? && s.client.request.Resize? }

  lemma {:induction false} GenerationRun(g: State, actions: seq<Action>)
    requires !Resizing(g) && KeepsSize(actions)
    ensures Run(g, actions).startedClean == g.startedClean
    decreases |actions|
  {
    if actions != [] {
      assert !(actions[0].Send? && actions[0].request.Resize?);
      forall n | 0 <= n < |actions[1..]| ensures !(actions[1..][n].Send? && actions[1..][n].request.Resize?) {
        assert actions[1..][n] == actions[n + 1];
      }
      GenerationRun(Step(g, actions[0]), actions[1..]);
    }
  }

  lemma CleanNotices(g: State)
    requires RejectionInv(g) && NoticeInv(g) && g.startedClean && !Resizing(g)
    ensures AlwaysNotices(g)
  {
    forall actions | KeepsSize(actions)
      ensures var t := Run(g, actions); t.client.Idle? && t.header.bumps < WORD ==> Noticeable(t)
    {
      var t := Run(g, actions);
      RejectionRun(g, actions);
      NoticeRun(g, actions);
      GenerationRun(g, actions);
      if t.header.bumps < WORD { Small(t.header.bumps); }
    }
  }

  /** So many rejections raised, one after the other. */
  function Raises(n: nat): seq<Action> {
    if n == 0 then [] else [Reject("edit"), CountRejection] + Raises(n - 1)
  }

  lemma {:induction false} RaisesRun(s: State, n: nat)
    requires s.pump.Waiting? && s.client.Idle?
    ensures KeepsSize(Raises(n))
    ensures var t := Run(s, Raises(n));
      && t.pump.Waiting? && t.client.Idle? && t.seenRejections == s.seenRejections
      && |t.rejected| == |s.rejected| + n && t.header.bumps == s.header.bumps + n
    decreases n
  {
    if n > 0 {
      var one := [Reject("edit"), CountRejection];
      assert one[1..] == [CountRejection] && [CountRejection][1..] == [];
      var next := Step(Step(s, one[0]), one[1]);
      assert Run(Step(s, one[0]), [CountRejection]) == next;
      RunSplits(s, one, Raises(n - 1));
      RaisesRun(next, n - 1);
      forall m | 0 <= m < |Raises(n)| ensures !(Raises(n)[m].Send? && Raises(n)[m].request.Resize?) {
        if m >= 2 { assert Raises(n)[m] == Raises(n - 1)[m - 2]; }
      }
    }
  }

  /** The reply arrives, and the pump finishes the frame it may be on. */
  const REPLIED := [Receive, StoreFlag, StoreEpoch, CountFrame]

  lemma RepliedRuns(g: State)
    requires g.client.Answered? && g.client.reply.Resized? && !Locked(g)
    ensures var t := Run(g, REPLIED);
      && t.pump.Waiting? && t.client.Idle? && t.seenRejections == g.seenRejections && t.rejected == g.rejected
      && t.header.bumps == g.header.bumps && t.header.rejectedEdits == g.header.rejectedEdits
  {
    var acts := REPLIED;
    var s1 := Step(g, acts[0]);
    var s2 := Step(s1, acts[1]);
    var s3 := Step(s2, acts[2]);
    var s4 := Step(s3, acts[3]);
    assert acts[1..][1..][1..][1..] == [];
    assert Run(s3, acts[1..][1..][1..]) == Run(s4, acts[1..][1..][1..][1..]);
    assert Run(s2, acts[1..][1..]) == s4;
    assert Run(s1, acts[1..]) == s4;
  }

  /** Raising just as many rejections as the client had seen brings the fresh
      counter to where the client last saw the old one. */
  lemma ResizeMisses(g: State)
    requires RejectionInv(g) && g.client.Answered? && g.client.reply.Resized? && !Locked(g)
    requires g.header.bumps == 0 && (g.rejected != [] || g.seenRejections != 0)
    ensures !AlwaysNotices(g)
  {
    var n := g.seenRejections;
    RepliedRuns(g);
    RaisesRun(Run(g, REPLIED), n);
    RunSplits(g, REPLIED, Raises(n));
    var actions := REPLIED + Raises(n);
    assert KeepsSize(actions);
    RejectionRun(g, actions);
    Small(n);
    assert !Noticeable(Run(g, actions));
  }

  /** An idle client notices pending rejections at every point of the generation
      a resize opens, before its counter wraps, exactly when nothing was pending
      at the resize and the client had never collected: the counter starts over,
      and what the client saw does not. */
  lemma ResizeNoticedExactly(size: nat, actions: seq<Action>)
    requires var s := Run(Start(size), actions); Resizing(s) && !Locked(s)
    ensures var s := Run(Start(size), actions);
      AlwaysNotices(Step(s, Serve)) <==> s.rejected == [] && s.seenRejections == 0
  {
    var s := Run(Start(size), actions);
    RejectionRun(Start(size), actions);
    RejectionStep(s, Serve);
    if s.rejected == [] && s.seenRejections == 0 { CleanNotices(Step(s, Serve)); }
    else { ResizeMisses(Step(s, Serve)); }
  }

  /** A rejection a resize hides at once: raised, never collected, and the fresh
      segment's counter stands where the client last saw the old one. */
  lemma ResizeHidesARejection()
    ensures var t := Run(Start(1), [Reject("bad edit"), CountRejection, Send(Resize(2)), Serve, Receive]);
      t.client.Idle? && t.rejected == ["bad edit"] && !Noticeable(t)
  {
    var acts := [Reject("bad edit"), CountRejection, Send(Resize(2)), Serve, Receive];
    FiveSteps(Start(1), acts);
    hide Run;
    var s3 := Step(Step(Step(Start(1), acts[0]), acts[1]), acts[2]);
    assert s3.rejected == ["bad edit"] && s3.client == Sent(Resize(2)) && s3.pump.Waiting? && s3.seenRejections == 0;
  }
}
