/** Properties of every sequence of inputs the host can deliver: the machine
    invariant and the one-way latches hold in every reachable state, and the
    first start of playback announces itself exactly once. */
module Properties {
  import opened Events
  import opened State
  import opened Transitions
  import opened Handlers

  lemma DeliverKeepsInvariants(m: Machine, i: Input)
    ensures Progressed(m.state, Deliver(m, i).next.state)
    ensures Coherent(m) ==> Coherent(Deliver(m, i).next)
  {
    match i.event
    case RawCanPlayThrough => CanPlayThroughFrame(m, i.element);
    case RawEnded => EndedForcesTerminalState(m);
    case RawPause => PauseKeepsInvariants(m, i.element);
    case RawPlay => PlayCases(m);
    case RawPlaying => PlayingKeepsInvariants(m);
    case RawRatechange => RatechangeCases(m, i.element);
    case RawSeeked => SeekedCases(m, i.element);
    case RawSeeking => SeekingCases(m);
    case RawTimeupdate => TimeupdateCases(m, i.element);
    case RawWaiting => WaitingCases(m, i.element);
    case TimerExpired => FireTimerCases(m, i.element);
  }

  lemma {:induction false} RunKeepsInvariants(m: Machine, inputs: seq<Input>)
    ensures Progressed(m.state, Run(m, inputs).next.state)
    ensures Coherent(m) ==> Coherent(Run(m, inputs).next)
    decreases |inputs|
  {
    if inputs != [] {
      DeliverKeepsInvariants(m, inputs[0]);
      RunKeepsInvariants(Deliver(m, inputs[0]).next, inputs[1..]);
    }
  }

  /** Delivering `xs` and then `ys` is delivering `xs + ys`: the longer run ends
      where the second leg ends, and its log is the two logs in order. */
  lemma {:induction false} SerialAppend(deliver: (Machine, Input) -> Step, m: Machine, xs: seq<Input>, ys: seq<Input>)
    ensures var firstLeg := Serial(deliver, m, xs);
      && Serial(deliver, m, xs + ys).next == Serial(deliver, firstLeg.next, ys).next
      && Serial(deliver, m, xs + ys).out == firstLeg.out + Serial(deliver, firstLeg.next, ys).out
    decreases |xs|
  {
    if xs == [] {
      assert xs + ys == ys;
    } else {
      assert (xs + ys)[0] == xs[0];
      assert (xs + ys)[1..] == xs[1..] + ys;
      SerialAppend(deliver, deliver(m, xs[0]).next, xs[1..], ys);
    }
  }

  lemma RunAppend(m: Machine, xs: seq<Input>, ys: seq<Input>)
    ensures Run(m, xs + ys).next == Run(Run(m, xs).next, ys).next
    ensures Run(m, xs + ys).out == Run(m, xs).out + Run(Run(m, xs).next, ys).out
  {
    SerialAppend(Deliver, m, xs, ys);
  }

  /** The latches hold between any two points of one delivery sequence. */
  lemma LatchesAcrossRuns(m: Machine, xs: seq<Input>, ys: seq<Input>)
    ensures Progressed(Run(m, xs).next.state, Run(m, xs + ys).next.state)
  {
    RunAppend(m, xs, ys);
    RunKeepsInvariants(Run(m, xs).next, ys);
  }

  /** Every reachable machine: never buffering and seeking at once, a pending
      resume implies an earlier start and a paused record, no deferred load once
      ready, and a pending timer only while ready and not buffering. */
  lemma ReachableIsCoherent(inputs: seq<Input>)
    ensures Coherent(Run(InitialMachine(), inputs).next)
    ensures var s := Run(InitialMachine(), inputs).next.state;
      && !(s.buffering && s.seeking)
      && (s.playRequested ==> s.initialPlayTriggered)
      && (s.playRequested ==> s.paused)
  {
    RunKeepsInvariants(InitialMachine(), inputs);
  }

  /** In a reachable state a raw `playing` closes any resume request: afterwards
      `playRequested` is clear, whichever branch ran. */
  lemma ReachablePlayingClosesRequest(inputs: seq<Input>)
    ensures !OnPlaying(Run(InitialMachine(), inputs).next).next.state.playRequested
  {
    ReachableIsCoherent(inputs);
    PlayingBranches(Run(InitialMachine(), inputs).next);
  }

  /** In a reachable state a first-start raw `playing` emits exactly one `Playing`. */
  lemma ReachableFirstStartPlaysOnce(inputs: seq<Input>)
    ensures var m := Run(InitialMachine(), inputs).next;
      !m.state.initialPlayTriggered ==> OnPlaying(m).out == [Playing]
  {
    ReachableIsCoherent(inputs);
    PlayingEmissions(Run(InitialMachine(), inputs).next);
  }

  /** Once a run has started playback, `initialPlayTriggered` stays set however
      the run continues, a later raw `playing` never emits `Playing` twice, and
      any `Playing` it emits completes a resume request. */
  lemma ReachableStartIsPermanent(xs: seq<Input>, ys: seq<Input>)
    requires Run(InitialMachine(), xs).next.state.initialPlayTriggered
    ensures Run(InitialMachine(), xs + ys).next.state.initialPlayTriggered
    ensures OnPlaying(Run(InitialMachine(), xs + ys).next).out != [Playing, Playing]
    ensures var m := Run(InitialMachine(), xs + ys).next;
      Playing in OnPlaying(m).out ==> m.state.paused && m.state.playRequested
  {
    LatchesAcrossRuns(InitialMachine(), xs, ys);
    var m := Run(InitialMachine(), xs + ys).next;
    PlayingEmissions(m);
    var e := RecoveryEvent(m.state);
    var out := OnPlaying(m).out;
    assert |out| <= 1 || (|e| == 1 && out[0] == e[0]);
  }
}
