/** Concrete delivery sequences from a fresh normaliser, including the places
    where the code's behaviour differs from what one might expect of it. */
module Scenarios {
  import opened Events
  import opened State
  import opened Transitions

  /** An element snapshot that reports `rate` and is neither paused nor seeking. */
  function Rolling(rate: int): MediaAttributes
  {
    MediaAttributes(rate, false, false)
  }

  /** An element snapshot at rate 1 that reports paused and not seeking. */
  const PausedElement := MediaAttributes(1, true, false)

  /** Delivery of the first input and then the rest. */
  lemma RunCons(m: Machine, inputs: seq<Input>)
    requires inputs != []
    ensures var first := Deliver(m, inputs[0]);
      && Run(m, inputs).next == Run(first.next, inputs[1..]).next
      && Run(m, inputs).out == first.out + Run(first.next, inputs[1..]).out
  {
  }

  /** Loading at rate zero defers `Loaded`; the next positive-rate `ratechange`
      releases it, and nothing else. */
  lemma DeferredLoadReleasedByRatechange(rate: int)
    requires rate > 0
    ensures Run(InitialMachine(), [Input(RawCanPlayThrough, Rolling(0)), Input(RawRatechange, Rolling(rate))]).out
            == [Loaded]
  {
    var inputs := [Input(RawCanPlayThrough, Rolling(0)), Input(RawRatechange, Rolling(rate))];
    var m0 := InitialMachine();
    RunCons(m0, inputs);
    var m1 := Deliver(m0, inputs[0]).next;
    assert m1.state == InitialState().(deferLoadedEvent := true);
    RunCons(m1, inputs[1..]);
    var start := m1.(timerPending := false);
    RedriveSplits(start, Rolling(rate));
    var loaded := RedriveLoad(start, Rolling(rate));
    assert loaded.out == [Loaded] && loaded.next.state == InitialState().(loading := false);
    assert Redrive(start, Rolling(rate)) == loaded;
    assert Deliver(m1, inputs[1]).out == [Loaded];
  }

  /** A raw `pause` has no readiness guard: from the fresh record, still loading,
      it reports `Pause`; a second one is deduplicated. */
  lemma PauseWhileLoading()
    ensures var r := Run(InitialMachine(), [Input(RawPause, PausedElement), Input(RawPause, PausedElement)]);
      r.out == [Pause] && r.next.state.loading
  {
    var inputs := [Input(RawPause, PausedElement), Input(RawPause, PausedElement)];
    var m0 := InitialMachine();
    RunCons(m0, inputs);
    var m1 := Deliver(m0, inputs[0]).next;
    assert m1.state == InitialState().(paused := true);
    RunCons(m1, inputs[1..]);
  }

  /** Nor has a raw `playing`: the first one reports `Playing` while the record
      is still loading, and the record stays loading. */
  lemma PlayingWhileLoading()
    ensures var r := OnPlaying(InitialMachine());
      r.out == [Playing] && r.next.state.loading && r.next.state.initialPlayTriggered
  {
  }

  /** `ended` does not silence the normaliser: a raw `playing` after it still
      reports the first start, since nothing else had started playback. */
  lemma PlayingAfterEnded()
    ensures var inputs := [Input(RawCanPlayThrough, Rolling(1)), Input(RawEnded, Rolling(1)), Input(RawPlaying, Rolling(1))];
      Run(InitialMachine(), inputs).out == [Loaded, Ended, Playing]
  {
    var inputs := [Input(RawCanPlayThrough, Rolling(1)), Input(RawEnded, Rolling(1)), Input(RawPlaying, Rolling(1))];
    var m0 := InitialMachine();
    RunCons(m0, inputs);
    var m1 := Deliver(m0, inputs[0]).next;
    assert m1.state == InitialState().(loading := false);
    RunCons(m1, inputs[1..]);
    var m2 := Deliver(m1, inputs[1]).next;
    assert m2.state == InitialState().(loading := false, ended := true, paused := true);
    assert inputs[1..][1..] == [inputs[2]];
    RunCons(m2, inputs[2..]);
  }

  /** `ended` does not clear a deferred load either: a load deferred at rate
      zero is reported by a `pause` that follows the end and a first start. */
  lemma LoadedAfterEnded()
    ensures var inputs := [Input(RawCanPlayThrough, Rolling(0)), Input(RawEnded, Rolling(0)),
                           Input(RawPlaying, Rolling(0)), Input(RawPause, PausedElement)];
      Run(InitialMachine(), inputs).out == [Ended, Playing, Loaded, Pause]
  {
    var inputs := [Input(RawCanPlayThrough, Rolling(0)), Input(RawEnded, Rolling(0)),
                   Input(RawPlaying, Rolling(0)), Input(RawPause, PausedElement)];
    var m0 := InitialMachine();
    RunCons(m0, inputs);
    var m1 := Deliver(m0, inputs[0]).next;
    assert m1.state == InitialState().(deferLoadedEvent := true);
    RunCons(m1, inputs[1..]);
    var m2 := Deliver(m1, inputs[1]).next;
    assert m2.state == InitialState().(deferLoadedEvent := true, loading := false, ended := true, paused := true);
    assert inputs[1..][1..] == inputs[2..];
    RunCons(m2, inputs[2..]);
    var m3 := Deliver(m2, inputs[2]).next;
    assert m3.state == m2.state.(deferPlayingEvent := true, initialPlayTriggered := true, paused := false);
    assert inputs[2..][1..] == [inputs[3]];
    RunCons(m3, inputs[3..]);
  }

  /** The record after loading at a positive rate and the first start. */
  function Started(): PlaybackState
  {
    InitialState().(loading := false, deferPlayingEvent := true, initialPlayTriggered := true)
  }

  lemma StartsPlaying()
    ensures var r := Run(InitialMachine(), [Input(RawCanPlayThrough, Rolling(1)), Input(RawPlaying, Rolling(1))]);
      r.out == [Loaded, Playing] && r.next == Machine(Started(), false)
  {
    var inputs := [Input(RawCanPlayThrough, Rolling(1)), Input(RawPlaying, Rolling(1))];
    var m0 := InitialMachine();
    RunCons(m0, inputs);
    var m1 := Deliver(m0, inputs[0]).next;
    assert m1.state == InitialState().(loading := false);
    RunCons(m1, inputs[1..]);
  }

  /** Pause, play and the raw `playing` that follows: the resume is reported as
      `Playing`, and the record is back where the first start left it. */
  lemma PauseAndResume()
    ensures var r := Run(Machine(Started(), false),
                         [Input(RawPause, PausedElement), Input(RawPlay, Rolling(1)), Input(RawPlaying, Rolling(1))]);
      r.out == [Pause, Play, Playing] && r.next == Machine(Started(), false)
  {
    var inputs := [Input(RawPause, PausedElement), Input(RawPlay, Rolling(1)), Input(RawPlaying, Rolling(1))];
    var m0 := Machine(Started(), false);
    RunCons(m0, inputs);
    var m1 := Deliver(m0, inputs[0]).next;
    assert m1.state == Started().(paused := true);
    RunCons(m1, inputs[1..]);
    var m2 := Deliver(m1, inputs[1]).next;
    assert m2.state == Started().(paused := true, playRequested := true);
    assert inputs[1..][1..] == [inputs[2]];
    RunCons(m2, inputs[2..]);
  }

  /** A stall, then a seek while stalled, then the end of the seek: the stall
      is closed before the seek is opened. */
  lemma SeekWhileBuffering()
    ensures var r := Run(Machine(Started(), false),
                         [Input(RawWaiting, Rolling(1)), Input(RawSeeking, Rolling(1)), Input(RawSeeked, Rolling(1))]);
      r.out == [Buffering, Buffered, Seeking, Seeked] && r.next == Machine(Started(), false)
  {
    var inputs := [Input(RawWaiting, Rolling(1)), Input(RawSeeking, Rolling(1)), Input(RawSeeked, Rolling(1))];
    var m0 := Machine(Started(), false);
    RunCons(m0, inputs);
    var m1 := Deliver(m0, inputs[0]).next;
    assert m1.state == Started().(buffering := true);
    RunCons(m1, inputs[1..]);
    var m2 := Deliver(m1, inputs[1]).next;
    assert m2.state == Started().(seeking := true);
    assert inputs[1..][1..] == [inputs[2]];
    RunCons(m2, inputs[2..]);
  }

  /** A `waiting` that arrives while the element is already seeking opens the
      seek instead of a stall. */
  lemma WaitingWhileElementSeeks()
    ensures var r := Deliver(Machine(Started(), false), Input(RawWaiting, MediaAttributes(1, false, true)));
      r.out == [Seeking] && r.next == Machine(Started().(seeking := true), false)
  {
  }

  /** A drop to rate zero schedules the debounce; if the rate is still zero when
      it fires, a stall is reported, and the next positive rate ends it through
      the re-driven `playing`. */
  lemma RateDropReportsStall()
    ensures var r := Run(Machine(Started(), false),
                         [Input(RawRatechange, Rolling(0)), Input(TimerExpired, Rolling(0)), Input(RawRatechange, Rolling(1))]);
      r.out == [Buffering, Buffered] && r.next == Machine(Started(), false)
  {
    var inputs := [Input(RawRatechange, Rolling(0)), Input(TimerExpired, Rolling(0)), Input(RawRatechange, Rolling(1))];
    var m0 := Machine(Started(), false);
    RunCons(m0, inputs);
    RedriveSplits(m0, Rolling(0));
    var m1 := Deliver(m0, inputs[0]).next;
    assert m1 == Machine(Started(), true);
    RunCons(m1, inputs[1..]);
    var m2 := Deliver(m1, inputs[1]).next;
    assert m2 == Machine(Started().(buffering := true), false);
    assert inputs[1..][1..] == [inputs[2]];
    RunCons(m2, inputs[2..]);
    RedriveSplits(m2, Rolling(1));
    assert RedrivePlaying(m2, Rolling(1)) == Step(Machine(Started(), false), [Buffered]);
  }

  /** If the rate recovers before the debounce fires, the timer is cancelled
      and no stall is reported. */
  lemma RateRecoveryCancelsStall()
    ensures var r := Run(Machine(Started(), false),
                         [Input(RawRatechange, Rolling(0)), Input(RawRatechange, Rolling(1)), Input(TimerExpired, Rolling(0))]);
      r.out == [] && r.next == Machine(Started(), false)
  {
    var inputs := [Input(RawRatechange, Rolling(0)), Input(RawRatechange, Rolling(1)), Input(TimerExpired, Rolling(0))];
    var m0 := Machine(Started(), false);
    RunCons(m0, inputs);
    RedriveSplits(m0, Rolling(0));
    var m1 := Deliver(m0, inputs[0]).next;
    assert m1 == Machine(Started(), true);
    RunCons(m1, inputs[1..]);
    RedriveSplits(m1.(timerPending := false), Rolling(1));
    var m2 := Deliver(m1, inputs[1]).next;
    assert m2 == Machine(Started(), false);
    assert inputs[1..][1..] == [inputs[2]];
    RunCons(m2, inputs[2..]);
  }

  /** The re-drives of a `ratechange` run before its readiness guard: a resume
      requested before the end is reported as `Playing` after `Ended`. */
  lemma ResumeRedrivenAfterEnded()
    ensures var r := Run(Machine(Started(), false),
                         [Input(RawPause, PausedElement), Input(RawPlay, Rolling(1)), Input(RawEnded, Rolling(1)),
                          Input(RawRatechange, Rolling(1))]);
      r.out == [Pause, Play, Ended, Playing] && r.next.state.ended
  {
    var inputs := [Input(RawPause, PausedElement), Input(RawPlay, Rolling(1)), Input(RawEnded, Rolling(1)),
                   Input(RawRatechange, Rolling(1))];
    var m0 := Machine(Started(), false);
    RunCons(m0, inputs);
    var m1 := Deliver(m0, inputs[0]).next;
    assert m1.state == Started().(paused := true);
    RunCons(m1, inputs[1..]);
    var m2 := Deliver(m1, inputs[1]).next;
    assert m2.state == Started().(paused := true, playRequested := true);
    assert inputs[1..][1..] == inputs[2..];
    RunCons(m2, inputs[2..]);
    var m3 := Deliver(m2, inputs[2]).next;
    assert m3 == Machine(Started().(paused := true, playRequested := true, ended := true), false);
    assert inputs[2..][1..] == [inputs[3]];
    RunCons(m3, inputs[3..]);
    RedriveSplits(m3, Rolling(1));
    assert RedrivePlaying(m3, Rolling(1)).out == [Playing];
    var last := Deliver(m3, inputs[3]);
    assert last.out == [Playing] && last.next.state.ended;
  }
}
