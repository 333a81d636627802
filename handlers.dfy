/** What each handler does, stated against the pure transitions: which events it
    emits and in what order, which fields it may change, and that it keeps the
    machine invariant and the one-way latches. */
module Handlers {
  import opened Events
  import opened State
  import opened Transitions

  /** Handlers guarded by the readiness check change nothing and emit nothing
      while loading or ended; `waiting` still cancels the debounce timer. */
  lemma NotReadyHandlersAreInert(m: Machine, element: MediaAttributes)
    requires NotReady(m.state)
    ensures OnPlay(m) == Step(m, [])
    ensures OnSeeked(m, element) == Step(m, [])
    ensures OnSeeking(m) == Step(m, [])
    ensures OnTimeupdate(m, element) == Step(m, [])
    ensures OnWaiting(m, element) == Step(m.(timerPending := false), [])
  {
  }

  lemma CanPlayThroughCases(m: Machine, element: MediaAttributes)
    ensures var r := OnCanPlayThrough(m, element);
      && (!m.state.loading ==> r == Step(m, []))
      && (m.state.loading && element.playbackRate == 0 ==>
            r.next.state == m.state.(deferLoadedEvent := true) && r.out == [])
      && (m.state.loading && element.playbackRate != 0 ==>
            !r.next.state.loading && !r.next.state.deferLoadedEvent && r.out == [Loaded])
      && (Loaded in r.out <==> m.state.loading && element.playbackRate != 0)
  {
  }

  lemma CanPlayThroughFrame(m: Machine, element: MediaAttributes)
    ensures var r := OnCanPlayThrough(m, element);
      && r.next.timerPending == m.timerPending
      && UnchangedExcept(m.state, r.next.state, {DeferLoadedFlag, LoadingFlag})
      && Progressed(m.state, r.next.state)
      && (Coherent(m) ==> Coherent(r.next))
  {
    if m.state.loading && element.playbackRate == 0 {
      assert OnCanPlayThrough(m, element).next.state == m.state.(deferLoadedEvent := true);
    } else if m.state.loading {
      assert OnCanPlayThrough(m, element).next.state == m.state.(deferLoadedEvent := false, loading := false);
    }
  }

  lemma EndedForcesTerminalState(m: Machine)
    ensures var r := OnEnded(m);
      && !r.next.timerPending && r.out == [Ended]
      && r.next.state.ended && r.next.state.paused
      && !r.next.state.buffering && !r.next.state.loading && !r.next.state.seeking
      && UnchangedExcept(m.state, r.next.state, {BufferingFlag, EndedFlag, LoadingFlag, PausedFlag, SeekingFlag})
      && Progressed(m.state, r.next.state)
      && (Coherent(m) ==> Coherent(r.next))
  {
  }

  lemma PlayCases(m: Machine)
    ensures var r := OnPlay(m);
      && (r.out == [Play] <==> !NotReady(m.state) && m.state.paused && m.state.initialPlayTriggered)
      && (r.out == [Play] ==> r.next == m.(state := m.state.(playRequested := true)))
      && (r.out != [Play] ==> r == Step(m, []))
      && Progressed(m.state, r.next.state)
      && (Coherent(m) ==> Coherent(r.next))
  {
  }

  /** A raw `playing` emits at most one event from its priority branch, then
      `Playing` exactly when a resume was pending in the record before the call. */
  lemma PlayingEmissions(m: Machine)
    ensures var r := OnPlaying(m);
      && r.out == RecoveryEvent(m.state) + (if m.state.paused && m.state.playRequested then [Playing] else [])
      && (Consistent(m.state) && !m.state.initialPlayTriggered ==> r.out == [Playing])
  {
  }

  lemma PlayingUpdates(m: Machine)
    ensures var r := OnPlaying(m);
      && !r.next.timerPending && r.next.state.deferPlayingEvent
      && !(r.next.state.paused && r.next.state.playRequested)
      && (r.next.state.seeking ==> m.state.seeking)
      && (r.next.state.deferSeekedEvent ==> m.state.deferSeekedEvent)
      && r.next.state.loading == m.state.loading && r.next.state.ended == m.state.ended
      && (!m.state.initialPlayTriggered ==>
            r.next.state.initialPlayTriggered && !r.next.state.paused && !r.next.state.playRequested)
      && (m.state.initialPlayTriggered && m.state.buffering ==> !r.next.state.buffering)
      && (m.state.initialPlayTriggered && !m.state.buffering && m.state.seeking ==>
            !r.next.state.seeking && !r.next.state.deferSeekedEvent)
      && UnchangedExcept(m.state, r.next.state, {DeferPlayingFlag, InitialPlayFlag, PausedFlag, PlayRequestedFlag,
                                         BufferingFlag, SeekingFlag, DeferSeekedFlag})
  {
  }

  /** Field by field, what each branch of a raw `playing` leaves: the resume
      clears both `paused` and `playRequested`, and a branch not taken leaves its
      fields alone. */
  lemma PlayingBranches(m: Machine)
    ensures var s := m.state;
      var t := OnPlaying(m).next.state;
      var resumes := s.paused && s.playRequested;
      && t.initialPlayTriggered
      && (resumes ==> !t.paused && !t.playRequested)
      && (!s.initialPlayTriggered ==>
            && !t.paused && !t.playRequested
            && t.buffering == s.buffering && t.seeking == s.seeking && t.deferSeekedEvent == s.deferSeekedEvent)
      && (s.initialPlayTriggered && !resumes ==> t.paused == s.paused && t.playRequested == s.playRequested)
      && (s.initialPlayTriggered && s.buffering ==>
            !t.buffering && t.seeking == s.seeking && t.deferSeekedEvent == s.deferSeekedEvent)
      && (s.initialPlayTriggered && !s.buffering ==> !t.buffering && !t.seeking)
      && (s.initialPlayTriggered && !s.buffering && !s.seeking ==> t.deferSeekedEvent == s.deferSeekedEvent)
  {
  }

  lemma PlayingKeepsInvariants(m: Machine)
    ensures var r := OnPlaying(m);
      && Progressed(m.state, r.next.state)
      && (Coherent(m) ==> Coherent(r.next))
  {
  }

  lemma PauseCases(m: Machine, element: MediaAttributes)
    ensures var r := OnPause(m, element);
      && (!m.state.playRequested && m.state.paused ==> r == Step(m, []))
      && ((m.state.playRequested || !m.state.paused) && m.state.deferLoadedEvent ==>
            && r.out == [Loaded] + (if element.paused then [Pause] else [])
            && r.next.state == m.state.(playRequested := false, loading := false, deferLoadedEvent := false,
                                        paused := m.state.paused || element.paused))
      && ((m.state.playRequested || !m.state.paused) && !m.state.deferLoadedEvent ==>
            r.out == [Pause] && r.next.state == m.state.(playRequested := false, paused := true))
  {
  }

  lemma PauseFrame(m: Machine, element: MediaAttributes)
    ensures var r := OnPause(m, element);
      && r.next.timerPending == m.timerPending
      && UnchangedExcept(m.state, r.next.state, {PlayRequestedFlag, LoadingFlag, DeferLoadedFlag, PausedFlag})
  {
    PauseCases(m, element);
  }

  lemma PauseKeepsInvariants(m: Machine, element: MediaAttributes)
    ensures var r := OnPause(m, element);
      && Progressed(m.state, r.next.state)
      && (Coherent(m) ==> Coherent(r.next))
  {
  }

  lemma SeekedCases(m: Machine, element: MediaAttributes)
    ensures var r := OnSeeked(m, element);
      && r.next.timerPending == m.timerPending
      && UnchangedExcept(m.state, r.next.state, {DeferSeekedFlag, SeekingFlag})
      && (NotReady(m.state) || !m.state.seeking ==> r == Step(m, []))
      && (!NotReady(m.state) && m.state.seeking && element.playbackRate == 0 ==>
            r.next.state == m.state.(deferSeekedEvent := true) && r.out == [])
      && (!NotReady(m.state) && m.state.seeking && element.playbackRate != 0 ==>
            !r.next.state.seeking && !r.next.state.deferSeekedEvent && r.out == [Seeked])
      && Progressed(m.state, r.next.state)
      && (Coherent(m) ==> Coherent(r.next))
  {
  }

  lemma SeekingCases(m: Machine)
    ensures var r := OnSeeking(m);
      && r.next.timerPending == m.timerPending
      && UnchangedExcept(m.state, r.next.state, {BufferingFlag, SeekingFlag})
      && (!NotReady(m.state) ==>
            && r.out == (if m.state.buffering then [Buffered] else []) + [Seeking]
            && !r.next.state.buffering && r.next.state.seeking)
      && Progressed(m.state, r.next.state)
      && (Coherent(m) ==> Coherent(r.next))
  {
  }

  lemma TimeupdateCases(m: Machine, element: MediaAttributes)
    ensures var r := OnTimeupdate(m, element);
      && r.next.timerPending == m.timerPending
      && UnchangedExcept(m.state, r.next.state, {BufferingFlag})
      && (!NotReady(m.state) ==>
            && r.out == (if m.state.buffering && !element.paused then [Buffered] else []) + [TimeUpdate]
            && r.next.state.buffering == (m.state.buffering && element.paused))
      && Progressed(m.state, r.next.state)
      && (Coherent(m) ==> Coherent(r.next))
  {
  }

  lemma WaitingCases(m: Machine, element: MediaAttributes)
    ensures var r := OnWaiting(m, element);
      && !r.next.timerPending
      && (m.state.seeking ==> r.next.state == m.state && r.out == [])
      && (!NotReady(m.state) && !m.state.seeking && element.seeking ==>
            r == OnSeeking(m.(timerPending := false)) && Buffering !in r.out)
      && (!NotReady(m.state) && !m.state.seeking && !element.seeking && m.state.buffering ==>
            r.next.state == m.state && r.out == [])
      && (Buffering in r.out <==>
            !NotReady(m.state) && !m.state.seeking && !element.seeking && !m.state.buffering)
      && (Buffering in r.out ==> r.out == [Buffering] && r.next.state == m.state.(buffering := true))
      && Progressed(m.state, r.next.state)
      && (Coherent(m) ==> Coherent(r.next))
  {
  }

  /** A deferred seek left behind at a positive rate is one the guard in
      `OnSeeked` refused: the record is not ready, or not seeking. */
  predicate SeekSettled(s: PlaybackState)
  {
    s.deferSeekedEvent ==> NotReady(s) || !s.seeking
  }

  lemma RedriveLoadCases(m: Machine, element: MediaAttributes)
    ensures var r := RedriveLoad(m, element);
      && (element.playbackRate <= 0 ==> r == Step(m, []))
      && r.next.timerPending == m.timerPending
      && (r.out == [] || r.out == [Loaded])
      && (Loaded in r.out <==> m.state.deferLoadedEvent && m.state.loading && element.playbackRate > 0)
      && (Loaded in r.out ==> !r.next.state.loading)
      && r.next.state.deferSeekedEvent == m.state.deferSeekedEvent
      && r.next.state.deferPlayingEvent == m.state.deferPlayingEvent
      && Progressed(m.state, r.next.state)
      && (Coherent(m) ==> Coherent(r.next))
  {
    CanPlayThroughCases(m, element);
    CanPlayThroughFrame(m, element);
  }

  lemma RedriveSeekedCases(m: Machine, element: MediaAttributes)
    ensures var r := RedriveSeeked(m, element);
      && (element.playbackRate <= 0 ==> r == Step(m, []))
      && r.next.timerPending == m.timerPending
      && (r.out == [] || r.out == [Seeked])
      && (r.out == [Seeked] <==>
            element.playbackRate > 0 && m.state.deferSeekedEvent && !NotReady(m.state) && m.state.seeking)
      && (r.out == [Seeked] ==> !r.next.state.seeking && !r.next.state.deferSeekedEvent)
      && Loaded !in r.out
      && (element.playbackRate > 0 ==> SeekSettled(r.next.state))
      && r.next.state.deferPlayingEvent == m.state.deferPlayingEvent
      && NotReady(r.next.state) == NotReady(m.state)
      && Progressed(m.state, r.next.state)
      && (Coherent(m) ==> Coherent(r.next))
  {
    SeekedCases(m, element);
  }

  lemma RedrivePlayingCases(m: Machine, element: MediaAttributes)
    ensures var r := RedrivePlaying(m, element);
      && (element.playbackRate > 0 && m.state.deferPlayingEvent ==> r == OnPlaying(m))
      && (element.playbackRate <= 0 || !m.state.deferPlayingEvent ==> r == Step(m, []))
      && (!m.timerPending ==> !r.next.timerPending)
      && Loaded !in r.out
      && (SeekSettled(m.state) ==> SeekSettled(r.next.state))
      && (element.playbackRate > 0 && m.state.deferPlayingEvent ==>
            !(r.next.state.paused && r.next.state.playRequested))
      && NotReady(r.next.state) == NotReady(m.state)
      && Progressed(m.state, r.next.state)
      && (Coherent(m) ==> Coherent(r.next))
  {
    if m.state.deferPlayingEvent && element.playbackRate > 0 {
      PlayingEmissions(m);
      PlayingUpdates(m);
      PlayingKeepsInvariants(m);
      assert Loaded !in RecoveryEvent(m.state);
    }
  }

  /** The re-drives of a rate change: nothing at all unless the rate is
      positive, a deferred load first, and no `Loaded` after the first event. */
  lemma RedriveCases(m: Machine, element: MediaAttributes)
    requires !m.timerPending
    ensures var r := Redrive(m, element);
      && (element.playbackRate <= 0 ==> r == Step(m, []))
      && !r.next.timerPending
      && (Loaded in r.out <==> m.state.deferLoadedEvent && m.state.loading && element.playbackRate > 0)
      && (Loaded in r.out ==> r.out[0] == Loaded && Loaded !in r.out[1..] && !r.next.state.loading)
      && (element.playbackRate > 0 ==> SeekSettled(r.next.state))
      && (element.playbackRate > 0 && m.state.deferPlayingEvent ==>
            !(r.next.state.paused && r.next.state.playRequested))
      && Progressed(m.state, r.next.state)
      && (Coherent(m) ==> Coherent(r.next))
  {
    var loaded := RedriveLoad(m, element);
    RedriveLoadCases(m, element);
    var seeked := RedriveSeeked(loaded.next, element);
    RedriveSeekedCases(loaded.next, element);
    var playing := RedrivePlaying(seeked.next, element);
    RedrivePlayingCases(seeked.next, element);
    var r := Redrive(m, element);
    assert r.out == loaded.out + seeked.out + playing.out;
    assert Loaded !in seeked.out + playing.out;
    if Loaded in r.out {
      assert loaded.out == [Loaded];
      assert r.out[1..] == seeked.out + playing.out;
    }
  }

  /** The re-drives run in the fixed order load, seeked, playing: the output is a
      released load, then a released seek (only if the record is ready once the
      load has been handled), then whatever the re-driven `playing` emits on the
      record the seek re-drive left. */
  lemma RedriveEmits(m: Machine, element: MediaAttributes)
    ensures var loaded := RedriveLoad(m, element);
      var seeked := RedriveSeeked(loaded.next, element);
      var positive := element.playbackRate > 0;
      var playing := if positive && m.state.deferPlayingEvent then OnPlaying(seeked.next) else Step(seeked.next, []);
      var r := Redrive(m, element);
      && (loaded.out == [] || loaded.out == [Loaded])
      && (loaded.out == [Loaded] <==> positive && m.state.deferLoadedEvent && m.state.loading)
      && (seeked.out == [] || seeked.out == [Seeked])
      && (seeked.out == [Seeked] <==>
            && positive && m.state.deferSeekedEvent && m.state.seeking && !m.state.ended
            && (!m.state.loading || m.state.deferLoadedEvent))
      && r.out == loaded.out + seeked.out + playing.out
      && r.next == playing.next
  {
    var loaded := RedriveLoad(m, element);
    RedriveLoadCases(m, element);
    CanPlayThroughFrame(m, element);
    RedriveSeekedCases(loaded.next, element);
    var seeked := RedriveSeeked(loaded.next, element);
    RedrivePlayingCases(seeked.next, element);
    RedriveSplits(m, element);
  }

  /** The whole output of a raw `ratechange` at a positive rate: the re-drives in
      order, then `Buffered` exactly when the record is ready and still buffering
      after them, which also clears `buffering`. */
  lemma RatechangeEmits(m: Machine, element: MediaAttributes)
    requires element.playbackRate > 0
    ensures var m0 := m.(timerPending := false);
      var loaded := RedriveLoad(m0, element);
      var seeked := RedriveSeeked(loaded.next, element);
      var playing := if m.state.deferPlayingEvent then OnPlaying(seeked.next) else Step(seeked.next, []);
      var t := playing.next.state;
      var closes := !NotReady(t) && t.buffering;
      var r := OnRatechange(m, element);
      && r.out == loaded.out + seeked.out + playing.out + (if closes then [Buffered] else [])
      && r.next == Machine(if closes then t.(buffering := false) else t, false)
  {
    var m0 := m.(timerPending := false);
    RedriveEmits(m0, element);
    RedriveCases(m0, element);
  }

  /** A raw `ratechange` at a positive rate re-drives the deferred handlers; the
      timer is left scheduled exactly when the stall predicate holds once ready. */
  lemma RatechangeCases(m: Machine, element: MediaAttributes)
    ensures var r := OnRatechange(m, element);
      && (element.playbackRate <= 0 ==> r.next.state == m.state && r.out == [])
      && (r.next.timerPending <==> !NotReady(r.next.state) && ShouldTriggerRatechangeBuffer(r.next.state, element))
      && (Loaded in r.out <==> m.state.deferLoadedEvent && m.state.loading && element.playbackRate > 0)
      && (Loaded in r.out ==> r.out[0] == Loaded && Loaded !in r.out[1..] && !r.next.state.loading)
      && (element.playbackRate > 0 ==> SeekSettled(r.next.state))
      && (element.playbackRate > 0 && m.state.deferPlayingEvent ==>
            !(r.next.state.paused && r.next.state.playRequested))
      && (element.playbackRate > 0 && !NotReady(r.next.state) ==> !r.next.state.buffering)
      && Progressed(m.state, r.next.state)
      && (Coherent(m) ==> Coherent(r.next))
  {
    var m0 := m.(timerPending := false);
    RedriveCases(m0, element);
    var redriven := Redrive(m0, element);
    var r := OnRatechange(m, element);
    if !NotReady(redriven.next.state) && !ShouldTriggerRatechangeBuffer(redriven.next.state, element)
       && redriven.next.state.buffering && element.playbackRate > 0 {
      assert r.out == redriven.out + [Buffered];
      if Loaded in r.out {
        assert Loaded in redriven.out;
        assert r.out[1..] == redriven.out[1..] + [Buffered];
      }
    }
  }

  lemma FireTimerCases(m: Machine, element: MediaAttributes)
    ensures var r := FireTimer(m, element);
      && (!m.timerPending ==> r == Step(m, []))
      && !r.next.timerPending
      && (r.out == [Buffering] <==>
            m.timerPending && !NotReady(m.state) && ShouldTriggerRatechangeBuffer(m.state, element))
      && (r.out == [Buffering] ==> r.next.state == m.state.(buffering := true))
      && (r.out != [Buffering] ==> r.next.state == m.state && r.out == [])
      && Progressed(m.state, r.next.state)
      && (Coherent(m) ==> Coherent(r.next))
  {
  }
}
