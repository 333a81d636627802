/** The normaliser as the closure keeps it: a record and a timer handle that every
    handler reassigns, and the consumer callback, here the log of emitted events.
    Each handler is proved to do exactly what its pure transition says. */
module Normalization {
  import opened Events
  import opened State
  import T = Transitions
  import H = Handlers

  class Normalizer {
    var state: PlaybackState
    var timerPending: bool
    var emitted: seq<NormalizedEvent>

    function Current(): T.Machine
      reads this
    {
      T.Machine(state, timerPending)
    }

    ghost predicate Valid()
      reads this
    {
      T.Coherent(Current())
    }

    constructor ()
      ensures Current() == T.InitialMachine() && emitted == []
      ensures Valid()
    {
      state := InitialState();
      timerPending := false;
      emitted := [];
    }

    method OnCanPlayThrough(element: T.MediaAttributes)
      modifies this
      ensures Current() == T.OnCanPlayThrough(old(Current()), element).next
      ensures emitted == old(emitted) + T.OnCanPlayThrough(old(Current()), element).out
      ensures old(Valid()) ==> Valid()
    {
      H.CanPlayThroughFrame(Current(), element);
      if state.loading {
        // some engines report rate 0 while they still buffer: defer the load
        if element.playbackRate == 0 {
          state := state.(deferLoadedEvent := true);
        } else {
          state := state.(deferLoadedEvent := false, loading := false);
          emitted := emitted + [Loaded];
        }
      }
    }

    method OnEnded()
      modifies this
      ensures Current() == T.OnEnded(old(Current())).next
      ensures emitted == old(emitted) + T.OnEnded(old(Current())).out
      ensures old(Valid()) ==> Valid()
    {
      H.EndedForcesTerminalState(Current());
      state := state.(buffering := false, ended := true, loading := false, paused := true, seeking := false);
      timerPending := false;
      emitted := emitted + [Ended];
    }

    method OnPlay()
      modifies this
      ensures Current() == T.OnPlay(old(Current())).next
      ensures emitted == old(emitted) + T.OnPlay(old(Current())).out
      ensures old(Valid()) ==> Valid()
    {
      H.PlayCases(Current());
      if T.NotReady(state) {
        return;
      }
      if !state.paused || !state.initialPlayTriggered {
        return;
      }
      state := state.(playRequested := true);
      emitted := emitted + [Play];
    }

    method OnPlaying()
      modifies this
      ensures Current() == T.OnPlaying(old(Current())).next
      ensures emitted == old(emitted) + T.OnPlaying(old(Current())).out
      ensures old(Valid()) ==> Valid()
    {
      H.PlayingKeepsInvariants(Current());
      timerPending := false;
      var updates := state.(deferPlayingEvent := true);
      if !state.initialPlayTriggered {
        updates := updates.(initialPlayTriggered := true, paused := false, playRequested := false);
        emitted := emitted + [Playing];
      } else if state.buffering {
        updates := updates.(buffering := false);
        emitted := emitted + [Buffered];
      } else if state.seeking {
        updates := updates.(seeking := false, deferSeekedEvent := false);
        emitted := emitted + [Seeked];
      }
      // the resume check reads the record as it was before this call
      if state.paused && state.playRequested {
        updates := updates.(paused := false, playRequested := false);
        emitted := emitted + [Playing];
      }
      state := updates;
    }

    method OnPause(element: T.MediaAttributes)
      modifies this
      ensures Current() == T.OnPause(old(Current()), element).next
      ensures emitted == old(emitted) + T.OnPause(old(Current()), element).out
      ensures old(Valid()) ==> Valid()
    {
      ghost var m0 := Current();
      H.PauseKeepsInvariants(m0, element);
      if !state.playRequested && state.paused {
        return;
      }
      var updates := state.(playRequested := false);
      if state.deferLoadedEvent {
        updates := updates.(loading := false, deferLoadedEvent := false);
        emitted := emitted + [Loaded];
        if element.paused {
          updates := updates.(paused := true);
          emitted := emitted + [Pause];
        }
        assert updates == T.OnPause(m0, element).next.state;
      } else {
        updates := updates.(paused := true);
        emitted := emitted + [Pause];
        assert updates == T.OnPause(m0, element).next.state;
      }
      state := updates;
    }

    /** The first half of a rate change: replay, in order, each handler whose event
        was deferred while the rate was zero, now that it is positive. */
    method RedriveDeferred(element: T.MediaAttributes)
      modifies this
      ensures Current() == T.Redrive(old(Current()), element).next
      ensures emitted == old(emitted) + T.Redrive(old(Current()), element).out
      ensures old(Valid()) ==> Valid()
    {
      ghost var start := Current();
      var hasPositivePlaybackRate := element.playbackRate > 0;
      ghost var loaded := T.RedriveLoad(start, element);
      if state.deferLoadedEvent && hasPositivePlaybackRate {
        OnCanPlayThrough(element);
      }
      assert Current() == loaded.next && emitted == old(emitted) + loaded.out;
      ghost var seeked := T.RedriveSeeked(loaded.next, element);
      ghost var before := emitted;
      if state.deferSeekedEvent && hasPositivePlaybackRate {
        OnSeeked(element);
      }
      assert Current() == seeked.next && emitted == before + seeked.out;
      ghost var playing := T.RedrivePlaying(seeked.next, element);
      before := emitted;
      if state.deferPlayingEvent && hasPositivePlaybackRate {
        OnPlaying();
      }
      assert Current() == playing.next && emitted == before + playing.out;
      T.RedriveSplits(start, element);
      T.AppendPieces(old(emitted), loaded.out, seeked.out, playing.out);
    }

    method OnRatechange(element: T.MediaAttributes)
      modifies this
      ensures Current() == T.OnRatechange(old(Current()), element).next
      ensures emitted == old(emitted) + T.OnRatechange(old(Current()), element).out
      ensures old(Valid()) ==> Valid()
    {
      timerPending := false;
      ghost var start := Current();
      RedriveDeferred(element);
      ghost var redriven := T.Redrive(start, element);
      ghost var result := T.OnRatechange(old(Current()), element);
      if T.NotReady(state) {
        assert result == redriven;
        return;
      }
      var hasPositivePlaybackRate := element.playbackRate > 0;
      if T.ShouldTriggerRatechangeBuffer(state, element) {
        // schedule the 50 ms debounce; FireTimer re-checks before acting
        timerPending := true;
        assert result == T.Step(Current(), redriven.out);
      } else if state.buffering && hasPositivePlaybackRate {
        state := state.(buffering := false);
        assert result == T.Step(Current(), redriven.out + [Buffered]);
        T.AppendPieces(old(emitted), redriven.out, [Buffered], []);
        emitted := emitted + [Buffered];
      } else {
        assert result == redriven;
      }
    }

    method OnSeeked(element: T.MediaAttributes)
      modifies this
      ensures Current() == T.OnSeeked(old(Current()), element).next
      ensures emitted == old(emitted) + T.OnSeeked(old(Current()), element).out
      ensures old(Valid()) ==> Valid()
    {
      H.SeekedCases(Current(), element);
      if T.NotReady(state) {
        return;
      }
      // a seeked without a seek in progress happens when a deferred load
      // resolves between the two events
      if !state.seeking {
        return;
      }
      if element.playbackRate == 0 {
        state := state.(deferSeekedEvent := true);
        return;
      }
      state := state.(deferSeekedEvent := false, seeking := false);
      emitted := emitted + [Seeked];
    }

    method OnSeeking()
      modifies this
      ensures Current() == T.OnSeeking(old(Current())).next
      ensures emitted == old(emitted) + T.OnSeeking(old(Current())).out
      ensures old(Valid()) ==> Valid()
    {
      H.SeekingCases(Current());
      if T.NotReady(state) {
        return;
      }
      // close an open stall first, so the consumer can time it
      if state.buffering {
        emitted := emitted + [Buffered];
      }
      state := state.(buffering := false, seeking := true);
      emitted := emitted + [Seeking];
    }

    method OnTimeupdate(element: T.MediaAttributes)
      modifies this
      ensures Current() == T.OnTimeupdate(old(Current()), element).next
      ensures emitted == old(emitted) + T.OnTimeupdate(old(Current()), element).out
      ensures old(Valid()) ==> Valid()
    {
      H.TimeupdateCases(Current(), element);
      if T.NotReady(state) {
        return;
      }
      if state.buffering && !element.paused {
        state := state.(buffering := false);
        emitted := emitted + [Buffered];
      }
      emitted := emitted + [TimeUpdate];
    }

    method OnWaiting(element: T.MediaAttributes)
      modifies this
      ensures Current() == T.OnWaiting(old(Current()), element).next
      ensures emitted == old(emitted) + T.OnWaiting(old(Current()), element).out
      ensures old(Valid()) ==> Valid()
    {
      H.WaitingCases(Current(), element);
      timerPending := false;
      if T.NotReady(state) {
        return;
      }
      // a stall signal during a seek is not a buffering event
      if state.seeking {
        return;
      }
      // some engines send `waiting` before `seeking`
      if element.seeking {
        OnSeeking();
        return;
      }
      if state.buffering {
        return;
      }
      state := state.(buffering := true);
      emitted := emitted + [Buffering];
    }

    /** The debounce callback scheduled by OnRatechange, run by the host's timer. */
    method FireTimer(element: T.MediaAttributes)
      modifies this
      ensures Current() == T.FireTimer(old(Current()), element).next
      ensures emitted == old(emitted) + T.FireTimer(old(Current()), element).out
      ensures old(Valid()) ==> Valid()
    {
      H.FireTimerCases(Current(), element);
      if !timerPending {
        return;
      }
      timerPending := false;
      if T.ShouldTriggerRatechangeBuffer(state, element) {
        OnWaiting(element);
      }
    }
  
    /** The listener table: each raw event reaches its handler, with the element
        as the host reports it at that moment. */
    method Dispatch(i: T.Input)
      modifies this
      ensures Current() == T.Deliver(old(Current()), i).next
      ensures emitted == old(emitted) + T.Deliver(old(Current()), i).out
      ensures old(Valid()) ==> Valid()
    {
      match i.event
      case RawCanPlayThrough => OnCanPlayThrough(i.element);
      case RawEnded => OnEnded();
      case RawPause => OnPause(i.element);
      case RawPlay => OnPlay();
      case RawPlaying => OnPlaying();
      case RawRatechange => OnRatechange(i.element);
      case RawSeeked => OnSeeked(i.element);
      case RawSeeking => OnSeeking();
      case RawTimeupdate => OnTimeupdate(i.element);
      case RawWaiting => OnWaiting(i.element);
      case TimerExpired => FireTimer(i.element);
    }
  }
}
