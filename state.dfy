/** The playback-state record carried by the normaliser, and the facts about it
    that every transition is measured against. */
module State {

  datatype PlaybackState = PlaybackState(
    buffering: bool,
    deferLoadedEvent: bool,
    deferPlayingEvent: bool,
    deferSeekedEvent: bool,
    ended: bool,
    initialPlayTriggered: bool,
    loading: bool,
    paused: bool,
    playRequested: bool,
    seeking: bool)

  /** Names for the ten fields, so that "which fields may change" can be said as a set. */
  datatype Flag =
    | BufferingFlag | DeferLoadedFlag | DeferPlayingFlag | DeferSeekedFlag | EndedFlag
    | InitialPlayFlag | LoadingFlag | PausedFlag | PlayRequestedFlag | SeekingFlag

  function Get(s: PlaybackState, f: Flag): bool
  {
    match f
    case BufferingFlag => s.buffering
    case DeferLoadedFlag => s.deferLoadedEvent
    case DeferPlayingFlag => s.deferPlayingEvent
    case DeferSeekedFlag => s.deferSeekedEvent
    case EndedFlag => s.ended
    case InitialPlayFlag => s.initialPlayTriggered
    case LoadingFlag => s.loading
    case PausedFlag => s.paused
    case PlayRequestedFlag => s.playRequested
    case SeekingFlag => s.seeking
  }

  /** `t` agrees with `s` on every field outside `may`. */
  predicate UnchangedExcept(s: PlaybackState, t: PlaybackState, may: set<Flag>)
  {
    (BufferingFlag !in may ==> s.buffering == t.buffering) &&
    (DeferLoadedFlag !in may ==> s.deferLoadedEvent == t.deferLoadedEvent) &&
    (DeferPlayingFlag !in may ==> s.deferPlayingEvent == t.deferPlayingEvent) &&
    (DeferSeekedFlag !in may ==> s.deferSeekedEvent == t.deferSeekedEvent) &&
    (EndedFlag !in may ==> s.ended == t.ended) &&
    (InitialPlayFlag !in may ==> s.initialPlayTriggered == t.initialPlayTriggered) &&
    (LoadingFlag !in may ==> s.loading == t.loading) &&
    (PausedFlag !in may ==> s.paused == t.paused) &&
    (PlayRequestedFlag !in may ==> s.playRequested == t.playRequested) &&
    (SeekingFlag !in may ==> s.seeking == t.seeking)
  }

  /** The record every normaliser starts from: loading, and nothing else. */
  function InitialState(): (s: PlaybackState)
    ensures forall f: Flag :: Get(s, f) <==> f == LoadingFlag
    ensures s.loading || s.ended
    ensures !s.deferLoadedEvent && !s.deferPlayingEvent && !s.deferSeekedEvent
    ensures Consistent(s)
  {
    PlaybackState(
      buffering := false,
      deferLoadedEvent := false,
      deferPlayingEvent := false,
      deferSeekedEvent := false,
      ended := false,
      initialPlayTriggered := false,
      loading := true,
      paused := false,
      playRequested := false,
      seeking := false)
  }

  /** The machine invariants: a buffer stall and a seek are never open at once,
      and a pending resume request implies that playback has started before and
      is paused now, so the request is open only between a resume `play` and the
      `playing` that completes it. */
  predicate Consistent(s: PlaybackState)
  {
    && !(s.buffering && s.seeking)
    && (s.playRequested ==> s.initialPlayTriggered)
    && (s.playRequested ==> s.paused)
  }

  /** The one-way latches: `ended`, `initialPlayTriggered` and `deferPlayingEvent`
      are never reset, and `loading`, once cleared, is never set again. */
  predicate Progressed(s: PlaybackState, t: PlaybackState)
  {
    (s.ended ==> t.ended) &&
    (s.initialPlayTriggered ==> t.initialPlayTriggered) &&
    (s.deferPlayingEvent ==> t.deferPlayingEvent) &&
    (!s.loading ==> !t.loading)
  }
}
