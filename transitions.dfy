/** Each raw-event handler of the normaliser as a pure transition: from the
    current record, the debounce-timer flag and the element's live attributes to
    the next record, the next timer flag and the normalised events emitted, in
    emission order. */
module Transitions {
  import opened Events
  import opened State

  /** What a handler reads from the media element at the moment it runs. Only
      comparisons of the rate with 0 matter, so the rate is an integer. */
  datatype MediaAttributes = MediaAttributes(playbackRate: int, paused: bool, seeking: bool)

  /** The normaliser's closure variables: the record and whether the 50 ms
      debounce timer is scheduled and not yet cancelled or fired. */
  datatype Machine = Machine(state: PlaybackState, timerPending: bool)

  /** The outcome of one handler call. */
  datatype Step = Step(next: Machine, out: seq<NormalizedEvent>)

  /** Runs `second` (computed from `first.next`) after `first`. */
  function AndThen(first: Step, second: Step): Step
  {
    Step(second.next, first.out + second.out)
  }

  predicate NotReady(s: PlaybackState)
  {
    s.loading || s.ended
  }

  /** Rate dropped to zero outside any seek or stall: a possible silent stall. */
  predicate ShouldTriggerRatechangeBuffer(s: PlaybackState, element: MediaAttributes)
  {
    !s.seeking && !s.buffering && element.playbackRate == 0 && !element.seeking
  }

  /** The machine invariant: the record is consistent, a deferred load only
      exists before the machine is ready, and a pending debounce timer only
      exists while ready and not buffering. */
  predicate Coherent(m: Machine)
  {
    && Consistent(m.state)
    && (m.state.deferLoadedEvent ==> NotReady(m.state))
    && (m.timerPending ==> !NotReady(m.state) && !m.state.buffering)
  }

  /** The first-branch event of a raw `playing`, in priority order. */
  function RecoveryEvent(s: PlaybackState): (e: seq<NormalizedEvent>)
    ensures |e| <= 1
    ensures Playing in e <==> !s.initialPlayTriggered
    ensures Buffered in e <==> s.initialPlayTriggered && s.buffering
    ensures Seeked in e <==> s.initialPlayTriggered && !s.buffering && s.seeking
    ensures e == [] <==> s.initialPlayTriggered && !s.buffering && !s.seeking
  {
    if !s.initialPlayTriggered then [Playing]
    else if s.buffering then [Buffered]
    else if s.seeking then [Seeked]
    else []
  }

  function OnCanPlayThrough(m: Machine, element: MediaAttributes): (r: Step)
  {
    var s := m.state;
    var next :=
      if !s.loading then s
      else if element.playbackRate == 0 then s.(deferLoadedEvent := true)
      else s.(deferLoadedEvent := false, loading := false);
    var out := if s.loading && element.playbackRate != 0 then [Loaded] else [];
    Step(m.(state := next), out)
  }

  function OnEnded(m: Machine): (r: Step)
  {
    var s := m.state;
    var next := s.(buffering := false, ended := true, loading := false, paused := true, seeking := false);
    Step(Machine(next, false), [Ended])
  }

  function OnPlay(m: Machine): (r: Step)
  {
    var s := m.state;
    var proceeds := !NotReady(s) && s.paused && s.initialPlayTriggered;
    var next := if proceeds then s.(playRequested := true) else s;
    Step(m.(state := next), if proceeds then [Play] else [])
  }

  function OnPlaying(m: Machine): (r: Step)
  {
    var s := m.state;
    var updates := s.(deferPlayingEvent := true);
    var updates :=
      if !s.initialPlayTriggered then updates.(initialPlayTriggered := true, paused := false, playRequested := false)
      else if s.buffering then updates.(buffering := false)
      else if s.seeking then updates.(seeking := false, deferSeekedEvent := false)
      else updates;
    var first := RecoveryEvent(s);
    // the resume check reads the record as it was before this call
    var resumes := s.paused && s.playRequested;
    var updates := if resumes then updates.(paused := false, playRequested := false) else updates;
    Step(Machine(updates, false), first + if resumes then [Playing] else [])
  }

  function OnPause(m: Machine, element: MediaAttributes): (r: Step)
  {
    var s := m.state;
    var proceeds := s.playRequested || !s.paused;
    var updates := s.(playRequested := false);
    var updates :=
      if s.deferLoadedEvent then updates.(loading := false, deferLoadedEvent := false)
      else updates.(paused := true);
    var updates := if s.deferLoadedEvent && element.paused then updates.(paused := true) else updates;
    var updates := if proceeds then updates else s;
    var out :=
      if !proceeds then []
      else if s.deferLoadedEvent then [Loaded] + (if element.paused then [Pause] else [])
      else [Pause];
    Step(m.(state := updates), out)
  }

  function OnSeeked(m: Machine, element: MediaAttributes): (r: Step)
  {
    var s := m.state;
    var proceeds := !NotReady(s) && s.seeking;
    var next :=
      if !proceeds then s
      else if element.playbackRate == 0 then s.(deferSeekedEvent := true)
      else s.(deferSeekedEvent := false, seeking := false);
    Step(m.(state := next), if proceeds && element.playbackRate != 0 then [Seeked] else [])
  }

  function OnSeeking(m: Machine): (r: Step)
  {
    var s := m.state;
    var next := if NotReady(s) then s else s.(buffering := false, seeking := true);
    var out := if NotReady(s) then [] else (if s.buffering then [Buffered] else []) + [Seeking];
    Step(m.(state := next), out)
  }

  function OnTimeupdate(m: Machine, element: MediaAttributes): (r: Step)
  {
    var s := m.state;
    var recovers := !NotReady(s) && s.buffering && !element.paused;
    var next := if recovers then s.(buffering := false) else s;
    var out := if NotReady(s) then [] else (if recovers then [Buffered] else []) + [TimeUpdate];
    Step(m.(state := next), out)
  }

  function OnWaiting(m: Machine, element: MediaAttributes): (r: Step)
  {
    var m0 := m.(timerPending := false);
    var s := m.state;
    if NotReady(s) then Step(m0, [])
    else if s.seeking then Step(m0, [])
    else if element.seeking then OnSeeking(m0)
    else if s.buffering then Step(m0, [])
    else Step(m0.(state := s.(buffering := true)), [Buffering])
  }

  /** A deferred handler re-driven by a rate change: it runs only when its defer
      flag is set and the new rate is positive. */
  function RedriveLoad(m: Machine, element: MediaAttributes): Step
  {
    if m.state.deferLoadedEvent && element.playbackRate > 0 then OnCanPlayThrough(m, element) else Step(m, [])
  }

  function RedriveSeeked(m: Machine, element: MediaAttributes): Step
  {
    if m.state.deferSeekedEvent && element.playbackRate > 0 then OnSeeked(m, element) else Step(m, [])
  }

  function RedrivePlaying(m: Machine, element: MediaAttributes): Step
  {
    if m.state.deferPlayingEvent && element.playbackRate > 0 then OnPlaying(m) else Step(m, [])
  }

  /** The three re-drives, in the fixed order load, seeked, playing; each sees the
      record the previous one left. */
  function Redrive(m: Machine, element: MediaAttributes): Step
  {
    var loaded := RedriveLoad(m, element);
    var seeked := AndThen(loaded, RedriveSeeked(loaded.next, element));
    AndThen(seeked, RedrivePlaying(seeked.next, element))
  }

  /** Appending output piece by piece is appending it all at once. */
  lemma AppendPieces(log: seq<NormalizedEvent>, a: seq<NormalizedEvent>, b: seq<NormalizedEvent>, c: seq<NormalizedEvent>)
    ensures log + a + b + c == log + (a + b + c)
  {
  }

  /** Redrive as three separate pieces, each run from where the previous stopped. */
  lemma RedriveSplits(m: Machine, element: MediaAttributes)
    ensures var loaded := RedriveLoad(m, element);
            var seeked := RedriveSeeked(loaded.next, element);
            var playing := RedrivePlaying(seeked.next, element);
            Redrive(m, element) == Step(playing.next, loaded.out + seeked.out + playing.out)
  {
  }

  function OnRatechange(m: Machine, element: MediaAttributes): (r: Step)
  {
    var redriven := Redrive(m.(timerPending := false), element);
    var s := redriven.next.state;
    if NotReady(s) then redriven
    else if ShouldTriggerRatechangeBuffer(s, element) then
      Step(redriven.next.(timerPending := true), redriven.out)
    else if s.buffering && element.playbackRate > 0 then
      Step(redriven.next.(state := s.(buffering := false)), redriven.out + [Buffered])
    else redriven
  }

  /** The 50 ms debounce callback: if still pending when it fires, re-check the
      stall predicate and only then run the `waiting` handler. */
  function FireTimer(m: Machine, element: MediaAttributes): (r: Step)
  {
    if !m.timerPending then Step(m, [])
    else
      var m0 := m.(timerPending := false);
      if ShouldTriggerRatechangeBuffer(m0.state, element) then OnWaiting(m0, element) else Step(m0, [])
  }

  /** The inputs the host delivers: the ten subscribed media-element events and the
      expiry of the debounce timer. */
  datatype RawEvent =
    | RawCanPlayThrough | RawEnded | RawPause | RawPlay | RawPlaying
    | RawRatechange | RawSeeked | RawSeeking | RawTimeupdate | RawWaiting
    | TimerExpired

  datatype Input = Input(event: RawEvent, element: MediaAttributes)

  /** The event-name to handler table. */
  function Deliver(m: Machine, i: Input): Step
  {
    match i.event
    case RawCanPlayThrough => OnCanPlayThrough(m, i.element)
    case RawEnded => OnEnded(m)
    case RawPause => OnPause(m, i.element)
    case RawPlay => OnPlay(m)
    case RawPlaying => OnPlaying(m)
    case RawRatechange => OnRatechange(m, i.element)
    case RawSeeked => OnSeeked(m, i.element)
    case RawSeeking => OnSeeking(m)
    case RawTimeupdate => OnTimeupdate(m, i.element)
    case RawWaiting => OnWaiting(m, i.element)
    case TimerExpired => FireTimer(m, i.element)
  }

  /** Serial delivery of a sequence of inputs through a handler table; the
      emitted events are concatenated in delivery order. */
  function Serial(deliver: (Machine, Input) -> Step, m: Machine, inputs: seq<Input>): Step
    decreases |inputs|
  {
    if inputs == [] then Step(m, [])
    else
      var first := deliver(m, inputs[0]);
      AndThen(first, Serial(deliver, first.next, inputs[1..]))
  }

  /** The normaliser driven by a sequence of host inputs. */
  function Run(m: Machine, inputs: seq<Input>): Step
  {
    Serial(Deliver, m, inputs)
  }

  function InitialMachine(): Machine
  {
    Machine(InitialState(), false)
  }
}
