# Playback event normaliser, modelled in Dafny

This project models the event normaliser of `video-playback-events`. The normaliser
listens to the raw events of an HTML video element: `canplaythrough`, `ended`, `pause`,
`play`, `playing`, `ratechange`, `seeked`, `seeking`, `timeupdate` and `waiting`. From
them it reports a cleaner stream of ten normalised events to a consumer callback.

The normaliser keeps a record of ten booleans, the `PlaybackState`, and at most one
pending 50 ms debounce timer. Each handler does three things:
- reads the element's playback rate and its `paused` and `seeking` attributes;
- updates the record;
- calls the callback zero, one or two times, in a fixed order.

Some handlers call other handlers in place. `ratechange` re-drives `canplaythrough`,
`seeked` and `playing`, and `waiting` may act as `seeking`.

The model has three layers. The pure transitions are the reference definition. The
imperative class is proved against them. The lemmas state what the handlers and whole
delivery sequences guarantee.

- `events.dfy`, module `Events`: the normalised event vocabulary.
- `state.dfy`, module `State`: the record, `InitialState`, and three predicates:
  - `Consistent`: never buffering and seeking at once, and a pending resume implies an
    earlier first start and a paused record. The request is set only while paused
    (src/normalized-playback.ts:56-58), and `paused` is cleared only together with it
    (:69-70, :83-84).
  - `Progressed`: the one-way latches. `ended`, `initialPlayTriggered` and
    `deferPlayingEvent` are never reset, and `loading` is never set again.
  - `UnchangedExcept`: the frame condition, saying which fields a handler may change.
- `transitions.dfy`, module `Transitions`: one pure function per handler.
  - Each maps a `Machine` (the record plus the timer flag) to a `Step`: the next
    machine and the events emitted, in order.
  - `Deliver` is the event-name-to-handler table, and `Run` delivers a sequence of
    host inputs one after another.
  - `FireTimer` is the debounce callback. `TimerExpired` is the host input that
    delivers it.
- `handlers.dfy`, module `Handlers`: per-handler lemmas covering:
  - every case of the handler and the events each case emits, in order;
  - which fields the handler may change;
  - that the machine invariant `Coherent` and the latches are preserved.
- `properties.dfy`, module `Properties`: properties of every delivery sequence.
  - Every reachable machine is coherent.
  - The latches hold between any two points of a run.
  - A first-start `playing` in a reachable state emits exactly one `Playing`.
- `normalizer.dfy`, module `Normalization`: the class `Normalizer`.
  - Its fields are `state`, `timerPending` and `emitted`. `emitted` is the log of
    callback calls.
  - It has one imperative method per handler, plus `FireTimer` and `Dispatch`. The
    bodies follow the handlers' branches, field updates and callback order. Nested
    handler calls are method calls. The one structural difference is that the three
    re-drives of `onRatechange` sit in a helper method, `RedriveDeferred`, which
    `OnRatechange` calls first.
  - Each method ensures that the new record, timer flag and log are exactly those
    given by the pure transition, and that `Valid` (coherence) is preserved.
- `scenarios.dfy`, module `Scenarios`: concrete delivery sequences from a fresh or
  started normaliser. These include the behaviours described under "Where the code
  decides".

The element is abstracted as follows.
- Its attributes are a snapshot, `MediaAttributes(playbackRate, paused, seeking)`, taken
  when the raw event is handled. Every read of the element within one handler call,
  nested handler calls included, is assumed to see that snapshot. This is an assumption:
  the consumer callback runs synchronously in the middle of a handler, before later reads
  of the element, and a callback that changes the element would be seen by those reads.
- The debounce callback receives its own snapshot, taken when it fires.
- The playback rate is an `int`. The code only compares it with 0, using `=== 0` and
  `> 0`, and a negative rate fails both tests, as it does in the model.

## Where the code decides

Some behaviours differ from what a reader of the handler names might expect. The model
follows the code.

- **Readiness guards.** `onPlay` has the readiness guard: it returns early when
  `loading || ended` (src/normalized-playback.ts:55). `onPlaying` has no such guard
  (src/normalized-playback.ts:62-90), and neither has `onPause`.
- **The first `playing` while loading.** It is not suppressed. It reports `Playing`
  and leaves the record loading (`Scenarios.PlayingWhileLoading`).
- **Events after `ended`.** `ended` does not silence the normaliser.
  - A raw `playing` after `ended` still reports the first start
    (`Scenarios.PlayingAfterEnded`).
  - `onEnded` always re-emits `Ended`.
  - `onRatechange` is guarded (src/normalized-playback.ts:131), but only after its
    re-drives (src/normalized-playback.ts:119-129), which run unguarded. A re-driven
    `onPlaying` after `ended` reports `Playing` when a resume was pending
    (`Scenarios.ResumeRedrivenAfterEnded`).
- **A deferred load after `ended`.** `onEnded` does not clear `deferLoadedEvent`. A load
  deferred at rate zero can therefore be reported as `Loaded` after `Ended`
  (`Scenarios.LoadedAfterEnded`).
- **A pause while loading.** A raw `pause` before any load reports `Pause`
  (`Scenarios.PauseWhileLoading`).

## Model

| member | source | states |
|---|---|---|
| State.InitialState | src/state.ts:14-25 | exactly `loading` is set; hence the initial record is not ready, has no defer flag set, and satisfies both machine invariants |
| Transitions.ShouldTriggerRatechangeBuffer | src/normalized-playback.ts:18-20 | defined by its body: the stall predicate; characterised through Handlers.RatechangeCases and Handlers.FireTimerCases |
| Transitions.NotReady | src/normalized-playback.ts:22-24 | defined by its body: loading or ended; characterised by Handlers.NotReadyHandlersAreInert |
| Transitions.OnCanPlayThrough | src/normalized-playback.ts:26-37 | defined by its body; characterised by Handlers.CanPlayThroughCases and Handlers.CanPlayThroughFrame |
| Transitions.OnEnded | src/normalized-playback.ts:39-51 | defined by its body; characterised by Handlers.EndedForcesTerminalState |
| Transitions.OnPlay | src/normalized-playback.ts:54-60 | defined by its body; characterised by Handlers.PlayCases |
| Transitions.OnPlaying | src/normalized-playback.ts:62-90 | defined by its body; characterised by Handlers.PlayingEmissions, Handlers.PlayingUpdates and Handlers.PlayingBranches |
| Transitions.OnPause | src/normalized-playback.ts:92-113 | defined by its body; characterised by Handlers.PauseCases and Handlers.PauseFrame |
| Transitions.RedriveLoad | src/normalized-playback.ts:119-121 | defined by its body; characterised by Handlers.RedriveLoadCases |
| Transitions.RedriveSeeked | src/normalized-playback.ts:123-125 | defined by its body; characterised by Handlers.RedriveSeekedCases |
| Transitions.RedrivePlaying | src/normalized-playback.ts:127-129 | defined by its body; characterised by Handlers.RedrivePlayingCases |
| Transitions.Redrive | src/normalized-playback.ts:118-129 | defined by its body; characterised by Handlers.RedriveCases and Handlers.RedriveEmits |
| Transitions.OnRatechange | src/normalized-playback.ts:115-143 | defined by its body; characterised by Handlers.RatechangeCases and Handlers.RatechangeEmits |
| Transitions.FireTimer | src/normalized-playback.ts:134-138 | defined by its body; characterised by Handlers.FireTimerCases |
| Transitions.OnSeeked | src/normalized-playback.ts:145-161 | defined by its body; characterised by Handlers.SeekedCases |
| Transitions.OnSeeking | src/normalized-playback.ts:163-174 | defined by its body; characterised by Handlers.SeekingCases |
| Transitions.OnTimeupdate | src/normalized-playback.ts:176-184 | defined by its body; characterised by Handlers.TimeupdateCases |
| Transitions.OnWaiting | src/normalized-playback.ts:186-203 | defined by its body; characterised by Handlers.WaitingCases |
| Transitions.Deliver | src/normalized-playback.ts:205-216 | defined by its body: the listener table; characterised by Properties.DeliverKeepsInvariants |
| Transitions.RecoveryEvent | src/normalized-playback.ts:67-80 | the priority branch of `onPlaying` emits at most one event: `Playing` exactly on the first start, else `Buffered` exactly when buffering, else `Seeked` exactly when seeking, and nothing exactly when none of these applies |
| Handlers.NotReadyHandlersAreInert | src/normalized-playback.ts:22-24 | while loading or ended, `play`, `seeked`, `seeking` and `timeupdate` change nothing and emit nothing; `waiting` only cancels the timer |
| Handlers.CanPlayThroughCases | src/normalized-playback.ts:26-37 | not loading: no-op; loading at rate 0: only `deferLoadedEvent` is set, nothing emitted; loading at another rate: `loading` and `deferLoadedEvent` cleared and exactly `[Loaded]`; `Loaded` is emitted iff loading at a nonzero rate |
| Handlers.CanPlayThroughFrame | src/normalized-playback.ts:26-37 | only `deferLoadedEvent` and `loading` may change, the timer is untouched, latches and coherence preserved |
| Handlers.EndedForcesTerminalState | src/normalized-playback.ts:39-51 | from any state: `ended` and `paused` set; `buffering`, `loading`, `seeking` cleared; timer cancelled; exactly `[Ended]`; no other field changes |
| Handlers.PlayCases | src/normalized-playback.ts:54-60 | `[Play]` is emitted iff ready, paused and started, and then only `playRequested` is set; otherwise nothing changes |
| Handlers.PlayingEmissions | src/normalized-playback.ts:62-90 | output is the priority-branch event followed by `Playing` iff the pre-call record had `paused && playRequested`; on a first start in a consistent record it is exactly `[Playing]` |
| Handlers.PlayingUpdates | src/normalized-playback.ts:62-90 | timer cancelled, `deferPlayingEvent` set, no resume left pending, `loading` and `ended` unchanged, the branch's field updates, and at most seven fields change |
| Handlers.PlayingBranches | src/normalized-playback.ts:65-89 | `initialPlayTriggered` ends set; a resume clears both `paused` and `playRequested`; without a resume they keep their values after a started record; each priority branch leaves the fields of the other branches unchanged |
| Handlers.PlayingKeepsInvariants | src/normalized-playback.ts:62-90 | latches and coherence preserved by `onPlaying` |
| Handlers.PauseCases | src/normalized-playback.ts:92-113 | no-op when not requested and paused; with a deferred load: `[Loaded]` then `[Pause]` only if the element is paused, and the new record is the old one with `loading`, `deferLoadedEvent`, `playRequested` cleared and `paused` set iff it was or the element is paused; otherwise exactly `[Pause]` and the new record is the old one with `paused` set and `playRequested` cleared |
| Handlers.PauseFrame | src/normalized-playback.ts:92-113 | only `playRequested`, `loading`, `deferLoadedEvent` and `paused` may change; the timer is untouched |
| Handlers.PauseKeepsInvariants | src/normalized-playback.ts:92-113 | latches and coherence preserved by `onPause` |
| Handlers.SeekedCases | src/normalized-playback.ts:145-161 | no-op unless ready and seeking; at rate 0 only `deferSeekedEvent` is set; otherwise `seeking` and `deferSeekedEvent` cleared and exactly `[Seeked]` |
| Handlers.SeekingCases | src/normalized-playback.ts:163-174 | when ready: `Buffered` precedes `Seeking` iff it was buffering, and the record ends with `buffering` false and `seeking` true |
| Handlers.TimeupdateCases | src/normalized-playback.ts:176-184 | when ready: `Buffered` precedes `TimeUpdate` iff buffering and the element is playing, and buffering is cleared exactly then |
| Handlers.WaitingCases | src/normalized-playback.ts:186-203 | timer cancelled; ignored while seeking, or while already buffering and the element is not seeking; an element already seeking makes it act exactly as `onSeeking`; `Buffering` is emitted iff ready, not seeking on either side and not buffering, and then alone |
| Handlers.RedriveLoadCases | src/normalized-playback.ts:119-121 | a positive rate releases a deferred load as `[Loaded]` exactly when still loading; nothing else is emitted |
| Handlers.RedriveSeekedCases | src/normalized-playback.ts:123-125 | the seeked re-drive emits `[]` or `[Seeked]`, and `[Seeked]` iff the rate is positive, a seek was deferred, the record is ready and seeking, which it then clears; it keeps readiness, and at a positive rate no seek is left deferred after it while ready and seeking |
| Handlers.RedrivePlayingCases | src/normalized-playback.ts:127-129 | at a positive rate with `deferPlayingEvent` set the re-drive is exactly `onPlaying`, otherwise nothing; it never emits `Loaded`, keeps readiness, and when it runs (positive rate, `deferPlayingEvent` set) it leaves no resume pending |
| Handlers.RedriveCases | src/normalized-playback.ts:115-129 | at a non-positive rate nothing happens; `Loaded` is emitted iff a load was deferred and still pending, and then it is the first event and occurs once |
| Handlers.RedriveEmits | src/normalized-playback.ts:118-129 | the re-drive output is, in this order, `[Loaded]` iff a load is deferred and still pending, `[Seeked]` iff a seek is deferred, the record is seeking and ready once the load is handled, then the events of `onPlaying` on the resulting record iff `deferPlayingEvent` is set (all at a positive rate) |
| Handlers.RatechangeEmits | src/normalized-playback.ts:115-143 | at a positive rate the output is the re-drives in order followed by `[Buffered]` exactly when the record is ready and still buffering after them, which also clears `buffering`; the timer ends cleared |
| Handlers.RatechangeCases | src/normalized-playback.ts:115-143 | a non-positive rate emits nothing and keeps the record; the timer is left pending iff ready and the stall predicate holds; a deferred load is reported first; a positive rate while ready leaves no stall open; latches and coherence preserved |
| Handlers.FireTimerCases | src/normalized-playback.ts:134-138 | the debounce callback emits `[Buffering]` iff it was pending, the record is ready and the stall predicate still holds; otherwise it changes nothing |
| Properties.DeliverKeepsInvariants | src/normalized-playback.ts:205-216 | every raw event, through the handler table, keeps the latches and coherence |
| Properties.RunKeepsInvariants | src/normalized-playback.ts:39-203 | a whole delivery sequence keeps the latches and coherence |
| Properties.SerialAppend | src/normalized-playback.ts:205-216 | serial delivery of `xs + ys` ends where delivering `ys` after `xs` ends, and its log is the two logs in order |
| Properties.RunAppend | src/normalized-playback.ts:205-216 | the same for the normaliser's handler table |
| Properties.LatchesAcrossRuns | src/normalized-playback.ts:43 | between any two points of one run, `ended`, `initialPlayTriggered`, `deferPlayingEvent` stay set and `loading` stays cleared |
| Properties.ReachableIsCoherent | src/normalized-playback.ts:172 | every reachable record is never buffering and seeking at once, and has `playRequested` only after a first start and while paused |
| Properties.ReachablePlayingClosesRequest | src/normalized-playback.ts:54-90 | in every reachable state a raw `playing` leaves `playRequested` clear: a resume request lasts only until the `playing` that completes it |
| Properties.ReachableFirstStartPlaysOnce | src/normalized-playback.ts:67-72 | in a reachable record, a first-start `playing` emits exactly one `Playing` |
| Properties.ReachableStartIsPermanent | src/normalized-playback.ts:67-87 | once started, the record stays started, no later `playing` emits two `Playing` events, and any `Playing` it emits completes a pending resume (`paused && playRequested` before the call) |
| Normalization.Normalizer.constructor | src/normalized-playback.ts:15-16 | a fresh normaliser holds the initial record, no pending timer, an empty log, and is valid |
| Normalization.Normalizer.OnCanPlayThrough | src/normalized-playback.ts:26-37 | new record and log are those of the pure transition; validity preserved |
| Normalization.Normalizer.OnEnded | src/normalized-playback.ts:39-51 | as above, for `onEnded` |
| Normalization.Normalizer.OnPlay | src/normalized-playback.ts:54-60 | as above, for `onPlay` |
| Normalization.Normalizer.OnPlaying | src/normalized-playback.ts:62-90 | as above, for `onPlaying`, building the update record while reading the pre-call record |
| Normalization.Normalizer.OnPause | src/normalized-playback.ts:92-113 | as above, for `onPause` |
| Normalization.Normalizer.RedriveDeferred | src/normalized-playback.ts:118-129 | the three in-place handler calls of `onRatechange` leave the record and log the pure re-drive gives |
| Normalization.Normalizer.OnRatechange | src/normalized-playback.ts:115-143 | as above, for `onRatechange`, with the timer flag set where the callback is scheduled |
| Normalization.Normalizer.OnSeeked | src/normalized-playback.ts:145-161 | as above, for `onSeeked` |
| Normalization.Normalizer.OnSeeking | src/normalized-playback.ts:163-174 | as above, for `onSeeking` |
| Normalization.Normalizer.OnTimeupdate | src/normalized-playback.ts:176-184 | as above, for `onTimeupdate` |
| Normalization.Normalizer.OnWaiting | src/normalized-playback.ts:186-203 | as above, for `onWaiting`, which calls `OnSeeking` in place |
| Normalization.Normalizer.FireTimer | src/normalized-playback.ts:134-138 | as above, for the debounce callback |
| Normalization.Normalizer.Dispatch | src/normalized-playback.ts:205-216 | each raw event reaches its handler: the new state and log are those of `Deliver` |
| Scenarios.DeferredLoadReleasedByRatechange | src/normalized-playback.ts:115-121 | a zero-rate `canplaythrough` then a positive-rate `ratechange` emit exactly `[Loaded]` |
| Scenarios.PauseWhileLoading | src/normalized-playback.ts:92-93 | a `pause` before loading emits `[Pause]`; a second one emits nothing |
| Scenarios.PlayingWhileLoading | src/normalized-playback.ts:62-72 | the first `playing` while loading emits `[Playing]` and the record stays loading |
| Scenarios.PlayingAfterEnded | src/normalized-playback.ts:62-72 | load, `ended`, `playing` emit `[Loaded, Ended, Playing]` |
| Scenarios.LoadedAfterEnded | src/normalized-playback.ts:97-106 | a load deferred at rate 0, then `ended`, `playing`, `pause` emit `[Ended, Playing, Loaded, Pause]` |
| Scenarios.StartsPlaying | src/normalized-playback.ts:26-72 | load at rate 1 then `playing` emit `[Loaded, Playing]` |
| Scenarios.PauseAndResume | src/normalized-playback.ts:54-113 | after starting, `pause`, `play`, `playing` emit `[Pause, Play, Playing]` and restore the started record |
| Scenarios.SeekWhileBuffering | src/normalized-playback.ts:163-203 | after starting, `waiting`, `seeking`, `seeked` emit `[Buffering, Buffered, Seeking, Seeked]` |
| Scenarios.WaitingWhileElementSeeks | src/normalized-playback.ts:193-197 | a `waiting` while the element seeks emits `[Seeking]` and opens the seek |
| Scenarios.RateDropReportsStall | src/normalized-playback.ts:115-143 | after starting, a zero rate, the debounce firing at zero rate, and a positive rate emit `[Buffering, Buffered]` |
| Scenarios.ResumeRedrivenAfterEnded | src/normalized-playback.ts:127-131 | after starting, `pause`, `play`, `ended` and a positive-rate `ratechange` emit `[Pause, Play, Ended, Playing]`: the re-drive runs before the readiness guard |
| Scenarios.RateRecoveryCancelsStall | src/normalized-playback.ts:115-143 | a zero rate followed by a positive rate before the debounce fires emits nothing, and the late timer does nothing |

## Left out

- `subscribe` and `unsubscribe` (src/normalized-playback.ts:218-231) add and remove DOM
  listeners. That is host wiring. `Dispatch` and `Deliver` model only the table they
  register.
- `clearTimeout` in `unsubscribe` is not modelled, because `unsubscribe` itself is not.
- Wall-clock time and asynchrony of `setTimeout(..., 50)` and `clearTimeout`: the timer
  is a `timerPending` flag. The host fires it by calling `FireTimer` or delivering
  `TimerExpired`. A fire with nothing pending is a no-op, as a cleared timer never runs.
- `HTMLVideoElement` itself:
  - Its attributes are parameters of each handler.
  - The floating-point rate is an integer.
  - A NaN rate is not modelled.
- The string values of the raw and normalised event names (src/events.ts), and the raw
  events the normaliser never registers.
- The consumer callback is an append to `emitted`. A callback that re-enters the
  normaliser synchronously is not modelled.
- A consumer callback that changes the element's attributes during a handler is not
  modelled: every read within one handler call sees the snapshot. For example, at
  src/normalized-playback.ts:101-103, a consumer that resumes the element on `loaded`
  would make the source emit only `[Loaded]`, where the model gives `[Loaded, Pause]`.
