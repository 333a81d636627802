/** The normalised vocabulary the normaliser emits to its consumer. */
module Events {

  datatype NormalizedEvent =
    | Buffered    // buffering has ended
    | Buffering   // buffering has started
    | Ended       // the end of the stream was reached
    | Loaded      // loading is complete and playback is ready to start
    | Pause       // the stream was paused
    | Play        // a request to play was made
    | Playing     // playback started after loading, or a paused stream resumed
    | Seeked      // a seek has ended
    | Seeking     // a seek has started
    | TimeUpdate  // the playback position advanced
}
