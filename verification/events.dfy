/** The normalized event vocabulary the player emits on its container, whatever
    the backend. An emitted event is appended to an event log; the log is never
    shortened, so "emitted exactly when X changed" is a statement about it. */
module Events {

  datatype Event =
    | Play
    | Pause
    | Playing
    | Ended
    | TimeUpdate
    | Seeking
    | Seeked
    | VolumeChange
    | RateChange
    | DurationChange
    | Progress
    | Waiting
    | CanPlayThrough
    | QualityRequested(quality: real)
    | MediaError
    | Destroyed
    | ControlsShown
    | ControlsHidden
}
