/**
 * The records of the core (ClickPosition, ClickSequence, AppConfiguration)
 * as values, and `DateTime` as its tick count.
 */
module Models {
  import opened Wrappers

  /** 100-nanosecond ticks in one hour. */
  const TicksPerHour: int := 36_000_000_000

  /** Ticks of `DateTime.MaxValue` (the last tick of 31 December 9999). */
  const MaxTicks: int := 3_155_378_975_999_999_999

  /** A `DateTime`, represented by its `Ticks`; the kind (local/UTC) is not modelled. */
  type DateTime = t: int | 0 <= t <= MaxTicks

  /** A recorded screen point; `order` is its 1-based place and `labelText` its display name (the `Label` property). */
  datatype ClickPosition = ClickPosition(x: int, y: int, order: int, labelText: string)

  /** A sequence handed to the click service for playback. */
  datatype ClickSequence = ClickSequence(
    positions: seq<ClickPosition>,
    delayMilliseconds: int,
    isLooping: bool,
    scheduledStartTime: Option<DateTime>,
    name: string)

  /**
   * Application settings. `Keybindings` is a dictionary from action name to
   * key name. The optional window geometry is not part of this model.
   */
  datatype AppConfiguration = AppConfiguration(
    sequences: seq<ClickSequence>,
    keybindings: map<string, string>,
    timeOffset: int,
    defaultDelayMs: int)
}
