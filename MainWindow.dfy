/**
 * The `MainWindowViewModel` class: the list of recorded positions, the run
 * state (running flag, cancellation token, status text) and the commands
 * that change them.
 *
 * The cursor read (`GetCursorPos`) is an `Option<Point>` argument. The
 * playback awaited by `StartSequence` is split at its `await`:
 * `StartSequence` is the part that runs before it and returns the sequence
 * handed to the click service; `SequenceFinished` is the continuation,
 * given how the playback ended. Other commands may run in between.
 */
module MainWindow {
  import opened Wrappers
  import opened Text
  import opened Models
  import Configuration

  /** A point read from the cursor (the Win32 `POINT`). */
  datatype Point = Point(x: int, y: int)

  /**
   * How the awaited playback ended: normally, with `OperationCanceledException`,
   * or with any other exception (which the method does not catch).
   */
  datatype RunOutcome = Completed | Cancelled | Faulted

  const ReadyStatus := "Ready"
  const NoPositionsStatus := "No positions recorded"
  const RunningStatus := "Running sequence..."
  const CompletedStatus := "Sequence completed"
  const StoppedStatus := "Sequence stopped"
  const StoppingStatus := "Stopping sequence..."
  const ClearedStatus := "All positions cleared"
  const CurrentSequenceName := "Current Sequence"

  /** Display name of the position numbered `order`. */
  function PositionLabel(order: int): (s: string)
    ensures |s| > 9 && s[..9] == "Position "
    ensures s[9..] == IntToString(order) && ParseInt(s[9..]) == order
  {
    ParseIntToString(order);
    "Position " + IntToString(order)
  }

  /** The position recorded at point `p` when `count` positions already exist. */
  function NewPosition(count: nat, p: Point): (c: ClickPosition)
    ensures c.x == p.x && c.y == p.y
    ensures c.order == count + 1 && c.labelText == PositionLabel(count + 1)
  {
    ClickPosition(p.x, p.y, count + 1, PositionLabel(count + 1))
  }

  /** Status shown after recording at `p`. */
  function RecordedStatus(p: Point): (s: string)
    ensures |s| > 22 + |IntToString(p.x)| + 2
    ensures s[..22] == "Recorded position at (" && s[|s| - 1] == ')'
    ensures s[22..22 + |IntToString(p.x)|] == IntToString(p.x)
    ensures s[22 + |IntToString(p.x)|..22 + |IntToString(p.x)| + 2] == ", "
    ensures s[22 + |IntToString(p.x)| + 2..|s| - 1] == IntToString(p.y)
  {
    "Recorded position at (" + IntToString(p.x) + ", " + IntToString(p.y) + ")"
  }

  /** Positions are numbered 1..N in list order and labelled after their number. */
  ghost predicate Numbered(ps: seq<ClickPosition>) {
    forall i :: 0 <= i < |ps| ==> ps[i].order == i + 1 && ps[i].labelText == PositionLabel(i + 1)
  }

  /** Recording appends the next number, so the numbering stays dense. */
  lemma RecordKeepsNumbered(ps: seq<ClickPosition>, p: Point)
    requires Numbered(ps)
    ensures Numbered(ps + [NewPosition(|ps|, p)])
  {
  }

  /** In a numbered list the orders strictly increase along the list. */
  lemma NumberedOrdersIncrease(ps: seq<ClickPosition>, i: int, j: int)
    requires Numbered(ps) && 0 <= i < j < |ps|
    ensures ps[i].order < ps[j].order
  {
  }

  /** Different numbers give different labels (each label parses back to its number). */
  lemma PositionLabelInjective(a: int, b: int)
    ensures PositionLabel(a) == PositionLabel(b) ==> a == b
  {
  }

  /** In a numbered list no two positions share a label. */
  lemma NumberedLabelsDistinct(ps: seq<ClickPosition>, i: int, j: int)
    requires Numbered(ps) && 0 <= i < |ps| && 0 <= j < |ps| && i != j
    ensures ps[i].labelText != ps[j].labelText
  {
  }

  class MainWindowViewModel {
    var positions: seq<ClickPosition>
    var status: string
    var isRunning: bool
    var delayMilliseconds: int
    var isLooping: bool
    /** The cancellation token source is set (not null). */
    var hasToken: bool
    /** `Cancel` has been called on the current token source. */
    var cancelRequested: bool
    var configuration: AppConfiguration
    /** Property names `PropertyChanged` has been raised with, oldest first. */
    var notifications: seq<string>
    /** Playbacks started whose continuation has not run yet. */
    ghost var runsInFlight: nat

    ghost predicate Valid()
      reads this
    {
      && Numbered(positions)
      && isRunning == hasToken
      && (cancelRequested ==> hasToken)
      && (hasToken ==> runsInFlight > 0)
    }

    constructor ()
      ensures Valid()
      ensures positions == [] && status == ReadyStatus && !isRunning && !hasToken
      ensures delayMilliseconds == 50 && !isLooping
      ensures configuration == Configuration.GetDefaultConfiguration()
      ensures notifications == [] && runsInFlight == 0
    {
      positions := [];
      status := ReadyStatus;
      isRunning := false;
      delayMilliseconds := 50;
      isLooping := false;
      hasToken := false;
      cancelRequested := false;
      configuration := Configuration.GetDefaultConfiguration();
      notifications := [];
      runsInFlight := 0;
    }

    /** Whether the Start command is enabled. */
    predicate CanStartSequence()
      reads this
      ensures CanStartSequence() <==> !isRunning && positions != []
      ensures Valid() && CanStartSequence() ==> !hasToken
    {
      !isRunning && |positions| > 0
    }

    /** Whether the Stop command is enabled. */
    predicate CanStopSequence()
      reads this
      ensures CanStopSequence() <==> isRunning
      ensures Valid() ==> (CanStopSequence() <==> hasToken)
    {
      isRunning
    }

    /** Whether the Clear command is enabled. */
    predicate CanClearPositions()
      reads this
      ensures CanClearPositions() <==> !isRunning && positions != []
      ensures Valid() && CanClearPositions() ==> !hasToken
    {
      !isRunning && |positions| > 0
    }

    /** Start and Clear are never enabled together with Stop; Stop is enabled exactly when there is a token to cancel. */
    lemma CommandGuards()
      requires Valid()
      ensures CanStartSequence() ==> !CanStopSequence()
      ensures CanClearPositions() ==> !CanStopSequence()
      ensures CanStopSequence() <==> hasToken
      ensures !CanStartSequence() && !CanStopSequence() ==> positions == []
    {
    }

    /** The `Status` setter: always assigns and notifies. */
    method SetStatus(value: string)
      modifies this`status, this`notifications
      ensures status == value && notifications == old(notifications) + ["Status"]
    {
      status := value;
      notifications := notifications + ["Status"];
    }

    /**
     * The `IsRunning` setter: always assigns and notifies. Like the C# setter
     * it is public; `Valid()` holds across the four commands only, and a
     * direct call can break its `isRunning == hasToken`.
     */
    method SetIsRunning(value: bool)
      modifies this`isRunning, this`notifications
      ensures isRunning == value && notifications == old(notifications) + ["IsRunning"]
    {
      isRunning := value;
      notifications := notifications + ["IsRunning"];
    }

    /** The `DelayMilliseconds` setter: always assigns and notifies. */
    method SetDelayMilliseconds(value: int)
      modifies this`delayMilliseconds, this`notifications
      ensures delayMilliseconds == value && notifications == old(notifications) + ["DelayMilliseconds"]
    {
      delayMilliseconds := value;
      notifications := notifications + ["DelayMilliseconds"];
    }

    /** The `IsLooping` setter: always assigns and notifies. */
    method SetIsLooping(value: bool)
      modifies this`isLooping, this`notifications
      ensures isLooping == value && notifications == old(notifications) + ["IsLooping"]
    {
      isLooping := value;
      notifications := notifications + ["IsLooping"];
    }

    /**
     * Appends the cursor position, numbered after the existing ones. A failed
     * cursor read does nothing.
     */
    method RecordPosition(cursor: Option<Point>)
      requires Valid()
      modifies this`positions, this`status, this`notifications
      ensures Valid()
      ensures cursor.None? ==> positions == old(positions) && status == old(status) && notifications == old(notifications)
      ensures cursor.Some? ==>
        && |positions| == |old(positions)| + 1
        && positions[..|old(positions)|] == old(positions)
        && positions[|old(positions)|] == NewPosition(|old(positions)|, cursor.value)
        && status == RecordedStatus(cursor.value)
        && notifications == old(notifications) + ["Status"]
    {
      if cursor.Some? {
        var point := cursor.value;
        RecordKeepsNumbered(positions, point);
        positions := positions + [NewPosition(|positions|, point)];
        SetStatus(RecordedStatus(point));
      }
    }

    /**
     * The part of starting playback that runs before the `await`. With no
     * positions it only reports so. Otherwise it creates a fresh token, sets
     * the running flag and returns the snapshot of the list handed to the
     * click service. It does not check that no playback is running.
     */
    method StartSequence() returns (run: Option<ClickSequence>)
      requires Valid()
      modifies this`status, this`isRunning, this`hasToken, this`cancelRequested, this`notifications, this`runsInFlight
      ensures Valid()
      ensures old(positions) == [] ==>
        && run == None
        && status == NoPositionsStatus
        && isRunning == old(isRunning) && hasToken == old(hasToken)
        && cancelRequested == old(cancelRequested) && runsInFlight == old(runsInFlight)
        && notifications == old(notifications) + ["Status"]
      ensures old(positions) != [] ==>
        && run == Some(ClickSequence(positions, delayMilliseconds, isLooping, None, CurrentSequenceName))
        && isRunning && hasToken && !cancelRequested
        && status == RunningStatus
        && runsInFlight == old(runsInFlight) + 1
        && notifications == old(notifications) + ["IsRunning", "Status"]
      // Restates the empty-list case for a view-model that was idle: it stays idle.
      ensures !old(isRunning) && old(positions) == [] ==> !isRunning && !hasToken
    {
      if |positions| == 0 {
        SetStatus(NoPositionsStatus);
        return None;
      }
      hasToken, cancelRequested := true, false;
      runsInFlight := runsInFlight + 1;
      SetIsRunning(true);
      SetStatus(RunningStatus);
      run := Some(ClickSequence(positions, delayMilliseconds, isLooping, None, CurrentSequenceName));
    }

    /**
     * The continuation of `StartSequence` once the playback ends: the status
     * reports the outcome (left alone for an uncaught exception), then the
     * running flag and the token are cleared in every case. `rethrown` tells
     * whether the exception leaves the method.
     */
    method SequenceFinished(outcome: RunOutcome) returns (rethrown: bool)
      requires Valid() && runsInFlight > 0
      modifies this`status, this`isRunning, this`hasToken, this`cancelRequested, this`notifications, this`runsInFlight
      ensures Valid()
      ensures !isRunning && !hasToken && !cancelRequested
      ensures runsInFlight == old(runsInFlight) - 1
      ensures outcome == Completed ==> status == CompletedStatus
      ensures outcome == Cancelled ==> status == StoppedStatus
      ensures outcome == Faulted ==> status == old(status)
      ensures notifications == old(notifications) + (if outcome == Faulted then [] else ["Status"]) + ["IsRunning"]
      ensures rethrown <==> outcome == Faulted
    {
      match outcome {
        case Completed => SetStatus(CompletedStatus);
        case Cancelled => SetStatus(StoppedStatus);
        case Faulted =>
      }
      SetIsRunning(false);
      hasToken, cancelRequested := false, false;
      runsInFlight := runsInFlight - 1;
      rethrown := outcome == Faulted;
    }

    /** Requests cancellation of the current token, if any, and reports it. */
    method StopSequence()
      requires Valid()
      modifies this`cancelRequested, this`status, this`notifications
      ensures Valid()
      ensures cancelRequested == (old(cancelRequested) || hasToken)
      ensures status == StoppingStatus
      ensures notifications == old(notifications) + ["Status"]
    {
      if hasToken {
        cancelRequested := true;
      }
      SetStatus(StoppingStatus);
    }

    /** Empties the list of positions. */
    method ClearPositions()
      requires Valid()
      modifies this`positions, this`status, this`notifications
      ensures Valid()
      ensures positions == [] && status == ClearedStatus
      ensures notifications == old(notifications) + ["Status"]
    {
      positions := [];
      SetStatus(ClearedStatus);
    }
  }
}
