# AutoClicker core, modelled in Dafny

AutoClicker is a desktop tool for Windows. It records mouse positions, replays them as a click sequence and drives this through hotkeys. Most of its services are unimplemented stubs. This project models the parts that do have behaviour:

- **The `MainWindowViewModel` class** (`MainWindow.MainWindowViewModel`):
  - the recorded positions, numbered densely `1..N` and labelled `"Position n"`;
  - the run state: the running flag, the cancellation token and the status text;
  - the Record, Start, Stop and Clear commands and their enablement guards;
  - the `PropertyChanged` notifications each property write raises.

  The cursor read is an `Option<Point>` argument. `StartSequence` is split at its `await`. `StartSequence` models the code up to the `await`: it returns the snapshot `ClickSequence` handed to the click service. `SequenceFinished(outcome)` models the `try`/`catch`/`finally` continuation. Other commands may run between the two.

  The guards are predicates. No method requires them, because the command class that would enforce them is not part of this model. As a result, a second Start can begin while a run is in flight. The first continuation then clears the running flag and the token, and the model's ghost count `runsInFlight` shows that the second run is still in flight.
- **The timer service** (`Timer.TimerService`). The local clock is a tick count passed in as `now`. The "server" clock is that reading shifted by `ServerTimeOffsetHours` whole hours. The time until a scheduled start is the scheduled time minus the current time. A shift that leaves the `DateTime` range is modelled as the `ArgumentOutOfRangeException` that `AddHours` throws.
- **The default configuration** (`Configuration.GetDefaultConfiguration`):
  - no saved sequences;
  - key bindings `record→[`, `start→]`, `stop→\` and `clear→Delete`;
  - time offset 0;
  - default delay 50 ms.
- **`SetProperty`** (`PropertyChange`): it assigns and notifies only when the new value differs from the stored one.

`Text` renders integers in decimal, as the C# string interpolations in labels and status messages do. It proves the rendering can be parsed back, so different numbers always give different labels.

Notes on the code's behaviour:

- The window binds `MainViewModel` (src/AutoClicker.UI/MainWindow.xaml.cs:32), an unfinished skeleton. `MainWindowViewModel` is only registered with the service container and is built by nothing, so in the application as written none of its commands can be reached.

- `StartSequence` does not reject a start while a run is in progress. Only the Start command's enablement guard does.
- The default key bindings are a dictionary from action name to key name, not a record.
- Nothing enforces a positive delay.

## Model

| member | source | states |
|---|---|---|
| `Text.NatToString` | src/AutoClicker.UI/ViewModels/MainWindowViewModel.cs:141 | a number's text is a non-empty run of decimal digits with no leading zero |
| `Text.ParseNatToString` | src/AutoClicker.UI/ViewModels/MainWindowViewModel.cs:141 | parsing the decimal text of a number gives back the number |
| `Text.NatToStringInjective` | src/AutoClicker.UI/ViewModels/MainWindowViewModel.cs:141 | different numbers have different decimal texts |
| `Text.IntToString` | src/AutoClicker.UI/ViewModels/MainWindowViewModel.cs:145 | an integer's text starts with '-' exactly when it is negative; the rest are digits |
| `Text.ParseIntToString` | src/AutoClicker.UI/ViewModels/MainWindowViewModel.cs:145 | parsing the decimal text of an integer gives back the integer |
| `Text.IntToStringInjective` | src/AutoClicker.UI/ViewModels/MainWindowViewModel.cs:145 | different integers have different decimal texts |
| `Configuration.GetDefaultConfiguration` | src/AutoClicker.Core/Services/ConfigurationService.cs:26-41 | the defaults have no sequences, exactly the keys record/start/stop/clear bound to `[`, `]`, `\`, `Delete`, offset 0 and delay 50 |
| `Configuration.DefaultKeybindingsDistinct` | src/AutoClicker.Core/Services/ConfigurationService.cs:31-37 | the four default key names are pairwise distinct, so no key is bound to two actions |
| `Timer.MaxHoursCheckSubsumed` | src/AutoClicker.Core/Services/TimerService.cs:21 | an hour count beyond `AddHours`' own limit always shifts out of the `DateTime` range, so the range check alone decides failure |
| `Timer.TimerService.constructor` | src/AutoClicker.Core/Services/TimerService.cs:10 | the offset starts at 0 |
| `Timer.TimerService.SetServerTimeOffsetHours` | src/AutoClicker.Core/Services/TimerService.cs:12-16 | reading the offset after setting it gives the value set; nothing else changes |
| `Timer.TimerService.GetCurrentTime` | src/AutoClicker.Core/Services/TimerService.cs:18-22 | local time is the clock reading; server time is the reading plus the offset in hours, failing exactly when that leaves the `DateTime` range |
| `Timer.TimerService.GetTimeUntilStart` | src/AutoClicker.Core/Services/TimerService.cs:24-28 | the wait plus the current time is the scheduled time; it fails exactly when reading the current time fails |
| `Timer.TimerService.TimeUntilStartNonPositive` | src/AutoClicker.Core/Services/TimerService.cs:24-28 | the wait is at most zero exactly when the scheduled time is not after the current time |
| `Timer.TimerService.ServerWaitIsLocalWaitLessOffset` | src/AutoClicker.Core/Services/TimerService.cs:21-27 | for the same clock reading, the server-time wait is the local wait minus the offset in hours |
| `Timer.TimerService.ZeroOffsetClocksAgree` | src/AutoClicker.Core/Services/TimerService.cs:18-22 | with offset 0, server time and local time agree |
| `PropertyChange.Assign` | src/AutoClicker.UI/ViewModels/ViewModelBase.cs:18-26 | afterwards the slot holds the new value; it reports a change, and raises the property name once, exactly when the old value differed |
| `PropertyChange.AssignIdempotent` | src/AutoClicker.UI/ViewModels/ViewModelBase.cs:20-25 | a second identical assignment reports no change, raises nothing and leaves the slot as it was |
| `PropertyChange.ViewModelBase.constructor` | src/AutoClicker.UI/ViewModels/ViewModelBase.cs:11 | no notification has been raised yet |
| `PropertyChange.ViewModelBase.OnPropertyChanged` | src/AutoClicker.UI/ViewModels/ViewModelBase.cs:13-16 | appends one notification with the given name |
| `PropertyChange.ViewModelBase.SetProperty` | src/AutoClicker.UI/ViewModels/ViewModelBase.cs:18-26 | an equal value returns false and changes nothing; a different value is stored, returns true and appends exactly one notification; the slot ends up equal to the value either way |
| `MainWindow.PositionLabel` | src/AutoClicker.UI/ViewModels/MainWindowViewModel.cs:141 | a label is `"Position "` followed by the decimal text of the number, which parses back to the number |
| `MainWindow.RecordKeepsNumbered` | src/AutoClicker.UI/ViewModels/MainWindowViewModel.cs:140-144 | appending the position numbered `Count+1` keeps the list numbered 1..N with matching labels |
| `MainWindow.NumberedOrdersIncrease` | src/AutoClicker.UI/ViewModels/MainWindowViewModel.cs:140 | in a numbered list, orders strictly increase along the list |
| `MainWindow.PositionLabelInjective` | src/AutoClicker.UI/ViewModels/MainWindowViewModel.cs:141 | different numbers give different labels |
| `MainWindow.NumberedLabelsDistinct` | src/AutoClicker.UI/ViewModels/MainWindowViewModel.cs:140-141 | in a numbered list no two positions share a label |
| `MainWindow.MainWindowViewModel.constructor` | src/AutoClicker.UI/ViewModels/MainWindowViewModel.cs:87-106 | starts with no positions, status "Ready", not running, no token, delay 50, not looping, the default configuration |
| `MainWindow.MainWindowViewModel.CanStartSequence` | src/AutoClicker.UI/ViewModels/MainWindowViewModel.cs:98 | Start is enabled exactly when not running and the list is non-empty; under the invariant it is then never enabled while a token exists |
| `MainWindow.MainWindowViewModel.CanStopSequence` | src/AutoClicker.UI/ViewModels/MainWindowViewModel.cs:99 | Stop is enabled exactly when running; under the invariant, exactly when there is a token to cancel |
| `MainWindow.MainWindowViewModel.CanClearPositions` | src/AutoClicker.UI/ViewModels/MainWindowViewModel.cs:100 | Clear is enabled exactly when not running and the list is non-empty; under the invariant it is then never enabled while a token exists |
| `MainWindow.NewPosition` | src/AutoClicker.UI/ViewModels/MainWindowViewModel.cs:136-142 | the new position has the read X/Y, `Order = Count + 1` and the label of that order |
| `MainWindow.RecordedStatus` | src/AutoClicker.UI/ViewModels/MainWindowViewModel.cs:145 | the status is "Recorded position at (", then the X text, ", ", the Y text and ")" |
| `Timer.TimerService.ServerTimeOffsetHours` | src/AutoClicker.Core/Services/TimerService.cs:14 | the getter returns the stored offset |
| `MainWindow.MainWindowViewModel.CommandGuards` | src/AutoClicker.UI/ViewModels/MainWindowViewModel.cs:98-100 | neither Start nor Clear is enabled while Stop is; Stop is enabled exactly when there is a token to cancel; with nothing enabled the list is empty |
| `MainWindow.MainWindowViewModel.SetStatus` | src/AutoClicker.UI/ViewModels/MainWindowViewModel.cs:47-55 | stores the status and always notifies "Status", even when the value is unchanged |
| `MainWindow.MainWindowViewModel.SetIsRunning` | src/AutoClicker.UI/ViewModels/MainWindowViewModel.cs:57-65 | stores the flag and always notifies "IsRunning" |
| `MainWindow.MainWindowViewModel.SetDelayMilliseconds` | src/AutoClicker.UI/ViewModels/MainWindowViewModel.cs:67-75 | stores the delay and always notifies "DelayMilliseconds" |
| `MainWindow.MainWindowViewModel.SetIsLooping` | src/AutoClicker.UI/ViewModels/MainWindowViewModel.cs:77-85 | stores the looping flag and always notifies "IsLooping" |
| `MainWindow.MainWindowViewModel.RecordPosition` | src/AutoClicker.UI/ViewModels/MainWindowViewModel.cs:132-147 | a successful read appends exactly one position at the read point, with `Order = old Count + 1` and its label, keeps the earlier positions and sets the status; a failed read changes nothing; numbering stays dense |
| `MainWindow.MainWindowViewModel.StartSequence` | src/AutoClicker.UI/ViewModels/MainWindowViewModel.cs:149-167 | an empty list only sets "No positions recorded" (no run, no token, running flag unchanged); otherwise a fresh uncancelled token, running, "Running sequence..." and the snapshot sequence "Current Sequence" with the current positions, delay and looping flag |
| `MainWindow.MainWindowViewModel.SequenceFinished` | src/AutoClicker.UI/ViewModels/MainWindowViewModel.cs:169-184 | afterwards not running and no token; status "Sequence completed" or "Sequence stopped" by outcome, unchanged for any other exception, which is rethrown |
| `MainWindow.MainWindowViewModel.StopSequence` | src/AutoClicker.UI/ViewModels/MainWindowViewModel.cs:186-190 | cancels the current token if there is one, sets "Stopping sequence..." and leaves positions and running flag alone |
| `MainWindow.MainWindowViewModel.ClearPositions` | src/AutoClicker.UI/ViewModels/MainWindowViewModel.cs:192-196 | the list is empty and the status is "All positions cleared"; the run state is untouched |

## Left out

- Click playback, clicking, hotkeys, configuration load/save and scheduling are not modelled. The source implements none of them: `ClickService`, `HotkeyService`, `ConfigurationService.LoadConfigurationAsync`/`SaveConfigurationAsync` and `TimerService.ScheduleActionAsync` are all unimplemented stubs.
- `GetCursorPos` is a call into the operating system. It becomes an optional point argument.
- `RegisterHotkeys` and `LoadConfigurationAsync` of the view-model are not modelled. They depend on the stub services and on the UI dispatcher thread. Line 119 of the view-model also reads `Keybindings.Record`, which the dictionary type of `Keybindings` does not provide.
- Asynchrony is reduced to two steps. Playback is an outcome passed to `SequenceFinished`, the cancellation token source is two booleans, and its disposal is not modelled.
- `DateTime.Now` is replaced by a tick count passed in. Only whole-hour offsets are modelled, with no fractional `AddHours` arithmetic. The `DateTime` kind (local or UTC) is not modelled.
- `WindowSettings` and the optional window geometry in `AppConfiguration` are left out, because they hold floating-point fields. The defaults leave them null.
- Positions are values. The source's `ClickPosition` objects are shared by reference between the list and the snapshot. Nothing in the modelled code mutates them after creation.
- Coordinates and counts are unbounded integers. C# `int` overflow cannot arise from a collection count, and cursor coordinates are read as 32-bit values anyway.
- PropertyChange.ViewModelBase.SetProperty: compares with Dafny `==`, which is structural on datatypes. The source's `Equals` is reference equality for classes without an override, such as `ClickPosition`, and a class may override it. The property name is a non-null string; the explicit null ("all properties") that the source's `string?` parameter allows is not modelled.
- The `notifications` log holds only the view-model's own `PropertyChanged` raises. `Positions.Add` and `Positions.Clear` also raise the collection's `CollectionChanged` event and its `PropertyChanged` for "Count" and "Item[]"; those are not logged.
- Decimal text assumes the invariant culture's minus sign.
- `MainViewModel`, the application start-up and the window code are not part of this model.
