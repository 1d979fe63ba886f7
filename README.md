# Spotlight game-show core in Dafny

This project models the rules of the Spotlight quiz game show and proves properties of
them. Spotlight presents tasks (quiz, tabu, discussion, code, explain-to) to competing
teams. The model covers these pieces:

- **Score ledger.** Points go only to valid, unblocked teams.
- **Buzz arbiter.** Three states (closed, open, locked), a locked team, and a set of
  teams blocked for the current task.
- **Timer.** A stopwatch or countdown with an elapsed-time accumulator.
- **Status line.** A transient message with an expiry time.
- **Persistence codec.** `to_dict`/`from_dict`, which validates teams and sanitises a
  locked team that is out of range.
- **Award latch.** Each task id can be awarded at most once.
- **Reveal toggle.** Per-task reveal flags.
- **Session cursor.** A current index over the tasks that wraps around at both ends.
- **Key controller.** Turns key presses into commands, with a "buzz open" mode.
- **Task validation and loading.** Checks each task record and loads a task file.
- **Timer readout.** The `mm:ss` text the timer display shows.
- **Application rules.** How each command updates the whole application, and what
  happens when the task on screen changes.

Objects that the program updates in place are Dafny classes with `modifies` frames:
`Timer`, `GameState`, `ScoringState`, `RevealState`, `Session`, `InputController` and
`Application`. The loops of the program (`reset_scores`, the team loop of `from_dict`,
`poll_commands`, the record loop of `load_tasks`) are `while` loops with invariants.
Three of them are proved against a function that specifies them: `DecodeTeams`, `Poll`,
and `Outcomes` with `FirstInvalid`. The loop of `reset_scores` is proved against a
quantified postcondition over every team. Validation, encoding and formatting are pure
functions.

Every operation takes the current time `nowMs` as a parameter. A raised exception becomes
the `Err`/`Fail`/`Invalid`/`LoadFailed` alternative of a result type, carrying the same
message text.

Modules, one per file:

| file | module | models |
|---|---|---|
| wrappers.dfy | `Wrappers` | `Option`, `Result`, `Outcome` |
| json.dfy | `Json` | parsed JSON values, `dict.get`, `type(x).__name__` |
| text.dfy | `Text` | `str.strip()`, `str(int)` and its inverse |
| timers.dfy | `Timers` | `Timer` |
| game_state.dfy | `GameStates` | `Team`, `BuzzState`, `GameState`, `to_dict`/`from_dict` |
| scoring_state.dfy | `ScoringStates` | `ScoringState` |
| reveal_state.dfy | `RevealStates` | `RevealState` |
| session.dfy | `Sessions` | `Session` |
| commands.dfy | `Commands` | `CommandType`, `Command` |
| game_show.dfy | `GameShow` | `award_points_for_current_task` |
| input_controller.dfy | `InputControllers` | `InputController` |
| task.dfy | `Tasks` | `TaskFactory.from_dict` and its validators |
| task_loader.dfy | `TaskLoaders` | post-parse `load_tasks`, `validate_task_file` |
| game_overlays.dfy | `GameOverlays` | `_format_ms`, the value `draw_timer` shows |
| application.dfy | `Applications` | `Application._apply_command`, the task-change block of `_render_frame` |

## Model

| member | source | states |
|---|---|---|
| Timers.Delta | src/models/game_state.py:111-116 | One accumulation step adds nothing without an origin. Otherwise it adds the time since the origin, clamped at 0, so it is never negative. |
| Timers.Timer.constructor | src/models/game_state.py:53-62 | A new timer is a paused stopwatch at 0 with no target and no origin. |
| Timers.Timer.Start | src/models/game_state.py:64-68 | After the call the timer runs. An already running timer keeps its origin; otherwise the origin becomes `nowMs`. |
| Timers.Timer.Pause | src/models/game_state.py:70-75 | After the call the timer is paused and `elapsedMs` never decreases. A running timer folds the step `Delta` in and drops its origin. A paused timer is unchanged. |
| Timers.Timer.Reset | src/models/game_state.py:77-80 | Elapsed time becomes 0, the timer stops and loses its origin. Mode and target are kept, because the frame excludes them. |
| Timers.Timer.SetCountdown | src/models/game_state.py:82-87 | Fails iff the target is negative, with the source's message, and then changes nothing. Otherwise the timer is a countdown to that target, reset. |
| Timers.Timer.SetStopwatch | src/models/game_state.py:89-92 | The timer becomes a stopwatch with no target, reset. |
| Timers.Timer.Tick | src/models/game_state.py:94-98 | While running, `Delta` is added and the origin moves to `nowMs`. A paused timer is unchanged. `elapsedMs` never decreases. |
| Timers.Timer.RemainingMs | src/models/game_state.py:100-105 | Defined iff the timer is a countdown with a target. It is 0 iff the elapsed time has reached the target. Otherwise it is the positive difference, never more than the target. |
| Timers.Timer.IsFinished | src/models/game_state.py:107-109 | True iff the timer is a countdown with a target and the elapsed time has reached that target. |
| Timers.Timer.Accumulate | src/models/game_state.py:111-116 | Adds `Delta`. A timer without an origin gains the origin `nowMs` instead. |
| Timers.AccumulationScenario | src/models/game_state.py:64-116 | Start at 1000, tick at 1500 and pause at 1500 give 500 ms and a paused timer. A later tick leaves the 500 ms. |
| GameStates.CleanNames | src/models/game_state.py:133-138 | The result is empty iff every name is blank. Every kept name is non-empty with no surrounding whitespace. |
| GameStates.Credited | src/models/game_state.py:150-163 | Team count and names are kept and every other team is unchanged. A valid, unblocked index gains exactly `points`. An out-of-range or blocked index changes nothing. |
| GameStates.ParseBuzzState | src/models/game_state.py:280-282 | Accepts exactly the three state names and is the inverse of their encoding. |
| GameStates.ParseMode | src/models/game_state.py:293-294 | Accepts exactly the two mode names and is the inverse of their encoding. |
| GameStates.Encode | src/models/game_state.py:238-252 | A version-1 object with exactly the keys version, teams, buzz and timer, and one team entry per team. Its buzz and timer sections read back (`DecodeBuzz`, `DecodeTimer`) as the snapshot's own fields, it records `running`, and its team list reads back as the teams when their names are clean. |
| GameStates.EncodeTeams | src/models/game_state.py:238-252 | The team list is encoded entry by entry, in order. |
| GameStates.DecodeTeam | src/models/game_state.py:264-273 | Accepts iff the entry is an object whose name is a non-blank string and whose score (default 0) is an int. The result has the stripped name, which is clean. Each rejection carries its own message: "Team must be an object", "Team.name must be a non-empty string", "Team.score must be an int". |
| GameStates.DecodeTeams | src/models/game_state.py:263-273 | Succeeds iff every entry decodes. The list then has the same length, and each team is its entry decoded. |
| GameStates.FirstTeamError | src/models/game_state.py:264-272 | When entry `k` is the first bad one, decoding fails with exactly that entry's error. |
| GameStates.DecodeBuzz | src/models/game_state.py:277-284 | A missing or non-object `buzz` gives (CLOSED, no lock). A known state name gives that state and anything else CLOSED. The lock is present iff `locked_team` is an int, and is then that int. |
| GameStates.DecodeTimer | src/models/game_state.py:286-300 | A missing or non-object `timer` gives (stopwatch, 0, no target). A known mode name gives that mode and anything else stopwatch. A negative or non-int `elapsed_ms` gives 0. The target is present iff `target_ms` is a non-negative int, and is then that int. |
| GameStates.Sanitize | src/models/game_state.py:302-306 | An in-range or absent lock is kept. An out-of-range lock is dropped, and LOCKED then becomes CLOSED. The resulting lock is always in range. |
| GameStates.Decode | src/models/game_state.py:254-308 | A non-object document and a missing, non-array or empty `teams` fail with the source's messages. A bad team entry fails with the team list's error. Decoding succeeds iff those checks pass and every team entry decodes. The result then has the decoded teams, the buzz state and lock that `Sanitize` makes of `DecodeBuzz`, the timer fields of `DecodeTimer`, and a paused timer. |
| GameStates.DecodeSound | src/models/game_state.py:254-308 | Every accepted document yields at least one team, clean names, a locked team that is in range (if any) and a paused timer. |
| GameStates.DecodeEncodedTeams | src/models/game_state.py:238-273 | Teams whose names are all clean decode back from their encoding unchanged. |
| GameStates.DecodeEncodedBuzz | src/models/game_state.py:238-284 | The encoded buzz object decodes back to the same state and locked team. |
| GameStates.DecodeEncodedTimer | src/models/game_state.py:238-300 | The encoded timer object decodes back to the same mode, elapsed time and target. |
| GameStates.RoundTrip | src/models/game_state.py:238-308 | Round trip: `from_dict(to_dict(s))` restores teams, buzz state, locked team, mode, elapsed time and target. Only `running` comes back false. |
| GameStates.SanitizeScenario | src/models/game_state.py:302-306 | A document with state "locked" and locked team 9 for one team loads as CLOSED with no lock. |
| GameStates.GameState.constructor | src/models/game_state.py:119-131 | The given teams, CLOSED, no lock, no blocks, no status, and a fresh paused stopwatch at 0. |
| GameStates.GameState.WithTeams | src/models/game_state.py:133-138 | Fails iff every name is blank, with the source's message. Otherwise there is one team per clean name, in order, each with score 0. The result is CLOSED with no lock and no blocks, satisfies the buzz invariant and has a paused timer at 0. |
| GameStates.GameState.SetStatus | src/models/game_state.py:140-142 | The message is set. It expires at `nowMs` plus the duration clamped at 0. |
| GameStates.GameState.ClearExpiredStatus | src/models/game_state.py:144-147 | The message and expiry are cleared iff the expiry has been reached. Otherwise both are kept. |
| GameStates.GameState.AddPoints | src/models/game_state.py:150-163 | The scores become `Credited`: nothing for a bad index or a blocked team, and exactly `points` for that team otherwise. A valid index with a time sets "BLOCKED: name" or the points message. The buzz invariant is preserved. |
| GameStates.GameState.ResetScores | src/models/game_state.py:165-173 | Every score becomes 0 with names and count kept. The result is CLOSED with no lock and no blocks, and the timer is reset with mode and target kept. The status is "Scores reset" when a time is given. |
| GameStates.GameState.OpenBuzz | src/models/game_state.py:176-180 | OPEN with no lock and blocks untouched. The buzz invariant holds afterwards. |
| GameStates.GameState.ResetBuzz | src/models/game_state.py:182-187 | CLOSED, no lock, no blocks. The buzz invariant holds afterwards. |
| GameStates.GameState.FailLockedTeamAndReopen | src/models/game_state.py:189-200 | The locked team (if any) joins the blocks, and the arbiter is OPEN with no lock. |
| GameStates.GameState.ClearBuzzBlocks | src/models/game_state.py:202-203 | Only the blocks are emptied. The invariant is preserved. |
| GameStates.GameState.Buzz | src/models/game_state.py:205-218 | Succeeds iff the arbiter is OPEN and the team is in range and unblocked. The state then becomes LOCKED on that team; otherwise no buzz field changes. A blocked team in range gets "BLOCKED: name". The invariant is preserved. |
| GameStates.GameState.TimerStartPauseToggle | src/models/game_state.py:221-227 | Flips `running`. Pausing folds in `Delta` and starting sets the origin. The status is "Timer paused" or "Timer started". |
| GameStates.GameState.TimerReset | src/models/game_state.py:229-231 | The timer is reset and the status is "Timer reset". |
| GameStates.GameState.Tick | src/models/game_state.py:233-235 | The timer ticks, with elapsed time never decreasing, and an expired status is dropped. |
| GameStates.GameState.ToDict | src/models/game_state.py:238-252 | A version-1 object with exactly the keys version, teams, buzz and timer, with the teams encoded in order. For a state with valid indices and clean names, `Decode` gives back its snapshot with `running` false. |
| GameStates.GameState.ReadTeams | src/models/game_state.py:263-273 | The team loop returns exactly `DecodeTeams`: the first bad entry's error, or all teams. |
| GameStates.GameState.RestoreBuzz | src/models/game_state.py:277-284 | Starting from the defaults, the buzz fields become those the document names, keeping the defaults for ill-typed values. |
| GameStates.GameState.RestoreTimer | src/models/game_state.py:286-300 | Mode, elapsed time and target become those the document validly names, and the timer stays paused. |
| GameStates.GameState.SanitizeLock | src/models/game_state.py:302-306 | The buzz fields become `Sanitize` of their old values. |
| GameStates.GameState.Rebuild | src/models/game_state.py:275-306 | A fresh state whose snapshot is `Restore` of the teams and the document, with no blocks, no status and a valid paused timer. |
| GameStates.GameState.FromDict | src/models/game_state.py:254-308 | Fails iff `Decode` fails, with the same error. On success it returns a fresh state whose snapshot is `Decode`'s result, with no blocks, no status, a valid paused timer, valid indices, at least one team and clean names. |
| GameStates.PersistenceScenario | src/models/game_state.py:150-308 | Alpha +5 and locked: the restored state has the names, the scores [5, 0] and the lock on Alpha. |
| ScoringStates.ScoringState.constructor | src/models/scoring_state.py:17-18 | No task is awarded. |
| ScoringStates.ScoringState.IsAwarded | src/models/scoring_state.py:20-21 | A read-only query: true iff the id is in the awarded set. `MarkAwarded` and `Reset` are stated through it. |
| ScoringStates.ScoringState.MarkAwarded | src/models/scoring_state.py:23-27 | Returns true iff the id was not yet awarded. The id is awarded afterwards, and a repeat leaves the set unchanged. |
| ScoringStates.ScoringState.Reset | src/models/scoring_state.py:29-30 | Removes only that id, and changes nothing when the id is absent. |
| ScoringStates.ScoringState.ClearAll | src/models/scoring_state.py:32-33 | The set is empty. |
| ScoringStates.AwardOnceScenario | src/models/scoring_state.py:17-33 | The first mark succeeds and the second fails. After a reset the id can be marked again, and other ids are untouched. |
| RevealStates.Toggled | src/models/reveal_state.py:24-29 | The id's membership flips and no other id changes. |
| RevealStates.ToggledTwice | src/models/reveal_state.py:24-29 | Toggling twice restores the set. |
| RevealStates.RevealState.constructor | src/models/reveal_state.py:18-19 | Nothing is revealed. |
| RevealStates.RevealState.IsRevealed | src/models/reveal_state.py:21-22 | A read-only query: true iff the id is in the revealed set. `Toggle` and `Reset` are stated through it. |
| RevealStates.RevealState.Toggle | src/models/reveal_state.py:24-29 | The set becomes `Toggled`, and the result is the id's new state, the opposite of the old one. |
| RevealStates.RevealState.Reset | src/models/reveal_state.py:31-32 | The id is hidden and other ids are untouched, so repeating it has no further effect. |
| RevealStates.RevealState.ClearAll | src/models/reveal_state.py:34-35 | Nothing is revealed. |
| RevealStates.RevealScenario | src/models/reveal_state.py:18-35 | Toggle on then off. With 1 and 2 revealed, resetting 1 keeps 2, and clearing hides 2. |
| Sessions.NextIndex | session.py:42-48 | The next index is in range. It is `i + 1` before the last task and 0 from the last. |
| Sessions.PrevIndex | session.py:50-56 | The previous index is in range. It is `i - 1` after the first task and the last index from the first. |
| Sessions.NextPrevInverse | session.py:42-56 | Next then previous, and previous then next, both restore the index. |
| Sessions.AdvanceWithinLap | session.py:42-48 | `k <= n` steps forward land on `i + k`, wrapped once. |
| Sessions.FullCircle | session.py:42-48 | `n` steps forward return to the start. |
| Text.DigitRun | session.py:67-74 | The leading run of digits is maximal. |
| Sessions.ParseJoined | session.py:67-74 | "a / b" of two digit strings reads back as their two values. |
| Sessions.PositionText | session.py:67-74 | The position text reads back as exactly (index + 1, total). |
| Sessions.Session.constructor | session.py:26-40 | Keeps the tasks and starts at index 0. |
| Sessions.Session.Create | session.py:26-40 | Fails iff the task list is empty, with the source's message. Otherwise it returns a fresh session at index 0. |
| Sessions.Session.NextTask | session.py:42-48 | The index becomes `NextIndex`, stays in range, and the last task wraps to the first. |
| Sessions.Session.PrevTask | session.py:50-56 | The index becomes `PrevIndex`, stays in range, and the first task wraps to the last. |
| Sessions.Session.CurrentTask | session.py:58-65 | The task at the current index, which is one of the session's tasks. |
| Sessions.Session.IsFirstTask | session.py:76-78 | On a valid session, true iff `prev_task` would wrap around to the last task. |
| Sessions.Session.IsLastTask | session.py:80-82 | On a valid session, true iff `next_task` would wrap around to the first task. |
| Sessions.Session.GetPositionInfo | session.py:67-74 | The text reads back as (current index + 1, number of tasks). |
| Sessions.WraparoundScenario | session.py:42-56 | With three tasks, previous from the first gives 2 and next from there gives 0. |
| GameShow.ResolveTarget | src/models/game_show.py:46-48 | The buzz lock wins over the selection. There is no target iff neither exists. |
| GameShow.AwardPointsForCurrentTask | src/models/game_show.py:23-55 | Returns the resolved target, even when no points landed. It credits scores by `Credited` with the difficulty, so a blocked or out-of-range team is unchanged. An in-range target gets the points message or "BLOCKED: name", expiring after the status duration. An out-of-range target leaves the status alone. With no target it sets "No team selected" and changes no score. Only scores and status may change, and valid indices stay valid. |
| GameShow.SelectedTeamScenario | src/models/game_show.py:23-55 | With no lock, selected team 1 receives difficulty 4. |
| GameShow.LockedTeamScenario | src/models/game_show.py:23-55 | Team 0 locked while team 1 is selected: team 0 receives the 2 points. |
| GameShow.NoTeamScenario | src/models/game_show.py:23-55 | With no lock and no selection, the result is None, the score is unchanged and the status is "No team selected". |
| GameShow.BlockedTeamScenario | src/models/game_show.py:23-55 | A blocked target is returned but gains nothing, and an unblocked one then gains the points. |
| InputControllers.KeyStep | src/controllers/input_controller.py:47-122 | Only unbound keys give no command, and they keep the mode. Team key k gives BUZZ(k-1) in buzz-open mode and SELECT_TEAM(k-1) otherwise, and always leaves the mode off. The buzz reset and fail keys leave the mode off, and only the buzz-open key switches it on. NEXT/PREV and only they move the session, and only the quit key gives QUIT. |
| InputControllers.BuzzOpenThenTeam | src/controllers/input_controller.py:62-92 | After the buzz-open key, the next team key buzzes that team and ends buzz-open mode. |
| InputControllers.Poll | src/controllers/input_controller.py:26-45 | A batch that keeps running extends the collected commands, adds at most one per event and adds no QUIT. A batch that stops returns one QUIT command. An in-range session index stays in range. |
| InputControllers.PollQuits | src/controllers/input_controller.py:26-45 | A batch stops iff it contains a quit event or the quit key, and it then returns [QUIT] alone. |
| InputControllers.PollKeepsOrder | src/controllers/input_controller.py:26-45 | A batch that keeps running returns the earlier commands as a prefix, adds at most one command per event and contains no QUIT. |
| InputControllers.InputController.constructor | src/controllers/input_controller.py:22-24 | Starts outside buzz-open mode. |
| InputControllers.InputController.MapKeydown | src/controllers/input_controller.py:47-122 | The command and new mode are `KeyStep`'s. The session moves as the key says before the command is returned. |
| InputControllers.InputController.PollCommands | src/controllers/input_controller.py:26-45 | Running flag, command list, final mode and session index are exactly those of `Poll`. |
| InputControllers.BuzzKeysPoll | src/controllers/input_controller.py:26-93 | Buzz-open, a non-key event, team 2, an unbound key and team 3 give [BUZZ_OPEN, BUZZ(1), SELECT_TEAM(2)]. |
| InputControllers.BuzzKeysScenario | src/controllers/input_controller.py:26-93 | The controller yields those commands, keeps running and ends outside buzz-open mode. |
| Tasks.ParseKind | src/models/task.py:121-127 | Recognises exactly the five registered type names and inverts their naming. |
| Tasks.RunCheck | src/models/task.py:137-154 | A check raises iff its rule is broken, and the error names that check's field. |
| Tasks.RunChecks | src/models/task.py:185-202 | No error iff every check accepts. Otherwise the error is that of the first check that rejects, every earlier check accepting. |
| Tasks.Message | src/models/task.py:172-214 | Each error's text opens with its own lead ("Task must be an object, got: ", "Unknown task type: ", "Field '", "Optional field '", "Invalid data for ") followed by what it names: the type found, `type`, the unknown type, the field, or the task type of the rejected constructor call. |
| Tasks.FromDict | src/models/task.py:156-214 | Rejects a non-object, a missing or blank type, an unknown type, the first failing field check, and keys the class does not declare, each with its error. It accepts iff all checks pass. An accepted record carries the given id and its declared type. |
| Tasks.AcceptedFieldsValid | src/models/task.py:185-202 | Every check of an accepted record's type holds: required text is non-blank, word lists are non-empty lists of non-blank strings, and optional text is absent, null or a string. |
| Tasks.TypeSelectsKind | src/models/task.py:175-183 | A registered type name passes the type checks and selects its class. |
| Tasks.TextFieldAccepted | src/models/task.py:137-141 | A string starting with a non-space passes the required-text check. |
| Tasks.NoDifficultyField | src/models/task.py:14-109 | No task class accepts a `difficulty` key. |
| Tasks.AcceptedWhenValid | src/models/task.py:156-214 | A record with a registered type, all checks passing and only declared keys is accepted under the given id. This is the converse of `AcceptedFieldsValid`. |
| Tasks.UndeclaredKeyRejected | src/models/task.py:207-214 | An otherwise valid record with an undeclared key is rejected in the constructor call. |
| Tasks.DifficultyKeyRejected | src/models/task.py:207-214 | A quiz record carrying `difficulty` is rejected. |
| Tasks.QuizAccepted | src/models/task.py:156-214 | A quiz with a question and a null note is accepted under id 4, overriding the id 9 in the input. |
| Tasks.WordListMustBeArray | src/models/task.py:143-149 | A tabu task whose `forbidden_words` is a string is rejected as not a word list. |
| TaskLoaders.Outcomes | src/services/task_loader.py:82-86 | Each record is validated with its position as id. |
| TaskLoaders.FirstInvalid | src/services/task_loader.py:82-90 | The first rejected position, with every earlier one accepted. None iff all are accepted. |
| TaskLoaders.LoadTasks | src/services/task_loader.py:71-92 | A non-array and an empty array are rejected. Loading succeeds iff every record is valid. The tasks are then the records in order, with ids 0..n-1. Otherwise the first invalid record's index and error are reported, with no partial list. |
| TaskLoaders.CollectTasks | src/services/task_loader.py:82-92 | The loop returns all accepted tasks in order iff none is rejected. Otherwise it returns the first rejection. |
| TaskLoaders.ValidateTaskFile | src/services/task_loader.py:95-111 | True iff the file parsed and `load_tasks` accepts it. |
| TaskLoaders.FirstRecordRejected | src/services/task_loader.py:82-90 | A rejected first record is the first invalid position. |
| TaskLoaders.LoadMessage | src/services/task_loader.py:71-90 | The non-array text names the type found. The invalid-record text is "Invalid task at index " followed by digits that read back as the index, then ": " and the record's own error text. |
| TaskLoaders.IndexReport | src/services/task_loader.py:87-90 | The text reads back as the given index and then ": " and the given error text. |
| TaskLoaders.NopeRejected | tests/test_task_loading.py:37-41 | The record of type "nope" is rejected as an unknown type. |
| TaskLoaders.UnknownTypeScenario | tests/test_task_loading.py:37-41 | Loading the one record of type "nope" fails at index 0 as an unknown type. The error text starts "Invalid task at index 0: Unknown task type: nope". |
| Text.LeadingSpaces | src/models/game_state.py:135 | The count of whitespace characters at the front of the string, and no more. |
| Text.Strip | src/models/game_state.py:135 | Empty iff the string is all whitespace. Otherwise the result has no whitespace at either end. |
| Text.StripShape | src/models/game_state.py:135 | `strip()` keeps one contiguous run of the string and drops only whitespace around it. |
| Text.StripStripped | src/models/game_state.py:273 | A string with no whitespace at either end is unchanged by stripping. |
| Text.StripIdempotent | src/models/game_state.py:273 | Stripping twice is stripping once. |
| Text.NatToString | session.py:74 | Decimal digits with no leading zero. |
| Text.ParseNatToString | session.py:74 | Parsing the decimal text gives back the number. |
| Text.ParseNatLeadingZero | src/views/game_overlays.py:24 | A leading zero does not change a digit string's value. |
| GameOverlays.ZeroPad2 | src/views/game_overlays.py:24 | At least two digits with the value `n`. Exactly two for n < 100, and no padding beyond that. |
| GameOverlays.FormatMs | src/views/game_overlays.py:20-24 | "mm:ss" with a two-digit seconds field below 60. minutes * 60 + seconds equals the whole seconds of `max(0, ms)`. |
| GameOverlays.UnderASecondIsZero | src/views/game_overlays.py:20-24 | Any value under one second, negative ones included, reads "00:00". |
| GameOverlays.DisplayMs | src/views/game_overlays.py:101-107 | Remaining time for a countdown with a target, elapsed time otherwise. Never negative. |
| GameOverlays.FinishedCountdownReadsZero | src/views/game_overlays.py:101-107 | A finished countdown reads "00:00". |
| Applications.DecideAward | src/core/application.py:203-233 | AWARD is refused as already awarded iff the task id is latched. It ends in NoTarget iff there is no target to resolve. It is granted only to the resolved target when that team is not blocked. |
| Applications.AwardOnce | src/core/application.py:207-209 | Once a task id is latched, every later AWARD of that id is refused, whatever the lock, selection or blocks. |
| Applications.ClampSelection | src/core/application.py:272 | `min(selected or 0, n - 1)`: in range for a non-negative selection, unchanged when already in range, and 0 for no selection. |
| Applications.Application.constructor | src/core/application.py:54-143 | Team 0 selected, no overlay, empty award and reveal sets, and the last index is the current one. `Valid` holds. |
| Applications.Application.ToggleRoster | src/core/application.py:171-175 | Flips the roster, and showing it hides help, so both are never shown. |
| Applications.Application.ToggleHelp | src/core/application.py:177-181 | Flips help, and showing it hides the roster. |
| Applications.Application.SelectTeam | src/core/application.py:183-189 | Changes the selection and announces it iff the arbiter is not LOCKED and the index is in range. Otherwise nothing changes. |
| Applications.Application.Buzz | src/core/application.py:191-196 | A successful buzz locks that team, selects it and announces "BUZZ: name". A failed one changes neither the selection nor the lock. A blocked team in range gets "BLOCKED: name". Whenever the arbiter was OPEN and the team is in range, the status expires after the status duration. Otherwise the status is unchanged. |
| Applications.Application.BuzzFail | src/core/application.py:198-201 | The locked team is blocked, and the arbiter is OPEN with no lock. The status is "BUZZ REOPEN" with the usual expiry. |
| Applications.Application.Award | src/core/application.py:203-233 | Already awarded, no target or a blocked target only set their status: no score, latch or buzz change. Otherwise the target gains the difficulty, the task id is latched and the buzzer is reset. |
| Applications.Application.GrantAward | src/core/application.py:224-233 | The target gains the difficulty, the id is latched, and the result is CLOSED with no lock and no blocks. |
| Applications.Application.CreditGrantedTeam | src/core/application.py:224-226 | The unblocked target gains exactly the difficulty. |
| Applications.Application.Penalty | src/core/application.py:235-247 | Subtracts the difficulty from the resolved target through `Credited`, so a blocked team keeps its score. The latch is not consulted. An in-range target gets the points message for the negative difficulty, or "BLOCKED: name". With no target the status is "No team selected". Both expire after the status duration. An out-of-range target leaves the status alone. |
| Applications.Application.Save | src/core/application.py:261-266 | Hands `to_dict()` to the writer. The status is "Saved" or the failure text. |
| Applications.Application.ReportSave | src/core/application.py:261-266 | The status becomes "Saved" or "Failed to save game state: " and the reason, with the usual expiry. |
| Applications.Application.Load | src/core/application.py:268-275 | A read failure or a rejected document keeps the state and reports the error. An accepted one gives a fresh state equal to `Decode`'s result, with the selection clamped into range. |
| Applications.Application.LoadDocument | src/core/application.py:268-275 | As `Load`, once the document has been parsed. |
| Applications.Application.ToggleReveal | src/core/application.py:277-284 | A task with an id has its reveal flag toggled and announced as "Revealed" or "Hidden", with the usual expiry. A task without an id changes nothing. |
| Applications.Application.ApplyCommand | src/core/application.py:167-284 | Only AWARD can change the latch, and only by adding the current id. The game state is the same object or a fresh one. The application stays valid. |
| Applications.Application.ApplyControlCommand | src/core/application.py:249-259 | BUZZ_OPEN, BUZZ_RESET, TIMER_TOGGLE and TIMER_RESET keep the application valid. |
| Applications.Application.ApplyFileCommand | src/core/application.py:261-275 | SAVE or LOAD keeps the application valid and sets a status. |
| Applications.Application.OnTaskChange | src/core/application.py:373-399 | When the session moved, the previous and new task ids are hidden and the blocks are cleared. Otherwise nothing changes. The latch is untouched and the last index is now current. |
| Applications.AwardedFirstTask | src/core/application.py:203-233 | AWARD on the first of two one-point tasks gives team A 1 point and latches task 0. |
| Applications.AwardLatchScenario | src/core/application.py:207-209 | After navigating round back to the awarded task, AWARD reports "Already awarded" and the score stays 1. |

## Left out

- Drawing, layout, transitions, the game loop and the team-setup screen are not modelled. They are pygame side effects and floating-point work. `handle_events` and the frame cache are left out with them.
- The clock is not read. Every operation takes `nowMs` as a parameter.
- File access for SAVE and LOAD is not modelled. The writer's outcome and the parsed document (or the exception text) are parameters, `SaveReply` and `LoadReply`.
- Reading the task file and parsing its JSON are not modelled. `LoadTasks` starts from the parsed document, and `ValidateTaskFile` takes `None` for a file that is missing or cannot be read or parsed.
- JSON floats are not modelled.
- Python's treatment of `True`/`False` as ints in the `isinstance(..., int)` checks is not modelled. A JSON boolean is never an int here.
- `from_dict` does not check `version`, and neither does the model.
- `from_dict` does not restore the lock invariant, and the model does not claim it does. A LOCKED state with no locked team loads unchanged, and so does a stopwatch with a target. `DecodeSound` states only what holds.
- Tasks.Message: for an undeclared key, Python's own `TypeError` text is a fixed phrase, not the interpreter's wording.
- Task difficulty: `BaseTask` declares no `difficulty` field, so a record that carries one is rejected (`DifficultyKeyRejected`). The loader's happy-path test expects such records to load. The model follows the code. The points an award is worth come from `Sessions.Task.difficulty`, a field of the session's view of a task, which is always present. The model therefore leaves out `assert task.difficulty is not None` and `int(task.difficulty)` (src/models/game_show.py:43-44, src/core/application.py:237-238). With the task classes of src/models/task.py as written, `task.difficulty` raises `AttributeError`, so AWARD and PENALTY fail there.
- Applications.Application.ApplyCommand: dispatches each command to the member that states its effect. Its own contract states only the frame, the award latch and `Valid`.
- Applications.Application.ApplyControlCommand: states only `Valid`. The effects are the contracts of `OpenBuzz`, `ResetBuzz`, `TimerStartPauseToggle` and `TimerReset`.
- Applications.Application.ApplyFileCommand: states only freshness, the status expiry and `Valid`. The effects are the contracts of `Save` and `Load`.
- `print` calls and console output are left out.
- The root-level input_controller.py is an older controller, and is not part of this model. Its `handle_events` handles only quit, next and previous, and returns only a running flag: no commands, no buzz-open mode and no team keys.
- config/keybindings.py is not part of this model. Keys are the enumeration `InputControllers.Key`, one constructor per key that src/controllers/input_controller.py:47-122 reads. The model assumes every such `KEY_*` name is bound. config/keybindings.py:14-21 binds only `KEY_NEXT`, `KEY_PREV` and `KEY_QUIT`, so with that file as it stands, `_map_keydown` raises `AttributeError` at `keybindings.KEY_BUZZ_OPEN` (src/controllers/input_controller.py:62) for every other key.
