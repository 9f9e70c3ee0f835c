# Pomodoro to-do bot: dialogue state machine and timer bookkeeping

This project models the core of a Telegram to-do bot written in Go (`main.go`).
Users add tasks that need a number of pomodoros (focus intervals), pick a task
and a duration, and run a timer that can be stopped, restarted and queried;
when the timer's deadline passes, the task's done count goes up by one.

The model covers:

- **The dialogue** (`dialogue.dfy`). Each user is in one of five places
  (`IDLE`, `ADD_TASK_PART1`, `ADD_TASK_PART2`, `START_POMO1`, `START_POMO2`).
  A user missing from the map is idle. `Route` is the update loop's choice of
  handler: the eight button keywords come first, whatever the place; other
  buttons and plain text are routed by place. `Next` is the sender's place
  after the handler has run.
- **The bot's state** (`app.dfy`). Class `App` holds the per-user maps
  `UserPlace`, `AddingTask`, `TaskToComplete` and `PomoTimer`, the task table
  (an in-memory map that hands out ids 1, 2, 3, ...) and the multiset of timer
  goroutines that are still waiting. There is one method per handler, plus
  `Expire` and `Stop` for the two branches of the timer goroutine's `select`,
  and `Handle` for one pass of the update loop.
- **Timer arithmetic** (`timers.dfy`). Durations and instants are integers of
  nanoseconds, and the current time is a parameter. Start sets the duration to
  `mins*60` seconds. Remaining time is the duration minus the time since the
  start. Stop stores the remaining time as the duration. Restart only resets
  the start.
- **Tasks** (`tasks.dfy`): the task record, the `done < pomos` and
  `done = pomos` filters, and the completion word.
- **Decimal text** (`decimal.dfy`): `strconv.Atoi` and `%d`.
- **Whole conversations** (`scenarios.dfy`), run through `Handle` on a fresh bot.

The model follows the code, including behaviour a careful design would avoid:

- Any integer count is accepted, including zero and negative counts.
- Remaining time is never clamped and goes negative past the deadline.
- After a duration is chosen the user stays in `START_POMO2`. Any further
  non-keyword button starts another timer.
- A task button that does not parse stores task id 0.
- A stopped timer keeps its old start time. So "remaining" while stopped
  subtracts the earlier run a second time and keeps falling
  (`Timers.RemainingWhileStopped`).
- "restart" while the timer runs discards the time already run
  (`Timers.RestartDiscardsElapsed`). It also leaves two goroutines waiting, so
  the task is credited twice (`Scenarios.RestartWhileRunningScenario`).

## Model

| member | source | states |
|---|---|---|
| Decimal.ParseInt | main.go:99-105 | text parses exactly when it is one or more digits, optionally after a single `+` or `-`; the value is that of the digits, negated after `-`; everything else (empty text, a lone sign, spaces, letters) fails |
| Decimal.AtoiOrZero | main.go:177 | when the error is discarded, text that is not a number reads as 0; otherwise it is the parsed value |
| Decimal.FormatNat | main.go:167 | a task id is printed as a non-empty run of digits with no leading zero |
| Decimal.DigitsValueOfFormat | main.go:167 | the printed digits of `n` have value `n` |
| Decimal.ParseFormatNat | main.go:176-178 | parsing the printed id of a task gives the id back |
| Decimal.ParseRejectsNonDigit | main.go:99-100 | text with a character after the first that is not a digit is a parse error |
| Tasks.OngoingIds | main.go:160-162 | an id is returned exactly when it is a task of the owner with done < needed |
| Tasks.FinishedIds | main.go:142-144 | an id is returned exactly when it is a task of the owner with done = needed |
| Tasks.ListsPartitionOwnTasks | main.go:123-158 | no task is in both lists; an owner's task is in one of them exactly when done <= needed, so an over-completed task is in neither |
| Tasks.StatusOf | main.go:225-230 | "completed" exactly when the needed and done counts are equal; StatusAgreesWithLists ties this to the completed list |
| Tasks.Increment | main.go:214-216 | the done count goes up by exactly one; owner, name and needed count are unchanged |
| Tasks.StatusAgreesWithLists | main.go:224-230 | after one more pomodoro, "completed" is reported exactly when the task is in the completed list, and "1 pomo ahead" exactly when it is ongoing or past its needed count |
| Tasks.OngoingTaskNeverOvershoots | main.go:214-230 | an ongoing task is ongoing or completed after one pomodoro; "completed" is reported exactly when needed = done + 1 beforehand |
| Timers.Started | main.go:256-258 | a new timer lasts `mins*60` seconds, in nanoseconds, and starts now |
| Timers.Remaining | main.go:281 | the full duration at the start instant, non-negative until the deadline and non-positive from it on; it is never clamped (RemainingGoesNegative) |
| Timers.Stopped | main.go:239-242 | stopping stores the remaining time as the duration and keeps the start |
| Timers.Restarted | main.go:208-211 | restarting keeps the duration and sets the start to now |
| Timers.ReplayConservesDuration | main.go:208-253 | after any sequence of restarts and stops, the duration is the original minus the total running time, and the start is the last restart |
| Timers.PomodoroAccounting | main.go:255-260 | for a pomodoro of `mins` minutes, the duration after any runs is `mins*60` s minus their total length |
| Timers.StopStoresRemaining | main.go:239-242 | a stop stores exactly the remaining time, so stopping and restarting at the same instant leaves the remaining time unchanged; asked at the stop instant, the stopped timer subtracts the run again |
| Timers.RemainingWhileStopped | main.go:280-282 | while stopped, the remaining time shown subtracts the run before the stop a second time and only decreases |
| Timers.RestartDiscardsElapsed | main.go:296-308 | restarting a running timer brings the remaining time back to the full stored duration |
| Timers.RemainingGoesNegative | main.go:281 | past the deadline the remaining time is negative (no clamping) |
| Dialogue.Keyword | main.go:353-378 | only the eight keyword handlers are keyword actions, and no keyword starts with a digit |
| Dialogue.Route | main.go:353-424 | a keyword button goes to its handler whatever the place; a non-keyword button chooses a task exactly in `START_POMO1` and a duration exactly in `START_POMO2`; non-empty text goes to the name or count handler exactly at those prompts; commands and text reach no other handlers |
| Dialogue.Next | main.go:83-205 | the place changes only through the "add task", "start pomo", task-choice, name and count handlers, which write `ADD_TASK_PART1`, `START_POMO1`, `START_POMO2` and so on; text while choosing changes nothing |
| Dialogue.PlaceOf | main.go:379-381 | a user missing from the map is idle; otherwise the stored place |
| Dialogue.KeywordsIgnorePlace | main.go:353-378 | a keyword button is routed to its handler whatever the user's place |
| Dialogue.AddTaskFromAnyPlace | main.go:360-361 | "add task" moves any user to the task-name prompt |
| Dialogue.StartPomoFromAnyPlace | main.go:357-358 | "start pomo" moves any user to the task choice |
| Dialogue.OtherButtonsByPlace | main.go:379-393 | a non-keyword button chooses a task exactly in `START_POMO1` and chooses a duration exactly in `START_POMO2`; it changes the place only in `START_POMO1` |
| Dialogue.TextIgnoredWhileChoosing | main.go:416-424 | text in `START_POMO1` or `START_POMO2` goes to no handler and changes no place |
| Dialogue.TaskNameMovesOn | main.go:416-419 | non-empty text at the task-name prompt goes to the name handler and moves to the count prompt |
| Dialogue.CountMovesOnOnlyWhenParsed | main.go:98-121 | at the count prompt, text returns the user to idle exactly when it parses; otherwise the user stays at the prompt |
| Dialogue.DurationChoiceIsSticky | main.go:255-272 | only the "start pomo" and "add task" buttons move a user out of `START_POMO2` |
| Dialogue.NumberIsNoKeyword | main.go:165-168 | a task button's printed id is never a keyword |
| Dialogue.TaskButtonRoutesToChoice | main.go:379-380 | in `START_POMO1`, an offered task's button goes to the task choice and moves the user to `START_POMO2` |
| Bot.AsUint | main.go:178 | non-negative ids are kept; a negative 64-bit id wraps to id + 2^64 |
| Bot.ChosenTaskId | main.go:177-178 | data that does not parse stores 0; a non-negative parsed value is stored as it is |
| Bot.ChosenTaskIdOfButton | main.go:176-178 | pressing the button of task `id` stores `id` |
| Bot.ChosenTaskIdOfUnparsable | main.go:177 | button data that does not parse stores task id 0 |
| Bot.App.constructor | main.go:328-338 | all per-user maps and the task table start empty, and the first id is 1 |
| Bot.App.DraftOf | main.go:106 | the user's stored draft, or the empty task when there is none |
| Bot.App.SelectedOf | main.go:215 | the user's chosen task id, or 0 when they never chose one |
| Bot.App.AddTaskMessage | main.go:79-84 | the user's place becomes `ADD_TASK_PART1`; nothing else changes |
| Bot.App.AddTaskP1 | main.go:86-96 | the draft becomes (sender, text, 0, 0) and the place becomes `ADD_TASK_PART2`; nothing else changes |
| Bot.App.AddTaskP2 | main.go:98-121 | unparsable text changes nothing; an integer `n` of any sign adds exactly one task under a fresh id, with the draft's owner and name, `n` needed and 0 done; it also resets the draft and makes the user idle |
| Bot.App.ShowTasksList | main.go:123-140 | returns exactly the user's tasks with done < needed |
| Bot.App.ShowCompleted | main.go:142-158 | returns exactly the user's tasks with done = needed |
| Bot.App.StartPomo | main.go:160-174 | offers exactly the user's ongoing tasks and sets the place to `START_POMO1`; nothing else changes |
| Bot.App.ChooseTask | main.go:176-206 | stores the parsed id (0 if unparsable, wrapped if negative) and sets the place to `START_POMO2`; nothing else changes |
| Bot.App.ChooseDuration | main.go:255-272 | replaces the user's timer with one of the parsed minutes starting now, and adds one waiting goroutine; the place stays `START_POMO2` |
| Bot.App.ShowRemainingTime | main.go:280-294 | the remaining time is the duration minus the time since the start, unclamped; there is no result when the user has no timer |
| Bot.App.Stop | main.go:239-252 | with one of the user's goroutines waiting, stores the remaining time as the duration and ends that goroutine; other users' timers are untouched |
| Bot.App.Restart | main.go:296-308 | keeps the duration, restarts at now and adds one waiting goroutine; there is no change when the user has no timer |
| Bot.App.Expire | main.go:212-238 | one waiting goroutine ends, and the chosen task gets exactly one more done with the matching status; nothing else changes |
| Bot.App.Handle | main.go:344-428 | the handler is the routed one and the sender's new place is `Next`; other users' entries are unchanged and no existing task is altered; handlers that only send messages change nothing |
| Scenarios.AtCountPrompt | main.go:79-96 | "add task" and a non-empty name leave the user at the count prompt with the draft (user, name, 0, 0) and no task stored |
| Scenarios.CountPromptScenario | main.go:98-121 | "abc" at the count prompt creates nothing and keeps the prompt; "4" then creates (user, name, 4, 0) and returns to idle |
| Scenarios.OneTaskAdded | main.go:98-121 | for the name "focus", the count "1" creates task 1 with that name, 1 needed and 0 done, and leaves the user idle |
| Scenarios.OneTaskChosen | main.go:160-206 | then "start pomo" and the task's button select task 1 and move the user to `START_POMO2` |
| Scenarios.RestartedWhileRunning | main.go:296-308 | "restart" while a timer runs leaves two goroutines waiting on a timer reset to the full 25 minutes |
| Scenarios.RestartWhileRunningScenario | main.go:208-238 | both goroutines expire, so a one-pomodoro task ends with 2 done and is listed nowhere; "completed" is reported first, then "1 pomo ahead" |

## Left out

- Telegram messaging is not modelled. This covers message texts, inline
  keyboards, deleting the previous message (`LastChatMessage`), the chat ids
  recorded by `/start`, the `/help` command, and the mm:ss and percentage
  formatting done with floating point. Handlers that only send messages are
  routed but change no modelled state.
- The database, environment loading and start-up are not modelled. The task
  table is an in-memory map with ids 1, 2, 3, ...; gorm's timestamps and
  soft-delete columns are left out. The order in which tasks are listed is not
  modelled (the lists are sets).
- Bot.App.Expire: when the chosen id has no task, the model changes no task.
  The database library's behaviour in that case (the `First` lookup at line
  215 finds nothing) is left out.
- Bot.App.Expire: the deadline (start plus duration when the goroutine began)
  is not checked. Expiry may be called whenever a goroutine of the user is
  waiting, and it ignores which timer that goroutine captured.
- Bot.App.Stop: the source sends "stop" on one channel shared by all users.
  Any waiting goroutine, possibly another user's, receives it, and the update
  loop blocks when none is waiting. The model stops only the sender's timer,
  and changes nothing when none of the sender's goroutines waits.
- Bot.App.ChooseDuration: the source creates the timer with a zero start time
  and sets the start a moment later in the new goroutine. The model does both
  in one step.
- Bot.App.ShowRemainingTime and Bot.App.Restart: with no timer, the source
  dereferences a nil pointer and the process panics. The model returns no
  result, or `false`, and changes nothing.
- The wall clock, scheduling and concurrency are not modelled. The current
  time is an integer parameter, and the unused mutex inside the timer is left
  out.
- Decimal.ParseInt: the 64-bit range check of `strconv.Atoi` is not modelled.
  Lines 177 and 256 discard the error, and for an out-of-range number
  `strconv.Atoi` returns the clamped int64 bound, not 0. So "reads as 0"
  (Decimal.AtoiOrZero) holds only for text that is not a number.
  Durations and instants are unbounded integers, so the int64 overflow of
  `mins*60*time.Second` for huge minute counts is not modelled either.
