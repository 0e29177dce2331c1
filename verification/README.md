# pomodoro-cli timer model

A Dafny model of the state machine at the heart of `pomodoro-cli`, a
terminal pomodoro timer, and of the command layer that drives it.

- `PomodoroTimer` (`timer.dfy`) models `cmd/timer/timer.go`. A `Timer` holds
  three counters: the interval type, the ticks remaining and the pomodoro
  count. A `TimerState` wraps it in one of four kinds: `Focus`, `ShortBreak`,
  `LongBreak` (the running kinds) or `Paused`. Each Go method has a value
  receiver. `nextTimer`, `pause`, `skipCurrentTimer` and
  `resetCurrentTimer` return a new state and are modelled as the functions
  `NextTimer`, `Pause`, `SkipCurrentTimer` and `ResetCurrentTimer`. `tick`
  returns nothing. `Tick` models its effect on the caller, which is none.
  The cycle rule `getNextTimerType` returns a pair and is modelled as
  `NextTimerType`. The package-level duration map
  `TimerDuration` is passed in as a `Durations` table. It is read the way Go
  reads a map, so a missing key gives 0 (`Lookup`). `DefaultDurations` is the
  table the source starts with.
- `RootCommand` (`root.dfy`) models the value rules of `cmd/root.go`:
  - `Dispatch` is the keystroke dispatch of `handleUserInput`.
  - `DefaultTimerState` is the start value (`defaultTimer` inside
    `defaultTimerState`).
  - `LoadedState` is the rule that adopts a saved timer only when it is
    not the zero timer.
  - `SaveDurations` converts tick durations to whole minutes for the save
    record.
  - The program keeps its timer and state in two variables that change in
    place. The class `Session` holds them as one `TimerState` and
    updates it through its methods.
- `Wrappers` (`wrappers.dfy`) holds `Option`. The model uses it for a save
  file that may be missing or unreadable.

`cmd/root.go` is written against a later revision of the timer package,
which keeps the timer and the state kind apart. That revision hands the
timer and the state to `Tick`, `Pause`, `SkipCurrentTimer` and
`ResetCurrentTimer` as pointer arguments `(t, ts)`, and takes its states from
`TSPool`. It is not part of this model. The dispatch here applies the transitions of
`cmd/timer/timer.go` to a single `TimerState`. The values of
`DEFAULT_FOCUS_TIMER_DURATION` and `TICKS_PER_MINUTE` are not defined in
cmd/timer/timer.go or cmd/root.go, so they are parameters (`focusDuration`, `ticksPerMinute > 0`).

Where the code may surprise a reader, the model follows the code:
- There is no between-intervals state. `nextTimer` goes straight to `Paused`.
- The pomodoro count starts at 1, not 0 (`cmd/root.go:33-38`).
- The count goes up when a break ends, and on every skip from `Paused`. This
  includes skipping a paused focus interval. It does not go up when a focus
  interval completes.
- A focus interval whose count is a multiple of four is followed by a long
  break. So from count 0, the first break is a long one.
- The source's `tick` has no effect on the caller (see Findings).

## Model

| member | source | states |
|---|---|---|
| PomodoroTimer.DefaultDurations | cmd/timer/timer.go:9-13 | The initial table has exactly the three kinds, each positive and a whole number of minutes, with short break < long break < focus. |
| PomodoroTimer.NextTimerType | cmd/timer/timer.go:213-223 | Next kind is Focus iff the timer is not Focus. It is LongBreak iff the timer is Focus with count % 4 == 0. It is ShortBreak iff the timer is Focus with any other count. The duration is always the table's entry for the chosen kind. |
| PomodoroTimer.NextTimer | cmd/timer/timer.go:52-62 | `nextTimer` of every kind (also lines 89-99, 134-144, 174-184). The result is Paused and well-formed, with the kind from the cycle rule and that kind's full duration. The count is unchanged from running Focus and +1 from ShortBreak, LongBreak and any Paused state. |
| PomodoroTimer.Pause | cmd/timer/timer.go:186-197 | Pausing a running kind gives Paused (also lines 64-66, 101-103, 146-148). Pausing Paused resumes ShortBreak or LongBreak exactly when the timer's type says so, otherwise Focus. The timer is never changed, and well-formedness is preserved. |
| PomodoroTimer.SkipCurrentTimer | cmd/timer/timer.go:105-115 | For every kind, skip is the same as `nextTimer`. This covers the break kinds' own copies of the body and the delegations at lines 68-70 and 199-201. |
| PomodoroTimer.ResetTimer | cmd/timer/timer.go:72-80 | The reset that Focus inherits gives Paused with the same type and count. Remaining is the table's duration for the type, or 0 when the table has no entry. |
| PomodoroTimer.ResetCurrentTimer | cmd/timer/timer.go:117-125 | Reset from any kind is the embedded timer's reset (also lines 162-170, 203-211). It preserves well-formedness. |
| PomodoroTimer.Tick | cmd/timer/timer.go:45-50 | The source's tick (also lines 82-87, 127-132, 172) leaves the caller's state exactly as it was. |
| PomodoroTimer.TickIntended | cmd/timer/timer.go:45-50 | The corrected tick. Paused is unchanged. A running interval with more than one tick left loses one tick. A running interval with one tick left becomes `NextTimer` of the state. |
| PomodoroTimer.TickLosesDecrement | cmd/timer/timer.go:45-50 | Counterexample: a focus interval with 1500 ticks left still has 1500 after the source's tick. The corrected tick leaves 1499. |
| PomodoroTimer.TickIntendedCountsDown | cmd/timer/timer.go:45-47 | Taking k corrected ticks, where k is fewer than the ticks left, leaves the kind, type and count alone and lowers the remaining ticks by exactly k. |
| PomodoroTimer.TickIntendedExpires | cmd/timer/timer.go:45-49 | Taking exactly as many corrected ticks as remain ends the interval in `NextTimer` of the starting state. |
| PomodoroTimer.PauseTwice | cmd/timer/timer.go:186-197 | Pause∘Pause is the identity on a state exactly when it is Paused, or when it is ShortBreak iff its type is the short-break type and LongBreak iff its type is the long-break type. So a running Focus state whose type names no kind is also restored. In particular it is the identity on every well-formed state. |
| PomodoroTimer.ResetOnlyReadsTypeAndCount | cmd/timer/timer.go:203-211 | Reset depends only on the timer's type and count, not on the kind or the time left. Resetting twice is the same as resetting once. |
| PomodoroTimer.SkipFocusCountsOnlyWhenPaused | cmd/timer/timer.go:174-184 | Skipping a Focus-type timer gives the same break kind whether it is running or paused. The count is unchanged when running and +1 when paused. |
| RootCommand.Dispatch | cmd/root.go:176-193 | 's' applies Pause, 'f' applies SkipCurrentTimer, and 'r' applies ResetCurrentTimer, each once. Every other byte, 'q' included, leaves the state unchanged. Dispatch preserves well-formedness. |
| RootCommand.QuitKeyIsValidButInert | cmd/root.go:47-52 | 'q' is a valid key, and dispatching it changes nothing. |
| RootCommand.PauseKeyTwice | cmd/root.go:183-185 | Pressing 's' twice restores any well-formed state. |
| RootCommand.FocusRound | cmd/root.go:176-193 | From a paused Focus-type timer, the keys "sf" give the break the cycle rule picks, at full duration and with the count unchanged. The keys "sfsf" give a fresh paused focus interval with count +1. |
| RootCommand.FocusRounds | cmd/root.go:176-193 | After n ≥ 1 rounds of "sfsf" from any paused Focus-type timer, the state is a fresh paused focus interval with the count up by n. The break of the next round is long iff count + n is a multiple of 4. |
| RootCommand.FourthRoundTakesLongBreak | cmd/root.go:33-38 | From the default state, whatever the default focus duration, rounds 1 to 3 take short breaks and round 4 takes a long one. |
| RootCommand.DefaultTimerState | cmd/root.go:33-38 | The start state (`defaultTimer` inside `defaultTimerState`) is Paused, on a Focus timer at the default focus duration, with pomodoro count 1. |
| RootCommand.LoadedState | cmd/root.go:95-98 | A saved timer other than the zero timer replaces the state with Paused over that timer. In every other case, a missing or unreadable file included, the state stays as it was. |
| RootCommand.LoadAfterSave | cmd/root.go:95-98 | After loading a saved record, the timer equals the saved timer iff the saved timer is not the zero timer or the current timer is already the zero timer. When the saved timer is not the zero timer, the loaded state is Paused over it. |
| RootCommand.GoQuotient | cmd/root.go:122-124 | Go's `/`: for a ≥ 0 the quotient is the floor; for a ≤ 0 it is the ceiling (truncation toward zero). |
| RootCommand.SaveDurations | cmd/root.go:120-125 | For each kind with a non-negative duration, the saved minutes m satisfy m·tpm ≤ ticks < (m+1)·tpm, where tpm is ticks per minute. |
| RootCommand.SaveDurationsRoundTrip | cmd/root.go:120-125 | Durations that are whole minutes, of any sign, are saved as exactly those minutes. |
| RootCommand.Session.constructor | cmd/root.go:33-38 | Starts Paused, with a Focus timer at the default focus duration and pomodoro count 1. |
| RootCommand.Session.Load | cmd/root.go:95-98 | The session's state becomes `LoadedState` of its old state and the save file's contents. |
| RootCommand.Session.HandleUserInput | cmd/root.go:176-193 | The session's state becomes `Dispatch` of its old state. Well-formedness is kept. |
| RootCommand.Session.Tick | cmd/root.go:139-140 | A clock tick applies the corrected tick to the session's state. |
| RootCommand.Session.Save | cmd/root.go:119-130 | The save record holds the current timer and the durations converted to minutes. |

## Findings

| source | as written | input that shows it | evidently intended | confidence | as-written member | corrected member |
|---|---|---|---|---|---|---|
| cmd/timer/timer.go:45-50 | `tick` has a value receiver. It decrements that copy, and on expiry it drops the result of `nextTimer()`, so the caller's state never changes (same at lines 82-87 and 127-132). | `Focus(Timer(0, 1500, 1))` still has 1500 ticks left after a tick | each tick lowers the time left by one, and when it reaches zero the state becomes the next interval, paused | high (not executed) | PomodoroTimer.TickLosesDecrement | PomodoroTimer.TickIntendedExpires |

`Session.Tick`, the clock event of the model, uses the corrected
`TickIntended`. The as-written `Tick` is kept to show the discrepancy.

## Left out

- Raw terminal mode, cursor and screen escape sequences, and the help text (`cmd/root.go:54`, `66-75`, `110-115`): these are terminal I/O.
- The goroutine, channel, ticker and `select` loop, and the quit handshake (`cmd/root.go:104-160`): these are concurrency and timing. The two events the loop handles are `Session.HandleUserInput` and `Session.Tick`. The save it makes on 'q' is `Session.Save`.
- Reading `./data.json` and JSON encoding, decoding and writing (`cmd/root.go:85-94`, `127-134`): these are file I/O and a foreign library. A file that cannot be read or decoded is `None`.
- The cobra command and its flags (`cmd/root.go:19-31`, `164-174`): these are a library wrapper.
- `SetTimerDuration` (called at `cmd/root.go:99-101`), `GetTimerDurations`, `GetFormattedTimeString`, `TSPool`, `TICKS_PER_MINUTE` and `DEFAULT_FOCUS_TIMER_DURATION` are not part of this model, because they are not defined in cmd/timer/timer.go or cmd/root.go. A session's duration table stays as it was created, and loading a save file does not change it.
- NextTimer: the pomodoro count is an unbounded integer. Go's 64-bit `int` would wrap past 2^63-1 in `PomodoroCount + 1`, a count no session reaches.
- SkipCurrentTimer: has the same unbounded count as NextTimer.
