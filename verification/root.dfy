/** The command layer of cmd/root.go: the keystroke dispatch, the default
    timer and state, the rule for adopting a saved timer, and the
    conversion of tick durations into the minutes of the save record.

    The source keeps the timer and its state kind in two local variables
    that `handleUserInput` updates through pointers; here they are the one
    `TimerState` value held by a `Session`, and the transitions are those
    of `PomodoroTimer`. */
module RootCommand {

  import opened Wrappers
  import opened PomodoroTimer

  /** One byte read from the terminal. */
  type byte = b: int | 0 <= b < 256

  const KeyS: byte := 's' as int
  const KeyR: byte := 'r' as int
  const KeyF: byte := 'f' as int
  const KeyQ: byte := 'q' as int

  /** The command numbers of the source's `iota` block. */
  const LowercaseS := 0
  const LowercaseR := 1
  const LowercaseF := 2
  const LowercaseQ := 3

  /** The keys the program recognises and the command each stands for. */
  const ValidInputKeys: map<byte, int> :=
    map[KeyS := LowercaseS, KeyR := LowercaseR, KeyF := LowercaseF, KeyQ := LowercaseQ]

  /** `handleUserInput`: look the byte up among the valid keys and apply
      the transition its command names. 's' pauses or resumes, 'f' skips
      and 'r' resets; 'q' is recognised but applies nothing here (quitting
      is handled by the loop), and every other byte is ignored. */
  function Dispatch(s: TimerState, d: Durations, input: byte): (r: TimerState)
    ensures input == KeyS ==> r == Pause(s)
    ensures input == KeyF ==> r == SkipCurrentTimer(s, d)
    ensures input == KeyR ==> r == ResetCurrentTimer(s, d)
    ensures input != KeyS && input != KeyF && input != KeyR ==> r == s
    ensures WellFormed(s) ==> WellFormed(r)
  {
    if input !in ValidInputKeys then s
    else
      var inputKey := ValidInputKeys[input];
      if inputKey == LowercaseS then Pause(s)
      else if inputKey == LowercaseF then SkipCurrentTimer(s, d)
      else if inputKey == LowercaseR then ResetCurrentTimer(s, d)
      else s
  }

  /** 'q' is one of the valid keys, yet dispatching it leaves the state alone. */
  lemma QuitKeyIsValidButInert(s: TimerState, d: Durations)
    ensures KeyQ in ValidInputKeys && Dispatch(s, d, KeyQ) == s
  {
  }

  /** Pressing 's' twice gives back a well-formed state. */
  lemma PauseKeyTwice(s: TimerState, d: Durations)
    requires WellFormed(s)
    ensures Dispatch(Dispatch(s, d, KeyS), d, KeyS) == s
  {
  }

  /** The bytes of a session, dispatched one after another. */
  function RunKeys(s: TimerState, d: Durations, keys: seq<byte>): TimerState
    decreases |keys|
  {
    if keys == [] then s else RunKeys(Dispatch(s, d, keys[0]), d, keys[1..])
  }

  lemma {:induction false} RunKeysAppend(s: TimerState, d: Durations, a: seq<byte>, b: seq<byte>)
    ensures RunKeys(s, d, a + b) == RunKeys(RunKeys(s, d, a), d, b)
    decreases |a|
  {
    if a == [] {
      assert a + b == b;
    } else {
      assert (a + b)[0] == a[0] && (a + b)[1..] == a[1..] + b;
      RunKeysAppend(Dispatch(s, d, a[0]), d, a[1..], b);
    }
  }

  /** One pomodoro as a user drives it: start the focus interval, finish
      it with a skip, start the break, finish it with a skip. */
  const Round: seq<byte> := [KeyS, KeyF, KeyS, KeyF]

  function Repeat(keys: seq<byte>, n: nat): seq<byte> {
    if n == 0 then [] else Repeat(keys, n - 1) + keys
  }

  /** From a paused, fresh focus interval, "sf" ends in the break the cycle
      rule picks, with the count unchanged, and a whole round ends in the
      next fresh focus interval with the count one higher. */
  lemma FocusRound(t: Timer, d: Durations)
    requires t.timerType == FocusTimer
    ensures RunKeys(Paused(t), d, [KeyS, KeyF]) ==
              var kind := if t.pomodoroCount % 4 == 0 then LongBreakTimer else ShortBreakTimer;
              Paused(Timer(kind, Lookup(d, kind), t.pomodoroCount))
    ensures RunKeys(Paused(t), d, Round) ==
              Paused(Timer(FocusTimer, Lookup(d, FocusTimer), t.pomodoroCount + 1))
  {
    var sf: seq<byte> := [KeyS, KeyF];
    assert sf[1..] == [KeyF] && [KeyF][1..] == [];
    var running := Dispatch(Paused(t), d, KeyS);
    assert running == Focus(t);
    var onBreak := Dispatch(running, d, KeyF);
    assert RunKeys(Paused(t), d, sf) == RunKeys(onBreak, d, [KeyF][1..]) == onBreak;
    var runningBreak := Dispatch(onBreak, d, KeyS);
    assert runningBreak.Running() && runningBreak.timer.timerType != FocusTimer;
    assert RunKeys(onBreak, d, sf) == RunKeys(Dispatch(runningBreak, d, KeyF), d, [KeyF][1..]);
    assert Round == sf + sf;
    RunKeysAppend(Paused(t), d, sf, sf);
  }

  /** After `n` rounds from a paused focus timer the count has gone up by
      `n` (and, after at least one round, the focus interval is fresh), and
      the break that the next round takes is long exactly when the count is
      then a multiple of four. */
  lemma {:induction false} FocusRounds(t: Timer, d: Durations, n: nat)
    requires t.timerType == FocusTimer
    ensures RunKeys(Paused(t), d, Repeat(Round, n)) ==
              if n == 0 then Paused(t)
              else Paused(Timer(FocusTimer, Lookup(d, FocusTimer), t.pomodoroCount + n))
    ensures RunKeys(Paused(t), d, Repeat(Round, n) + [KeyS, KeyF]).timer.timerType ==
              if (t.pomodoroCount + n) % 4 == 0 then LongBreakTimer else ShortBreakTimer
  {
    if n > 0 {
      FocusRounds(t, d, n - 1);
      RunKeysAppend(Paused(t), d, Repeat(Round, n - 1), Round);
      var before := RunKeys(Paused(t), d, Repeat(Round, n - 1));
      FocusRound(before.timer, d);
    }
    var after := RunKeys(Paused(t), d, Repeat(Round, n));
    RunKeysAppend(Paused(t), d, Repeat(Round, n), [KeyS, KeyF]);
    FocusRound(after.timer, d);
  }

  /** `defaultTimer` wrapped in `defaultTimerState`: the program starts
      paused, on a focus interval at the default focus duration, with the
      pomodoro count at one. */
  function DefaultTimerState(focusDuration: int): (r: TimerState)
    ensures r.Paused? && r.timer.timerType == FocusTimer
    ensures r.timer.timeRemaining == focusDuration && r.timer.pomodoroCount == 1
  {
    Paused(Timer(FocusTimer, focusDuration, 1))
  }

  /** Starting from the defaults, whatever the default focus duration, the
      first three rounds take short breaks and the fourth a long one. */
  lemma FourthRoundTakesLongBreak(d: Durations, focusDuration: int)
    ensures forall n: nat :: n < 3 ==>
              RunKeys(DefaultTimerState(focusDuration), d, Repeat(Round, n) + [KeyS, KeyF]).timer.timerType
                == ShortBreakTimer
    ensures RunKeys(DefaultTimerState(focusDuration), d, Repeat(Round, 3) + [KeyS, KeyF]).timer.timerType
              == LongBreakTimer
  {
    forall n: nat | n < 3
      ensures RunKeys(DefaultTimerState(focusDuration), d, Repeat(Round, n) + [KeyS, KeyF]).timer.timerType
                == ShortBreakTimer
    {
      FocusRounds(DefaultTimerState(focusDuration).timer, d, n);
    }
    FocusRounds(DefaultTimerState(focusDuration).timer, d, 3);
  }

  /** The zero `Timer`, which marks a save file without a usable timer. */
  const NilTimer := Timer(0, 0, 0)

  /** Minutes per interval kind, as written to the save file. */
  datatype SavedDurations = SavedDurations(focus: int, shortBreak: int, longBreak: int)

  /** The save record: the current timer and the durations in minutes. */
  datatype TimerSave = TimerSave(timer: Timer, durations: SavedDurations)

  /** The state after startup has read the save file (`None` when the file
      could not be read or decoded): a saved timer other than the zero one
      replaces the timer and the state becomes paused; otherwise the state
      is left as it was. */
  function LoadedState(current: TimerState, save: Option<TimerSave>): (r: TimerState)
    ensures save.Some? && save.value.timer != NilTimer ==> r == Paused(save.value.timer)
    ensures r != current ==> save.Some? && save.value.timer != NilTimer
  {
    if save.Some? && save.value.timer != NilTimer then Paused(save.value.timer) else current
  }

  /** Go's integer division, which truncates toward zero. */
  function GoQuotient(a: int, b: int): (q: int)
    requires b > 0
    ensures a >= 0 ==> q * b <= a < q * b + b
    ensures a <= 0 ==> q * b - b < a <= q * b
  {
    if a >= 0 then a / b else -((-a) / b)
  }

  /** The minute values of the save record: each kind's duration in ticks
      divided by the ticks per minute, rounded toward zero. */
  function SaveDurations(d: Durations, ticksPerMinute: int): (r: SavedDurations)
    requires ticksPerMinute > 0
    ensures Lookup(d, FocusTimer) >= 0 ==>
              r.focus * ticksPerMinute <= Lookup(d, FocusTimer) < (r.focus + 1) * ticksPerMinute
    ensures Lookup(d, ShortBreakTimer) >= 0 ==>
              r.shortBreak * ticksPerMinute <= Lookup(d, ShortBreakTimer) < (r.shortBreak + 1) * ticksPerMinute
    ensures Lookup(d, LongBreakTimer) >= 0 ==>
              r.longBreak * ticksPerMinute <= Lookup(d, LongBreakTimer) < (r.longBreak + 1) * ticksPerMinute
  {
    SavedDurations(
      GoQuotient(Lookup(d, FocusTimer), ticksPerMinute),
      GoQuotient(Lookup(d, ShortBreakTimer), ticksPerMinute),
      GoQuotient(Lookup(d, LongBreakTimer), ticksPerMinute))
  }

  lemma MulAtLeast(x: int, b: int)
    requires b > 0 && x >= 1
    ensures x * b >= b
  {
    assert x * b == b + (x - 1) * b;
  }

  lemma MulAtMost(x: int, b: int)
    requires b > 0 && x <= -1
    ensures x * b <= -b
  {
    assert x * b == -b + (x + 1) * b;
  }

  /** Dafny's division of a non-negative multiple of `b` by `b` gives back the factor. */
  lemma DivOfMultiple(k: nat, b: int)
    requires b > 0
    ensures (k * b) / b == k
  {
    var q, r := (k * b) / b, (k * b) % b;
    assert (k - q) * b == r;
    if k - q >= 1 {
      MulAtLeast(k - q, b);
    }
    if k - q <= -1 {
      MulAtMost(k - q, b);
    }
  }

  /** Dividing a multiple of `b` by `b` gives back the factor, whatever its sign. */
  lemma QuotientOfMultiple(m: int, b: int)
    requires b > 0
    ensures GoQuotient(m * b, b) == m
  {
    if m >= 0 {
      DivOfMultiple(m, b);
    } else {
      assert -(m * b) == (-m) * b;
      DivOfMultiple(-m, b);
    }
  }

  /** Durations that are whole minutes are saved as exactly those minutes. */
  lemma SaveDurationsRoundTrip(d: Durations, ticksPerMinute: int, focus: int, shortBreak: int, longBreak: int)
    requires ticksPerMinute > 0
    requires Lookup(d, FocusTimer) == focus * ticksPerMinute
    requires Lookup(d, ShortBreakTimer) == shortBreak * ticksPerMinute
    requires Lookup(d, LongBreakTimer) == longBreak * ticksPerMinute
    ensures SaveDurations(d, ticksPerMinute) == SavedDurations(focus, shortBreak, longBreak)
  {
    QuotientOfMultiple(focus, ticksPerMinute);
    QuotientOfMultiple(shortBreak, ticksPerMinute);
    QuotientOfMultiple(longBreak, ticksPerMinute);
  }

  /** Saving and loading again leaves the saved timer in place exactly when
      the saved timer is not the zero one or the current timer already is;
      when the saved timer is not the zero one, the loaded state is also
      paused. */
  lemma LoadAfterSave(current: TimerState, s: TimerState, d: Durations, ticksPerMinute: int)
    requires ticksPerMinute > 0
    ensures var loaded := LoadedState(current, Some(TimerSave(s.timer, SaveDurations(d, ticksPerMinute))));
            loaded.timer == s.timer <==> s.timer != NilTimer || current.timer == NilTimer
    ensures s.timer != NilTimer ==>
              LoadedState(current, Some(TimerSave(s.timer, SaveDurations(d, ticksPerMinute)))) == Paused(s.timer)
  {
  }

  /** The timer and state variables of the running program, with the
      duration table they are read against. */
  class Session {
    var state: TimerState
    const durations: Durations

    /** Start from `defaultTimer` and `defaultTimerState`. */
    constructor (focusDuration: int, durations: Durations)
      ensures state == DefaultTimerState(focusDuration) && this.durations == durations
      ensures state.Paused? && state.timer.timerType == FocusTimer
      ensures state.timer.timeRemaining == focusDuration && state.timer.pomodoroCount == 1
    {
      state := DefaultTimerState(focusDuration);
      this.durations := durations;
    }

    /** Adopt what the save file holds, if it holds a usable timer. */
    method Load(save: Option<TimerSave>)
      modifies this
      ensures state == LoadedState(old(state), save)
    {
      state := LoadedState(state, save);
    }

    /** `handleUserInput`, applied to the session's own state. */
    method HandleUserInput(input: byte)
      modifies this
      ensures state == Dispatch(old(state), durations, input)
      ensures WellFormed(old(state)) ==> WellFormed(state)
    {
      state := Dispatch(state, durations, input);
    }

    /** A clock tick, applied through the state as its authors meant it. */
    method Tick()
      modifies this
      ensures state == TickIntended(old(state), durations)
    {
      state := TickIntended(state, durations);
    }

    /** The record written when the user quits. */
    method Save(ticksPerMinute: int) returns (record: TimerSave)
      requires ticksPerMinute > 0
      ensures record.timer == state.timer
      ensures record.durations == SaveDurations(durations, ticksPerMinute)
    {
      record := TimerSave(state.timer, SaveDurations(durations, ticksPerMinute));
    }
  }
}
