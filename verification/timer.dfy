/** The pomodoro timer state machine of cmd/timer/timer.go.

    A `Timer` is the record of counters; a `TimerState` wraps it in one of
    the four state kinds of the source (three running kinds and Paused).
    Every transition of the source has a value receiver. All but `tick`
    return a new state and become functions here; `tick` returns nothing
    and changes only its own copy, so its function gives the caller's
    state back unchanged. The package-level duration map
    is passed in explicitly as a `Durations` table. */
module PomodoroTimer {

  /** Interval kinds, numbered as the source's `iota` constants. */
  const FocusTimer: int := 0
  const ShortBreakTimer: int := 1
  const LongBreakTimer: int := 2

  predicate IsKnownKind(k: int) {
    k == FocusTimer || k == ShortBreakTimer || k == LongBreakTimer
  }

  /** Durations in ticks, indexed by interval kind. */
  type Durations = map<int, int>

  /** The table the source starts with: 25, 5 and 15 minutes of one-second ticks. */
  function DefaultDurations(): (d: Durations)
    ensures d.Keys == {FocusTimer, ShortBreakTimer, LongBreakTimer}
    ensures forall k :: k in d ==> d[k] > 0 && d[k] % 60 == 0
    ensures d[ShortBreakTimer] < d[LongBreakTimer] < d[FocusTimer]
  {
    map[FocusTimer := 25 * 60, ShortBreakTimer := 5 * 60, LongBreakTimer := 15 * 60]
  }

  /** Indexing a Go map: a missing key reads as the zero value. */
  function Lookup(d: Durations, k: int): int {
    if k in d then d[k] else 0
  }

  /** The counters of the current interval. `timerType` is a plain integer,
      as in the source, so it may hold a value that names no kind. */
  datatype Timer = Timer(timerType: int, timeRemaining: int, pomodoroCount: int)

  /** The four state kinds; each embeds the timer it acts on. */
  datatype TimerState =
    | Focus(timer: Timer)
    | ShortBreak(timer: Timer)
    | LongBreak(timer: Timer)
    | Paused(timer: Timer)
  {
    predicate Running() {
      !Paused?
    }
  }

  /** A state whose timer names a known kind and, when running, the kind it runs as. */
  predicate WellFormed(s: TimerState) {
    && IsKnownKind(s.timer.timerType)
    && (s.Focus? ==> s.timer.timerType == FocusTimer)
    && (s.ShortBreak? ==> s.timer.timerType == ShortBreakTimer)
    && (s.LongBreak? ==> s.timer.timerType == LongBreakTimer)
  }

  /** The cycle rule: after a focus interval comes a long break when the
      pomodoro count is a multiple of four and a short break otherwise;
      after anything else comes a focus interval. The duration is the
      table's entry for the chosen kind. (Go's `%` truncates where Dafny's
      is Euclidean, but the two agree on whether the remainder is zero.) */
  function NextTimerType(t: Timer, d: Durations): (r: (int, int))
    ensures IsKnownKind(r.0)
    ensures r.1 == Lookup(d, r.0)
    ensures r.0 == FocusTimer <==> t.timerType != FocusTimer
    ensures r.0 == LongBreakTimer <==> t.timerType == FocusTimer && t.pomodoroCount % 4 == 0
    ensures r.0 == ShortBreakTimer <==> t.timerType == FocusTimer && t.pomodoroCount % 4 != 0
  {
    if t.timerType == FocusTimer && t.pomodoroCount % 4 == 0 then
      (LongBreakTimer, Lookup(d, LongBreakTimer))
    else if t.timerType == FocusTimer then
      (ShortBreakTimer, Lookup(d, ShortBreakTimer))
    else
      (FocusTimer, Lookup(d, FocusTimer))
  }

  /** `nextTimer` of each state kind: a paused state at the start of the
      next interval. Only the running Focus kind keeps the pomodoro count;
      the break kinds and Paused (whatever its timer's type) add one. */
  function NextTimer(s: TimerState, d: Durations): (r: TimerState)
    ensures r.Paused? && WellFormed(r)
    ensures r.timer.timerType == NextTimerType(s.timer, d).0
    ensures r.timer.timeRemaining == Lookup(d, r.timer.timerType)
    ensures r.timer.pomodoroCount == if s.Focus? then s.timer.pomodoroCount else s.timer.pomodoroCount + 1
  {
    var (timerType, timerDuration) := NextTimerType(s.timer, d);
    match s
    case Focus(t) => Paused(Timer(timerType, timerDuration, t.pomodoroCount))
    case ShortBreak(t) => Paused(Timer(timerType, timerDuration, t.pomodoroCount + 1))
    case LongBreak(t) => Paused(Timer(timerType, timerDuration, t.pomodoroCount + 1))
    case Paused(t) => Paused(Timer(timerType, timerDuration, t.pomodoroCount + 1))
  }

  /** `pause` of each state kind: a running kind stops with its timer
      untouched; Paused resumes as the running kind its timer's type names,
      and as Focus when the type names no kind. */
  function Pause(s: TimerState): (r: TimerState)
    ensures r.timer == s.timer
    ensures r.Paused? <==> s.Running()
    ensures s.Paused? ==> (r.ShortBreak? <==> s.timer.timerType == ShortBreakTimer)
    ensures s.Paused? ==> (r.LongBreak? <==> s.timer.timerType == LongBreakTimer)
    ensures WellFormed(s) ==> WellFormed(r)
  {
    match s
    case Focus(t) => Paused(t)
    case ShortBreak(t) => Paused(t)
    case LongBreak(t) => Paused(t)
    case Paused(t) =>
      if t.timerType == FocusTimer then Focus(t)
      else if t.timerType == ShortBreakTimer then ShortBreak(t)
      else if t.timerType == LongBreakTimer then LongBreak(t)
      else Focus(t)
  }

  /** `skipCurrentTimer` of each state kind. Focus and Paused delegate to
      `nextTimer`; the two break kinds spell the same computation out again. */
  function SkipCurrentTimer(s: TimerState, d: Durations): (r: TimerState)
    ensures r == NextTimer(s, d)
  {
    match s
    case Focus(_) => NextTimer(s, d)
    case ShortBreak(t) =>
      var (timerType, timerDuration) := NextTimerType(t, d);
      Paused(Timer(timerType, timerDuration, t.pomodoroCount + 1))
    case LongBreak(t) =>
      var (timerType, timerDuration) := NextTimerType(t, d);
      Paused(Timer(timerType, timerDuration, t.pomodoroCount + 1))
    case Paused(_) => NextTimer(s, d)
  }

  /** `Timer.resetCurrentTimer`, the reset that Focus inherits by embedding:
      a paused state with the same type and count and the table's full
      duration for that type (zero when the type is not in the table). */
  function ResetTimer(t: Timer, d: Durations): (r: TimerState)
    ensures r.Paused?
    ensures r.timer.timerType == t.timerType && r.timer.pomodoroCount == t.pomodoroCount
    ensures t.timerType in d ==> r.timer.timeRemaining == d[t.timerType]
    ensures t.timerType !in d ==> r.timer.timeRemaining == 0
  {
    Paused(Timer(t.timerType, Lookup(d, t.timerType), t.pomodoroCount))
  }

  /** `resetCurrentTimer` of each state kind: whatever the kind, the result
      is the embedded timer's reset. */
  function ResetCurrentTimer(s: TimerState, d: Durations): (r: TimerState)
    ensures r == ResetTimer(s.timer, d)
    ensures WellFormed(s) ==> WellFormed(r)
  {
    match s
    case Focus(t) => ResetTimer(t, d)
    case ShortBreak(t) => Paused(Timer(t.timerType, Lookup(d, t.timerType), t.pomodoroCount))
    case LongBreak(t) => Paused(Timer(t.timerType, Lookup(d, t.timerType), t.pomodoroCount))
    case Paused(t) => Paused(Timer(t.timerType, Lookup(d, t.timerType), t.pomodoroCount))
  }

  /** `tick` as the source writes it. A running kind decrements its
      receiver, which is a copy, and on expiry computes `nextTimer` and
      drops the result; Paused does nothing. Either way the caller's state
      is what it was. */
  function Tick(s: TimerState, d: Durations): (r: TimerState)
    ensures r == s
  {
    s
  }

  /** `tick` as its authors evidently meant it: the decrement is kept, and
      when the interval runs out the state becomes the next interval,
      paused. */
  function TickIntended(s: TimerState, d: Durations): (r: TimerState)
    ensures s.Paused? ==> r == s
    ensures s.Running() && s.timer.timeRemaining > 1 ==>
              r == s.(timer := s.timer.(timeRemaining := s.timer.timeRemaining - 1))
    ensures s.Running() && s.timer.timeRemaining <= 1 ==> r == NextTimer(s, d)
  {
    match s
    case Paused(_) => s
    case _ =>
      var local := s.timer.(timeRemaining := s.timer.timeRemaining - 1);
      if local.timeRemaining <= 0 then NextTimer(s.(timer := local), d) else s.(timer := local)
  }

  /** `n` clock ticks in a row. */
  ghost function TickIntendedN(s: TimerState, d: Durations, n: nat): TimerState {
    if n == 0 then s else TickIntended(TickIntendedN(s, d, n - 1), d)
  }

  /** The source's tick loses its decrement: a focus interval with 1500
      ticks to go still has 1500 after a tick, where the intended tick
      leaves 1499. */
  lemma TickLosesDecrement()
    ensures var s := Focus(Timer(FocusTimer, 1500, 1));
            Tick(s, DefaultDurations()).timer.timeRemaining == 1500 &&
            TickIntended(s, DefaultDurations()).timer.timeRemaining == 1499
  {
  }

  /** Fewer ticks than the interval has left count the interval down and
      keep its kind, type and pomodoro count. */
  lemma {:induction false} TickIntendedCountsDown(s: TimerState, d: Durations, k: nat)
    requires s.Running() && k < s.timer.timeRemaining
    ensures TickIntendedN(s, d, k) == s.(timer := s.timer.(timeRemaining := s.timer.timeRemaining - k))
  {
    if k > 0 {
      TickIntendedCountsDown(s, d, k - 1);
    }
  }

  /** Exactly as many ticks as the interval has left end it: the state is
      then the next interval, paused, as `nextTimer` gives it. */
  lemma {:induction false} TickIntendedExpires(s: TimerState, d: Durations)
    requires s.Running() && s.timer.timeRemaining >= 1
    ensures TickIntendedN(s, d, s.timer.timeRemaining) == NextTimer(s, d)
  {
    var n := s.timer.timeRemaining;
    TickIntendedCountsDown(s, d, n - 1);
    var last := TickIntendedN(s, d, n - 1);
    assert last.timer.timeRemaining == 1;
    assert TickIntended(last, d) == NextTimer(last, d);
  }

  /** Pausing twice gives back the same state exactly when the state is
      paused, or runs as the kind that Paused would resume its timer into. */
  lemma PauseTwice(s: TimerState)
    ensures Pause(Pause(s)) == s <==>
              s.Paused? ||
              ((s.ShortBreak? <==> s.timer.timerType == ShortBreakTimer) &&
               (s.LongBreak? <==> s.timer.timerType == LongBreakTimer))
    ensures WellFormed(s) ==> Pause(Pause(s)) == s
  {
  }

  /** Reset forgets the state kind and the time left, and a second reset
      changes nothing. */
  lemma ResetOnlyReadsTypeAndCount(s1: TimerState, s2: TimerState, d: Durations)
    requires s1.timer.timerType == s2.timer.timerType
    requires s1.timer.pomodoroCount == s2.timer.pomodoroCount
    ensures ResetCurrentTimer(s1, d) == ResetCurrentTimer(s2, d)
    ensures ResetCurrentTimer(ResetCurrentTimer(s1, d), d) == ResetCurrentTimer(s1, d)
  {
  }

  /** Skipping a focus interval leads to the same break whether it runs or
      is paused, but only the paused skip adds one to the pomodoro count. */
  lemma SkipFocusCountsOnlyWhenPaused(t: Timer, d: Durations)
    requires t.timerType == FocusTimer
    ensures SkipCurrentTimer(Focus(t), d).timer.timerType == SkipCurrentTimer(Paused(t), d).timer.timerType
    ensures SkipCurrentTimer(Focus(t), d).timer.pomodoroCount == t.pomodoroCount
    ensures SkipCurrentTimer(Paused(t), d).timer.pomodoroCount == t.pomodoroCount + 1
  {
  }
}
