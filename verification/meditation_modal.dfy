/**
 * The meditation countdown: a minute picker, a running flag and the seconds left,
 * driven by start, stop and a once-per-second tick.
 */
module Meditation {
  import opened Wrappers
  import opened Decimal

  datatype TimerState = TimerState(isTimerRunning: bool, remainingTime: int, showTimePicker: bool)

  /** Idle with the picker shown: the initial state, and where stop and a finished countdown land. */
  const IDLE := TimerState(false, 0, true)

  const DEFAULT_MINUTES: nat := 5

  /** What the number-pad text field with a length limit of 3 can hold. */
  predicate IsMinuteInput(s: string) {
    IsDigits(s) && |s| <= 3
  }

  /** `parseInt(selected) || 5`: an empty field (NaN) or zero falls back to five minutes. */
  function SessionMinutes(selected: string): (m: nat)
    requires IsMinuteInput(selected)
    ensures 1 <= m <= 999
    ensures DigitsValue(selected) > 0 ==> m == DigitsValue(selected)
    ensures DigitsValue(selected) == 0 ==> m == DEFAULT_MINUTES
  {
    assert DigitsValue(selected) < 1000 by {
      DigitsValueBound(selected);
      assert Pow10(|selected|) <= Pow10(3) == 1000;
    }
    match ParseInt(selected)
    case None => DEFAULT_MINUTES
    case Some(v) => if v == 0 then DEFAULT_MINUTES else v
  }

  function Start(s: TimerState, selected: string): (r: TimerState)
    requires IsMinuteInput(selected)
    ensures r.isTimerRunning && !r.showTimePicker
    ensures 60 <= r.remainingTime <= 999 * 60
  {
    TimerState(true, SessionMinutes(selected) * 60, false)
  }

  function Stop(s: TimerState): (r: TimerState)
    ensures !r.isTimerRunning && r.showTimePicker && r.remainingTime == 0
    ensures Tick(r) == r
  {
    IDLE
  }

  /**
   * The functional update run every second: the seconds count down and saturate at zero;
   * the moment they reach zero the timer stops and the picker comes back.
   */
  function Tick(s: TimerState): (r: TimerState)
    ensures r.remainingTime >= 0
    ensures s.remainingTime > 0 ==> r.remainingTime == s.remainingTime - 1
    ensures r.isTimerRunning == (s.isTimerRunning && r.remainingTime > 0)
    ensures r.showTimePicker == (s.showTimePicker || r.remainingTime == 0)
    ensures s.remainingTime <= 1 ==> r == IDLE
  {
    if s.remainingTime <= 1 then
      TimerState(false, 0, true)
    else
      s.(remainingTime := s.remainingTime - 1)
  }

  /** The state after `k` ticks. */
  function Ticks(s: TimerState, k: nat): TimerState {
    if k == 0 then s else Tick(Ticks(s, k - 1))
  }

  /**
   * From `n > 0` seconds, every tick before the n-th only counts down and the n-th lands
   * in the idle state: the countdown takes exactly `n` ticks.
   */
  lemma {:induction false} Countdown(s: TimerState, k: nat)
    requires s.remainingTime > 0 && k <= s.remainingTime
    ensures k < s.remainingTime ==> Ticks(s, k) == s.(remainingTime := s.remainingTime - k)
    ensures k == s.remainingTime ==> Ticks(s, k) == IDLE
  {
    if k > 0 {
      Countdown(s, k - 1);
    }
  }

  /** Once idle, further ticks change nothing, so the seconds never go negative. */
  lemma {:induction false} IdleIsStable(k: nat)
    ensures Ticks(IDLE, k) == IDLE
  {
    if k > 0 {
      IdleIsStable(k - 1);
    }
  }

  /** Every state reached by ticking has a non-negative number of seconds. */
  lemma {:induction false} NeverNegative(s: TimerState, k: nat)
    requires s.remainingTime >= 0
    ensures Ticks(s, k).remainingTime >= 0
  {
    if k > 0 {
      NeverNegative(s, k - 1);
    }
  }

  /** A started session shows the countdown and ends after exactly `minutes * 60` ticks. */
  lemma SessionLength(s: TimerState, selected: string)
    requires IsMinuteInput(selected)
    ensures Start(s, selected).isTimerRunning && !Start(s, selected).showTimePicker
    ensures Start(s, selected).remainingTime == SessionMinutes(selected) * 60
    ensures Ticks(Start(s, selected), SessionMinutes(selected) * 60) == IDLE
  {
    Countdown(Start(s, selected), SessionMinutes(selected) * 60);
  }

  /** Stopping is the same from any state, and is idempotent. */
  lemma StopForgetsState(s: TimerState, t: TimerState)
    ensures Stop(s) == Stop(t) == Stop(Stop(s)) == IDLE
  {
  }

  /** `timeInSeconds % 60` in JavaScript: the remainder takes the sign of the dividend. */
  function JsRemainder(a: int, b: int): (r: int)
    requires b > 0
    ensures -b < r < b
    ensures a == (if a >= 0 then a / b else -((-a) / b)) * b + r
  {
    if a >= 0 then a % b else -((-a) % b)
  }

  /** Minutes by `Math.floor(t / 60)` (Dafny's `/` floors for a positive divisor), seconds by `%`. */
  function FormatTime(timeInSeconds: int): (r: string)
    ensures timeInSeconds >= 0 ==>
      r == NatToString(timeInSeconds / 60) + "min " + NatToString(timeInSeconds % 60) + "s"
  {
    IntToString(timeInSeconds / 60) + "min " + IntToString(JsRemainder(timeInSeconds, 60)) + "s"
  }

  /** Reads a `"<m>min <s>s"` text back as a number of seconds. */
  function ReadTime(text: string): Option<nat> {
    var first := SplitDigits(text);
    if first.0 == [] || |first.1| < 4 || first.1[..4] != "min " then None
    else
      var second := SplitDigits(first.1[4..]);
      if second.0 == [] || second.1 != "s" then None
      else Some(DigitsValue(first.0) * 60 + DigitsValue(second.0))
  }

  /**
   * For non-negative times the display is whole minutes and the seconds below 60 that remain,
   * the seconds printed with one digit below 10 and two from 10 on: there is no zero padding.
   */
  lemma FormatTimeParts(t: int)
    requires t >= 0
    ensures 0 <= t % 60 < 60 && (t / 60) * 60 + t % 60 == t
    ensures |FormatTime(t)| == |NatToString(t / 60)| + |NatToString(t % 60)| + 5
    ensures t % 60 < 10 ==> |NatToString(t % 60)| == 1
    ensures t % 60 >= 10 ==> |NatToString(t % 60)| == 2
  {
  }

  lemma ReadTimeFromSplits(text: string, m: string, rest: string, sec: string)
    requires IsDigits(m) && IsDigits(sec) && m != [] && sec != []
    requires SplitDigits(text) == (m, rest)
    requires |rest| >= 4 && rest[..4] == "min "
    requires SplitDigits(rest[4..]) == (sec, "s")
    ensures ReadTime(text) == Some(DigitsValue(m) * 60 + DigitsValue(sec))
  {
  }

  lemma ReadTimeOfParts(m: string, sec: string, rest: string, text: string)
    requires IsDigits(m) && IsDigits(sec) && m != [] && sec != []
    requires rest == "min " + sec + "s" && text == m + rest
    ensures ReadTime(text) == Some(DigitsValue(m) * 60 + DigitsValue(sec))
  {
    assert SplitDigits(text) == (m, rest) by {
      SplitDigitsOfPrinted(m, rest);
    }
    assert |rest| >= 4 && rest[..4] == "min " && rest[4..] == sec + "s";
    assert SplitDigits(rest[4..]) == (sec, "s") by {
      SplitDigitsOfPrinted(sec, "s");
    }
    ReadTimeFromSplits(text, m, rest, sec);
  }

  /** The display loses nothing: reading it back gives the seconds it was made from. */
  lemma FormatTimeRoundTrip(t: int)
    requires t >= 0
    ensures ReadTime(FormatTime(t)) == Some(t)
  {
    var m, sec := NatToString(t / 60), NatToString(t % 60);
    var rest := "min " + sec + "s";
    assert FormatTime(t) == m + rest;
    ReadTimeOfParts(m, sec, rest, FormatTime(t));
    NatToStringRoundTrip(t / 60);
    NatToStringRoundTrip(t % 60);
  }

  /** The modal's state, updated in place by its handlers. */
  class MeditationModal {
    var isTimerRunning: bool
    var remainingTime: int
    var selectedMinutes: string
    var showTimePicker: bool

    ghost function State(): TimerState
      reads this
    {
      TimerState(isTimerRunning, remainingTime, showTimePicker)
    }

    ghost predicate Valid()
      reads this
    {
      IsMinuteInput(selectedMinutes) && remainingTime >= 0
    }

    constructor ()
      ensures Valid() && State() == IDLE && selectedMinutes == "5"
    {
      isTimerRunning := false;
      remainingTime := 0;
      selectedMinutes := "5";
      showTimePicker := true;
    }

    /** The text field's change handler. */
    method ChangeMinutes(text: string)
      requires Valid() && IsMinuteInput(text)
      modifies this
      ensures Valid() && selectedMinutes == text && State() == old(State())
    {
      selectedMinutes := text;
    }

    method StartMeditation()
      requires Valid()
      modifies this
      ensures Valid() && State() == Start(old(State()), selectedMinutes)
      ensures selectedMinutes == old(selectedMinutes)
    {
      var minutes := SessionMinutes(selectedMinutes);
      remainingTime := minutes * 60;
      isTimerRunning := true;
      showTimePicker := false;
    }

    method StopMeditation()
      requires Valid()
      modifies this
      ensures Valid() && State() == Stop(old(State()))
      ensures selectedMinutes == old(selectedMinutes)
    {
      isTimerRunning := false;
      showTimePicker := true;
      remainingTime := 0;
    }

    /** One firing of the interval. */
    method TickSecond()
      requires Valid()
      modifies this
      ensures Valid() && State() == Tick(old(State()))
      ensures selectedMinutes == old(selectedMinutes)
    {
      var prev := remainingTime;
      if prev <= 1 {
        isTimerRunning := false;
        showTimePicker := true;
        remainingTime := 0;
      } else {
        remainingTime := prev - 1;
      }
    }
  }
}
