/** `useStretchTimer`: a one-second countdown over the duration of a chosen
    stretch, and `formatTime`, which prints seconds as `m:ss`. */
module StretchTimer {
  import opened Wrappers
  import opened Text

  /** A stretch of the exercise catalogue; only its duration, in seconds,
      matters to the timer. */
  datatype Stretch = Stretch(name: string, duration: nat)

  /** The countdown. `running` stands for the one-second interval being
      scheduled; `onComplete` is an output of `Tick`. */
  class Countdown {
    var isActive: bool
    var timer: int
    var stretch: Option<Stretch>
    var running: bool

    /** The countdown never goes below zero. */
    ghost predicate Valid()
      reads this
    {
      timer >= 0
    }

    constructor ()
      ensures Valid()
      ensures !isActive && timer == 0 && stretch.None? && !running
    {
      isActive := false;
      timer := 0;
      stretch := None;
      running := false;
    }

    /** `start`: selects the stretch and sets the countdown to its duration,
        without starting it. */
    method Start(s: Stretch)
      requires Valid()
      modifies this
      ensures Valid()
      ensures stretch == Some(s) && timer == s.duration && !isActive
      ensures running == old(running)
    {
      stretch := Some(s);
      timer := s.duration;
      isActive := false;
    }

    /** `play`: marks the countdown active and schedules the interval. */
    method Play()
      requires Valid()
      modifies this
      ensures Valid()
      ensures isActive && running
      ensures timer == old(timer) && stretch == old(stretch)
    {
      isActive := true;
      running := true;
    }

    /** One firing of the interval: one second less while time is left;
        at zero the interval stops, the countdown is no longer active and
        `onComplete` fires with the stretch (`completed`). */
    method Tick() returns (completed: bool)
      requires Valid() && running
      modifies this
      ensures Valid()
      ensures (timer, completed) == TickStep(old(timer))
      ensures completed ==> !isActive && !running
      ensures !completed ==> isActive == old(isActive) && running
      ensures stretch == old(stretch)
    {
      if timer > 0 {
        timer := timer - 1;
        completed := false;
      } else {
        running := false;
        isActive := false;
        completed := true;
      }
    }

    /** `pause`: stops the interval and keeps the time left. */
    method Pause()
      requires Valid()
      modifies this
      ensures Valid()
      ensures !isActive && !running
      ensures timer == old(timer) && stretch == old(stretch)
    {
      isActive := false;
      running := false;
    }

    /** `reset`: stops the interval and, when a stretch is selected, puts
        back its full duration. */
    method Reset()
      requires Valid()
      modifies this
      ensures Valid()
      ensures !isActive && !running
      ensures timer == if old(stretch).Some? then old(stretch).value.duration else old(timer)
      ensures stretch == old(stretch)
    {
      isActive := false;
      running := false;
      if stretch.Some? {
        timer := stretch.value.duration;
      }
    }
  }

  /** One tick on the time left: a second less, or completion at zero. */
  function TickStep(timer: int): (r: (int, bool))
    requires timer >= 0
    ensures r.0 >= 0
    ensures r.1 <==> timer == 0
    ensures !r.1 ==> r.0 == timer - 1
  {
    if timer > 0 then (timer - 1, false) else (timer, true)
  }

  /** The time left after `k` ticks from `timer`, or None once a tick has
      completed the countdown. */
  function AfterTicks(timer: nat, k: nat): Option<nat> {
    if k == 0 then Some(timer)
    else match AfterTicks(timer, k - 1)
      case None => None
      case Some(t) =>
        var (next, done) := TickStep(t);
        if done then None else Some(next as nat)
  }

  /** A countdown started at `d` seconds counts down one second per tick
      and completes on tick `d + 1`, not earlier. */
  lemma {:induction false} CountdownLength(d: nat, k: nat)
    ensures k <= d ==> AfterTicks(d, k) == Some(d - k)
    ensures k > d ==> AfterTicks(d, k).None?
  {
    if k > 0 {
      CountdownLength(d, k - 1);
    }
  }

  // ---------------------------------------------------------------------
  // formatTime

  /** `formatTime(s)` for a non-negative number of seconds: the whole
      minutes, a colon, and the remaining seconds padded to two digits. */
  function FormatTime(s: nat): string {
    NatToString(s / 60) + ":" + PadStart2(NatToString(s % 60))
  }

  /** The printed time splits at its third-last character into minutes and
      two-digit seconds below 60, from which the number of seconds is
      recovered. */
  lemma FormatTimeRecovers(s: nat)
    ensures var r := FormatTime(s);
      |r| >= 4 && r[|r| - 3] == ':'
      && AllDigits(r[..|r| - 3]) && AllDigits(r[|r| - 2..])
      && DigitsValue(r[|r| - 2..]) < 60
      && DigitsValue(r[..|r| - 3]) * 60 + DigitsValue(r[|r| - 2..]) == s
  {
    var m := NatToString(s / 60);
    var p := PadStart2(NatToString(s % 60));
    var r := FormatTime(s);
    PaddedValue(s % 60);
    NatToStringRoundTrip(s / 60);
    assert r == m + ":" + p;
    assert r[..|r| - 3] == m;
    assert r[|r| - 2..] == p;
  }
}
