/** `useHydration`: a daily count of cups of water against a fixed goal, with
    a reminder that can be switched on and off. */
module Hydration {

  const CupMl := 250
  const DailyGoalMl := 2500

  /** `Math.ceil(a / b)` for positive `b`. */
  function CeilDiv(a: nat, b: nat): (r: nat)
    requires b > 0
    ensures (r - 1) * b < a <= r * b || (a == 0 && r == 0)
  {
    (a + b - 1) / b
  }

  /** The goal in cups: the daily amount divided by a cup, rounded up. */
  const Goal: nat := CeilDiv(DailyGoalMl, CupMl)

  lemma GoalIsTenCups()
    ensures Goal == 10
  {
  }

  /** The counter. `reminderRunning` stands for the reminder's interval
      being scheduled; the reminder callback is an output of `ReminderTick`
      and the goal callback an output of `Add`. */
  class Tracker {
    const goal: nat
    var consumed: nat
    var reminderActive: bool
    var reminderRunning: bool

    /** Never beyond the goal; an interval is scheduled exactly while the
        reminder is switched on. */
    ghost predicate Valid()
      reads this
    {
      consumed <= goal && reminderRunning == reminderActive
    }

    constructor ()
      ensures Valid()
      ensures goal == Goal && consumed == 0 && !reminderActive && !reminderRunning
    {
      goal := Goal;
      consumed := 0;
      reminderActive := false;
      reminderRunning := false;
    }

    /** `add`: see `AddStep`; `goalReached` says whether `onGoalReached`
        fires. */
    method Add() returns (goalReached: bool)
      requires Valid()
      modifies this
      ensures Valid()
      ensures (consumed, goalReached) == AddStep(old(consumed), goal)
      ensures reminderActive == old(reminderActive) && reminderRunning == old(reminderRunning)
    {
      goalReached := false;
      if consumed >= goal {
        return;
      }
      consumed := consumed + 1;
      if consumed == goal {
        goalReached := true;
      }
    }

    /** `remove`: one cup fewer, never below zero. */
    method Remove()
      requires Valid()
      modifies this
      ensures Valid()
      ensures consumed == if old(consumed) > 0 then old(consumed) - 1 else 0
      ensures reminderActive == old(reminderActive) && reminderRunning == old(reminderRunning)
    {
      if consumed > 0 {
        consumed := consumed - 1;
      }
    }

    /** `toggleReminder`: flips the switch, then starts or stops the interval
        to match. */
    method ToggleReminder()
      requires Valid()
      modifies this
      ensures Valid()
      ensures reminderActive == !old(reminderActive)
      ensures consumed == old(consumed)
    {
      reminderActive := !reminderActive;
      if reminderActive {
        StartReminder();
      } else {
        StopReminder();
      }
    }

    /** `startReminder`: stops any scheduled interval, then schedules one. */
    method StartReminder()
      modifies this
      ensures reminderRunning
      ensures consumed == old(consumed) && reminderActive == old(reminderActive)
    {
      StopReminder();
      reminderRunning := true;
    }

    /** `stopReminder`, which also runs when the component is unmounted. */
    method StopReminder()
      modifies this
      ensures !reminderRunning
      ensures consumed == old(consumed) && reminderActive == old(reminderActive)
    {
      if reminderRunning {
        reminderRunning := false;
      }
    }

    /** One firing of the half-hourly reminder interval: `onReminder` is
        called while the goal is not reached. */
    method ReminderTick() returns (remind: bool)
      requires Valid() && reminderRunning
      ensures remind <==> consumed < goal
    {
      remind := consumed < goal;
    }
  }

  /** One `add`: the new count and whether the goal callback fires. Nothing
      happens once the goal is reached; otherwise one more cup, and the
      callback fires exactly when that cup reaches the goal. */
  function AddStep(consumed: nat, goal: nat): (r: (nat, bool))
    ensures consumed >= goal ==> r == (consumed, false)
    ensures consumed < goal ==> r.0 == consumed + 1 && (r.1 <==> r.0 == goal)
  {
    if consumed >= goal then (consumed, false) else (consumed + 1, consumed + 1 == goal)
  }

  /** The count after `adds` consecutive calls of `add`, and how many of
      them fired the goal callback. */
  function AfterAdds(start: nat, goal: nat, adds: nat): (nat, nat)
    decreases adds
  {
    if adds == 0 then (start, 0)
    else
      var (c, fired) := AddStep(start, goal);
      var rest := AfterAdds(c, goal, adds - 1);
      (rest.0, rest.1 + if fired then 1 else 0)
  }

  /** Repeated taps stop at the goal, and the goal callback fires once in
      all, on the tap that reaches it, however many taps follow. */
  lemma {:induction false} AfterAddsClosedForm(start: nat, goal: nat, adds: nat)
    requires start <= goal
    ensures AfterAdds(start, goal, adds).0 == if start + adds <= goal then start + adds else goal
    ensures AfterAdds(start, goal, adds).1 == if start < goal && start + adds >= goal then 1 else 0
    decreases adds
  {
    if adds > 0 {
      var (c, _) := AddStep(start, goal);
      AfterAddsClosedForm(c, goal, adds - 1);
    }
  }
}
