/** `useBreathingTimer`: walks through the steps of a breathing exercise,
    cycle after cycle. Each step runs on a 50 ms interval until its
    duration has elapsed; then the timer advances to the next step, the
    next cycle, or the end of the exercise. */
module BreathingTimer {
  import opened Wrappers

  datatype Step = Step(action: string, duration: nat)

  /** An exercise: its steps, in order, and how many cycles to run. */
  datatype Exercise = Exercise(name: string, steps: seq<Step>, cycles: int)

  /** Where the timer is: the step index within the cycle and the cycle
      number, counted from 1. */
  datatype Position = Position(step: int, cycle: int)

  const TickMs := 50

  /** The last cycle the timer runs: `cycles`, or the first cycle when the
      exercise asks for fewer than one (the end test `currentCycle < cycles`
      then fails at once). */
  function LastCycle(cycles: int): int {
    if cycles < 1 then 1 else cycles
  }

  /** A position inside an exercise with `n` steps. */
  predicate InRange(p: Position, n: nat, cycles: int) {
    0 <= p.step < n && 1 <= p.cycle <= LastCycle(cycles)
  }

  /** What completing the current step does: the next step of the cycle,
      the first step of the next cycle, or, after the last step of the last
      cycle, the end (None). */
  function Advance(p: Position, n: nat, cycles: int): (r: Option<Position>)
    requires InRange(p, n, cycles)
    ensures p.step < n - 1 ==> r == Some(Position(p.step + 1, p.cycle))
    ensures p.step == n - 1 && p.cycle < cycles ==> r == Some(Position(0, p.cycle + 1))
    ensures r.None? <==> p.step == n - 1 && p.cycle >= cycles
    ensures r.Some? ==> InRange(r.value, n, cycles)
  {
    if p.step < n - 1 then Some(Position(p.step + 1, p.cycle))
    else if p.cycle < cycles then Some(Position(0, p.cycle + 1))
    else None
  }

  /** Step completions still to come from `p`, this step included. */
  function Remaining(p: Position, n: nat, cycles: int): int {
    (LastCycle(cycles) - p.cycle) * n + (n - p.step)
  }

  /** Each completion uses up one of the remaining completions, and the
      exercise ends exactly on the last of them. */
  lemma AdvanceRemaining(p: Position, n: nat, cycles: int)
    requires InRange(p, n, cycles)
    ensures Remaining(p, n, cycles) >= 1
    ensures Advance(p, n, cycles).None? <==> Remaining(p, n, cycles) == 1
    ensures Advance(p, n, cycles).Some? ==>
      Remaining(Advance(p, n, cycles).value, n, cycles) == Remaining(p, n, cycles) - 1
  {
    var c := LastCycle(cycles) - p.cycle;
    assert c >= 0;
    assert c * n >= 0;
    if p.step == n - 1 && p.cycle < cycles {
      assert (c - 1) * n == c * n - n;
    }
  }

  /** The position after `k` step completions from `p`, or None once the
      exercise has ended. */
  function AdvanceTimes(p: Position, n: nat, cycles: int, k: nat): Option<Position>
    requires InRange(p, n, cycles)
  {
    if k == 0 then Some(p)
    else match AdvanceTimes(p, n, cycles, k - 1)
      case None => None
      case Some(q) => if InRange(q, n, cycles) then Advance(q, n, cycles) else None
  }

  /** From any position, the exercise ends on exactly the completion that
      uses up the remaining ones. */
  lemma {:induction false} AdvanceTimesRemaining(p: Position, n: nat, cycles: int, k: nat)
    requires InRange(p, n, cycles)
    ensures k < Remaining(p, n, cycles) ==>
      AdvanceTimes(p, n, cycles, k).Some?
      && InRange(AdvanceTimes(p, n, cycles, k).value, n, cycles)
      && Remaining(AdvanceTimes(p, n, cycles, k).value, n, cycles) == Remaining(p, n, cycles) - k
    ensures k >= Remaining(p, n, cycles) ==> AdvanceTimes(p, n, cycles, k).None?
  {
    AdvanceRemaining(p, n, cycles);
    if k > 0 {
      AdvanceTimesRemaining(p, n, cycles, k - 1);
      var prev := AdvanceTimes(p, n, cycles, k - 1);
      if prev.Some? {
        AdvanceRemaining(prev.value, n, cycles);
      }
    }
  }

  /** From the start, an exercise with `n` steps ends after exactly
      `n * cycles` step completions (one cycle when `cycles` is below 1). */
  lemma ExerciseLength(n: nat, cycles: int, k: nat)
    requires n > 0
    ensures AdvanceTimes(Position(0, 1), n, cycles, k).None? <==> k >= n * LastCycle(cycles)
  {
    AdvanceTimesRemaining(Position(0, 1), n, cycles, k);
    assert Remaining(Position(0, 1), n, cycles) == n * LastCycle(cycles);
  }

  /** The timer. `running` stands for the step interval being scheduled;
      `elapsed` and `stepMs` are the time counted by, and the length of the
      step captured by, that interval. `onComplete` is an output of `Tick`. */
  class Timer {
    var exercise: Option<Exercise>
    var isActive: bool
    var isPaused: bool
    var currentStep: int
    var currentCycle: int
    var elapsed: int
    var stepMs: int
    var running: bool

    /** The position is always inside the selected exercise, whose steps
        are not empty; before any exercise it is the start; an interval only
        runs for a selected exercise. */
    ghost predicate Valid()
      reads this
    {
      (exercise.Some? ==>
        |exercise.value.steps| > 0
        && InRange(Position(currentStep, currentCycle), |exercise.value.steps|, exercise.value.cycles))
      && (exercise.None? ==> currentStep == 0 && currentCycle == 1 && !running)
    }

    function Pos(): Position
      reads this
    {
      Position(currentStep, currentCycle)
    }

    constructor ()
      ensures Valid()
      ensures exercise.None? && !isActive && !isPaused && Pos() == Position(0, 1) && !running
    {
      exercise := None;
      isActive := false;
      isPaused := false;
      currentStep := 0;
      currentCycle := 1;
      elapsed := 0;
      stepMs := 0;
      running := false;
    }

    /** `start`: selects the exercise and goes back to its first step and
        first cycle, neither active nor paused. A scheduled interval is not
        cleared. */
    method Start(e: Exercise)
      requires Valid() && |e.steps| > 0
      modifies this
      ensures Valid()
      ensures exercise == Some(e) && !isActive && !isPaused && Pos() == Position(0, 1)
      ensures running == old(running) && elapsed == old(elapsed) && stepMs == old(stepMs)
    {
      exercise := Some(e);
      isActive := false;
      isPaused := false;
      currentStep := 0;
      currentCycle := 1;
    }

    /** `reset`: the same, keeping the exercise, and the interval is cleared. */
    method Reset()
      requires Valid()
      modifies this
      ensures Valid()
      ensures exercise == old(exercise) && !isActive && !isPaused && Pos() == Position(0, 1)
      ensures !running
    {
      isActive := false;
      isPaused := false;
      currentStep := 0;
      currentCycle := 1;
      running := false;
    }

    /** `play`: active, not paused, and the current step starts over. */
    method Play()
      requires Valid()
      modifies this
      ensures Valid()
      ensures isActive && !isPaused && Pos() == old(Pos()) && exercise == old(exercise)
      ensures running <==> exercise.Some?
      ensures running ==> elapsed == 0
    {
      isActive := true;
      isPaused := false;
      RunStep();
    }

    /** `pause`: paused, and the interval is cleared. */
    method Pause()
      requires Valid()
      modifies this
      ensures Valid()
      ensures isPaused && !running
      ensures isActive == old(isActive) && Pos() == old(Pos()) && exercise == old(exercise)
    {
      isPaused := true;
      running := false;
    }

    /** `runStep`: nothing without an exercise; otherwise schedules an
        interval for the current step, from zero elapsed time. */
    method RunStep()
      requires Valid()
      modifies this
      ensures Valid()
      ensures exercise.None? ==> running == old(running)
      ensures exercise.Some? ==>
        (running && elapsed == 0 && stepMs == exercise.value.steps[currentStep].duration * 1000)
      ensures isActive == old(isActive) && isPaused == old(isPaused)
      ensures Pos() == old(Pos()) && exercise == old(exercise)
    {
      if exercise.None? {
        return;
      }
      var e := exercise.value;
      elapsed := 0;
      stepMs := e.steps[currentStep].duration * 1000;
      running := true;
    }

    /** One firing of the 50 ms interval. While paused it does nothing.
        Otherwise it counts 50 ms; once the step's time has elapsed, the
        interval is cleared and the position advances; after the last step
        of the last cycle the timer stops being active and `onComplete`
        fires (`completed`); otherwise, if still active and not paused, the
        next step is scheduled. */
    method Tick() returns (completed: bool)
      requires Valid() && running
      modifies this
      ensures Valid()
      ensures exercise == old(exercise) && isPaused == old(isPaused)
      ensures old(isPaused) || old(elapsed) + TickMs < old(stepMs) ==>
        !completed && Pos() == old(Pos()) && isActive == old(isActive)
      ensures old(isPaused) ==> running == old(running) && elapsed == old(elapsed) && stepMs == old(stepMs)
      ensures !old(isPaused) && old(elapsed) + TickMs < old(stepMs) ==>
        running && elapsed == old(elapsed) + TickMs && stepMs == old(stepMs)
      ensures !old(isPaused) && old(elapsed) + TickMs >= old(stepMs) ==>
        var next := Advance(old(Pos()), |exercise.value.steps|, exercise.value.cycles);
        (completed <==> next.None?)
        && (next.Some? ==> Pos() == next.value && isActive == old(isActive)
                           && (running <==> isActive && !isPaused)
                           && (running ==> elapsed == 0
                                           && stepMs == exercise.value.steps[currentStep].duration * 1000))
        && (next.None? ==> Pos() == old(Pos()) && !isActive && !running)
    {
      completed := false;
      if isPaused {
        return;
      }
      elapsed := elapsed + TickMs;
      if elapsed >= stepMs {
        running := false;
        var e := exercise.value;
        if currentStep < |e.steps| - 1 {
          currentStep := currentStep + 1;
        } else {
          if currentCycle < e.cycles {
            currentCycle := currentCycle + 1;
            currentStep := 0;
          } else {
            isActive := false;
            completed := true;
            return;
          }
        }
        if isActive && !isPaused {
          RunStep();
        }
      }
    }
  }
}
