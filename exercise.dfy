/**
  The guided exercise dialog of the journaling page: a sequence of
  instruction steps, each with a countdown started by the user. The dialog
  state is the current step, whether the countdown runs, the seconds left
  and whether the exercise is complete; opening the dialog resets it, the
  step buttons move between steps, and each timer tick counts down and at
  zero advances exactly as the "next" button does.
*/
module ExerciseModal {
  import opened Js

  /** The dialog state: `currentStep`, `isActive`, `timeRemaining`, `isCompleted`. */
  datatype Phase = Phase(step: nat, active: bool, remaining: nat, completed: bool)

  /** The state after opening the dialog with an exercise (lines 11-16). */
  const Opened := Phase(0, false, 0, false)

  /** The step index stays within the instructions: `0 <= step <= count - 1`,
      or step 0 for an exercise without instructions. */
  predicate InRange(p: Phase, count: nat)
  {
    p.step == 0 || p.step < count
  }

  /** `step < exercise.instructions.length - 1` */
  predicate HasNext(p: Phase, count: nat)
  {
    p.step < count - 1
  }

  /** `nextStep` (lines 62-70): the next step with the timer stopped, or
      completion at the last step (the timer is then left as it was). */
  function NextStep(p: Phase, count: nat): (q: Phase)
    ensures HasNext(p, count) ==> q == Phase(p.step + 1, false, 0, p.completed)
    ensures !HasNext(p, count) ==> q == p.(completed := true)
    ensures InRange(p, count) ==> InRange(q, count)
  {
    if HasNext(p, count) then p.(step := p.step + 1, active := false, remaining := 0)
    else p.(completed := true)
  }

  /** `prevStep` (lines 72-78): at the first step nothing changes. */
  function PrevStep(p: Phase): (q: Phase)
    ensures p.step == 0 ==> q == p
    ensures p.step > 0 ==> q == Phase(p.step - 1, false, 0, p.completed)
    ensures q.step <= p.step
  {
    if p.step > 0 then p.(step := p.step - 1, active := false, remaining := 0) else p
  }

  /** `getStepDuration` (lines 54-60): the 4-7-8 breathing exercise times its
      first six steps as 4, 7, 8, 4, 7, 8 seconds and any later step as 5
      (the array reads as undefined there); every other exercise gives 30. */
  function StepDuration(exerciseId: string, i: nat): (d: nat)
    ensures d > 0
    ensures exerciseId != "breathing-4-7-8" ==> d == 30
    ensures exerciseId == "breathing-4-7-8" && i >= 6 ==> d == 5
    ensures exerciseId == "breathing-4-7-8" && i < 6 ==> d == (if i % 3 == 0 then 4 else if i % 3 == 1 then 7 else 8)
  {
    if exerciseId == "breathing-4-7-8" then
      var table := [4, 7, 8, 4, 7, 8];
      if i < |table| then table[i] else 5
    else 30
  }

  /** `startStep` (lines 49-52): the countdown starts at the step's duration. */
  function StartStep(p: Phase, exerciseId: string): (q: Phase)
    ensures q.active && q.remaining > 0 && q.step == p.step && q.completed == p.completed
  {
    p.(remaining := StepDuration(exerciseId, p.step), active := true)
  }

  /** One second of the interval (lines 27-47). The interval only runs while
      the countdown is active with time left; a tick from one second or less
      stops it at zero and advances like `nextStep`. */
  function Tick(p: Phase, count: nat): (q: Phase)
    ensures !(p.active && p.remaining > 0) ==> q == p
    ensures p.active && p.remaining > 1 ==> q == p.(remaining := p.remaining - 1)
    ensures p.active && p.remaining == 1 ==> q == Finished(p, count)
    ensures InRange(p, count) ==> InRange(q, count)
  {
    if !(p.active && p.remaining > 0) then p
    else if p.remaining > 1 then p.(remaining := p.remaining - 1)
    else
      var q := p.(active := false, remaining := 0);
      if HasNext(p, count) then q.(step := p.step + 1) else q.(completed := true)
  }

  /** The state at the end of a countdown: what `nextStep` gives, with the timer stopped. */
  function Finished(p: Phase, count: nat): Phase
  {
    NextStep(p, count).(active := false, remaining := 0)
  }

  /** `k` ticks in a row. */
  function Ticks(p: Phase, count: nat, k: nat): Phase
    decreases k
  {
    if k == 0 then p else Ticks(Tick(p, count), count, k - 1)
  }

  /** A running countdown with `d` seconds left ends after exactly `d` ticks. */
  lemma {:induction false} CountdownEnds(p: Phase, count: nat)
    requires p.active && p.remaining > 0
    ensures Ticks(p, count, p.remaining) == Finished(p, count)
    ensures forall k | 0 < k < p.remaining :: Ticks(p, count, k).active
    decreases p.remaining
  {
    if p.remaining > 1 {
      var q := Tick(p, count);
      CountdownEnds(q, count);
      assert Finished(q, count) == Finished(p, count);
      forall k | 0 < k < p.remaining ensures Ticks(p, count, k).active {
        if k > 1 {
          assert Ticks(p, count, k) == Ticks(q, count, k - 1);
        }
      }
    }
  }

  /** Starting a step and letting its whole duration elapse moves on as
      "next" does: one step further, or completion at the last step. */
  lemma StepRunsToNext(p: Phase, exerciseId: string, count: nat)
    ensures var s := StartStep(p, exerciseId);
      Ticks(s, count, StepDuration(exerciseId, p.step)) == Finished(p, count)
  {
    var s := StartStep(p, exerciseId);
    CountdownEnds(s, count);
    assert Finished(s, count) == Finished(p, count);
  }

  /** Every transition keeps the step within the instructions. */
  lemma {:induction false} TicksInRange(p: Phase, count: nat, k: nat)
    requires InRange(p, count)
    ensures InRange(Ticks(p, count, k), count)
    decreases k
  {
    if k > 0 {
      TicksInRange(Tick(p, count), count, k - 1);
    }
  }

  /** `s.padStart(n, c)` */
  function PadStart(s: string, n: nat, c: char): (r: string)
    ensures |r| == if |s| >= n then |s| else n
    ensures r[|r| - |s|..] == s
    ensures forall i | 0 <= i < |r| - |s| :: r[i] == c
  {
    if |s| >= n then s else seq(n - |s|, _ => c) + s
  }

  /** `formatTime` (lines 85-89): whole minutes, ':', seconds as two digits. */
  function FormatTime(seconds: nat): (t: string)
    ensures |t| >= 4 && t[|t| - 3] == ':'
    ensures seconds < 600 ==> |t| == 4
  {
    NatToStringShort(seconds % 60);
    NatToStringShort(seconds / 60);
    NatToStringReadsBack(seconds / 60);
    NatToString(seconds / 60) + ":" + PadStart(NatToString(seconds % 60), 2, '0')
  }

  /** `t` reads as `seconds` on a clock: the digits before the colon count
      minutes, the two after it count seconds. */
  predicate ReadsAsClock(t: string, seconds: nat)
  {
    |t| >= 4 && t[|t| - 3] == ':' && AllDigits(t[..|t| - 3]) && AllDigits(t[|t| - 2..]) &&
    DecimalValue(t[..|t| - 3]) * 60 + DecimalValue(t[|t| - 2..]) == seconds &&
    DecimalValue(t[|t| - 2..]) < 60
  }

  /** The clock text reads back as the number of seconds. */
  lemma FormatTimeReadsBack(seconds: nat)
    ensures ReadsAsClock(FormatTime(seconds), seconds)
  {
    var m := NatToString(seconds / 60);
    var s := NatToString(seconds % 60);
    NatToStringReadsBack(seconds / 60);
    NatToStringReadsBack(seconds % 60);
    NatToStringShort(seconds % 60);
    var p := PadStart(s, 2, '0');
    var t := FormatTime(seconds);
    assert t == m + ":" + p;
    assert t[..|t| - 3] == m;
    assert t[|t| - 2..] == p;
    if |s| == 1 {
      assert p == "0" + s;
      assert p[..1] == "0";
    }
    assert DecimalValue(p) == seconds % 60;
  }

  /** The dialog, for the exercise it was opened with. */
  class Modal {
    const exerciseId: string
    /** `exercise.instructions.length` */
    const count: nat
    var currentStep: nat
    var isActive: bool
    var timeRemaining: nat
    var isCompleted: bool

    function State(): Phase
      reads this
    {
      Phase(currentStep, isActive, timeRemaining, isCompleted)
    }

    predicate Valid()
      reads this
    {
      InRange(State(), count)
    }

    /** Opening the dialog with an exercise. */
    constructor Open(exerciseId: string, count: nat)
      ensures this.exerciseId == exerciseId && this.count == count
      ensures State() == Opened && Valid()
    {
      this.exerciseId := exerciseId;
      this.count := count;
      currentStep := 0;
      isActive := false;
      timeRemaining := 0;
      isCompleted := false;
    }

    method StartStepClicked()
      requires Valid()
      modifies this
      ensures State() == StartStep(old(State()), exerciseId) && Valid()
    {
      timeRemaining := StepDuration(exerciseId, currentStep);
      isActive := true;
    }

    method NextStepClicked()
      requires Valid()
      modifies this
      ensures State() == NextStep(old(State()), count) && Valid()
    {
      if currentStep < count - 1 {
        currentStep := currentStep + 1;
        isActive := false;
        timeRemaining := 0;
      } else {
        isCompleted := true;
      }
    }

    method PrevStepClicked()
      requires Valid()
      modifies this
      ensures State() == PrevStep(old(State())) && Valid()
    {
      if currentStep > 0 {
        currentStep := currentStep - 1;
        isActive := false;
        timeRemaining := 0;
      }
    }

    /** One firing of the interval; it is only scheduled while the countdown
        is active with time left, so any other state is left alone. */
    method TimerTick()
      requires Valid()
      modifies this
      ensures State() == Tick(old(State()), count) && Valid()
    {
      if !(isActive && timeRemaining > 0) {
        return;
      }
      if timeRemaining <= 1 {
        isActive := false;
        if currentStep < count - 1 {
          currentStep := currentStep + 1;
        } else {
          isCompleted := true;
        }
        timeRemaining := 0;
      } else {
        timeRemaining := timeRemaining - 1;
      }
    }
  }
}
