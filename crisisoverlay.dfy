/**
  The crisis overlay: it resets whenever it is activated, runs a guided
  breathing exercise driven by a four-second interval, and routes the
  emergency contacts to the phone or the messaging app.
*/
module CrisisOverlay {
  import opened Js

  // ---------------------------------------------------------------------
  // Breathing counter
  // ---------------------------------------------------------------------

  /** The counter the interval's updater gives for `prev` (lines 69-76), and
      whether that tick ends the exercise; `limit` is the count at which it
      stops, 8 as written. */
  function NextCount(limit: nat, prev: int): (next: (int, bool))
    ensures next.1 <==> prev >= limit
    ensures next.1 ==> next.0 == 0
    ensures !next.1 ==> next.0 == prev + 1
  {
    if prev >= limit then (0, true) else (prev + 1, false)
  }

  /** The count at which the written updater stops. */
  const WrittenLimit := 8

  datatype Breath = BreatheIn | BreatheOut

  /** What the exercise shows for a count (lines 193-196): the breath number
      `Math.floor(count / 2) + 1` and in on even counts, out on odd ones. */
  datatype Display = Display(breath: int, phase: Breath)

  function Show(count: nat): (d: Display)
    ensures d.phase == BreatheIn <==> count % 2 == 0
    ensures 2 * (d.breath - 1) <= count < 2 * d.breath
  {
    Display(count / 2 + 1, if count % 2 == 0 then BreatheIn else BreatheOut)
  }

  /** The displays of one run of the exercise, from count `c` until the
      tick that stops it. */
  function Displays(limit: nat, c: nat): (shown: seq<Display>)
    requires c <= limit
    ensures |shown| == limit - c + 1
    ensures forall i | 0 <= i < |shown| :: shown[i] == Show(c + i)
    decreases limit - c
  {
    if c == limit then [Show(c)] else [Show(c)] + Displays(limit, c + 1)
  }

  /** The counts the counter holds from `c` on: each tick applies
      NextCount, until the tick that stops the exercise. */
  function CounterRun(limit: nat, c: nat): (counts: seq<nat>)
    requires c <= limit
    ensures |counts| == limit - c + 1
    ensures forall i | 0 <= i < |counts| :: counts[i] == c + i
    decreases limit - c
  {
    var (next, stop) := NextCount(limit, c);
    if stop then [c] else [c] + CounterRun(limit, next)
  }

  /** The displays of a run are exactly what the counter shows tick by tick. */
  lemma DisplaysFollowCounter(limit: nat, c: nat)
    requires c <= limit
    ensures |CounterRun(limit, c)| == |Displays(limit, c)|
    ensures forall i | 0 <= i < |Displays(limit, c)| :: Displays(limit, c)[i] == Show(CounterRun(limit, c)[i])
  {
  }

  /** As written, the interval started at 0 holds the counts 0 to 8, one per
      tick, and the ninth tick stops it. */
  lemma WrittenCounterRun()
    ensures CounterRun(WrittenLimit, 0) == [0, 1, 2, 3, 4, 5, 6, 7, 8]
    ensures forall i | 0 <= i < 9 :: Displays(WrittenLimit, 0)[i] == Show(CounterRun(WrittenLimit, 0)[i])
  {
    var run := CounterRun(WrittenLimit, 0);
    assert forall i | 0 <= i < 9 :: run[i] == [0, 1, 2, 3, 4, 5, 6, 7, 8][i];
    DisplaysFollowCounter(WrittenLimit, 0);
  }

  /** As written, a run shows nine displays and the last one reads
      "Breath 5 of 4". */
  lemma WrittenRunShowsFifthBreath()
    ensures |Displays(WrittenLimit, 0)| == 9
    ensures Displays(WrittenLimit, 0)[8] == Display(5, BreatheIn)
  {
  }

  /** The limit the "of 4" label evidently intends: four breaths, each in
      and out. */
  const FixedLimit := 7

  /** With the fixed limit a run shows each of the four breaths in and then
      out, and never a breath number beyond four. */
  lemma {:induction false} FixedRunShowsFourBreaths()
    ensures |Displays(FixedLimit, 0)| == 8
    ensures forall i | 0 <= i < 8 ::
      Displays(FixedLimit, 0)[i] == Display(i / 2 + 1, if i % 2 == 0 then BreatheIn else BreatheOut)
    ensures forall i | 0 <= i < 8 :: 1 <= Displays(FixedLimit, 0)[i].breath <= 4
  {
    var shown := Displays(FixedLimit, 0);
    forall i | 0 <= i < 8
      ensures shown[i] == Display(i / 2 + 1, if i % 2 == 0 then BreatheIn else BreatheOut)
      ensures 1 <= shown[i].breath <= 4
    {
      assert shown[i] == Show(i);
    }
  }

  /** Under the fixed limit every count the counter can hold shows a breath
      of the four. */
  lemma FixedCountsWithinFour(count: nat)
    requires count <= FixedLimit
    ensures 1 <= Show(count).breath <= 4
  {
  }

  // ---------------------------------------------------------------------
  // The overlay's state
  // ---------------------------------------------------------------------

  class Overlay {
    var currentStep: string
    var breathingCount: int
    var isBreathing: bool
    /** Intervals started and not yet cleared. */
    var intervals: nat

    /** The counter never leaves 0..8. */
    predicate Valid()
      reads this
    {
      0 <= breathingCount <= WrittenLimit
    }

    constructor ()
      ensures Valid()
      ensures currentStep == "immediate" && breathingCount == 0 && !isBreathing && intervals == 0
    {
      currentStep := "immediate";
      breathingCount := 0;
      isBreathing := false;
      intervals := 0;
    }

    /** The effect on `isActive` (lines 10-23): activation resets the step
        and the exercise; a running interval is not cleared. */
    method Activated(isActive: bool)
      requires Valid()
      modifies this
      ensures Valid()
      ensures isActive ==> currentStep == "immediate" && breathingCount == 0 && !isBreathing
      ensures !isActive ==> currentStep == old(currentStep) && breathingCount == old(breathingCount) &&
                            isBreathing == old(isBreathing)
      ensures intervals == old(intervals)
    {
      if isActive {
        currentStep := "immediate";
        breathingCount := 0;
        isBreathing := false;
      }
    }

    /** `startBreathingExercise` (lines 64-78); its button shows only while
        no exercise runs. */
    method StartBreathing()
      requires Valid() && !isBreathing
      modifies this
      ensures Valid()
      ensures isBreathing && breathingCount == 0 && intervals == old(intervals) + 1
      ensures currentStep == old(currentStep)
    {
      isBreathing := true;
      breathingCount := 0;
      intervals := intervals + 1;
    }

    /** One tick of a running interval (lines 68-77). */
    method Tick()
      requires Valid() && intervals > 0
      modifies this
      ensures Valid()
      ensures (breathingCount, old(breathingCount) >= WrittenLimit) == NextCount(WrittenLimit, old(breathingCount))
      ensures old(breathingCount) >= WrittenLimit ==> !isBreathing && intervals == old(intervals) - 1
      ensures old(breathingCount) < WrittenLimit ==> isBreathing == old(isBreathing) && intervals == old(intervals)
      ensures currentStep == old(currentStep)
    {
      if breathingCount >= WrittenLimit {
        intervals := intervals - 1;
        isBreathing := false;
        breathingCount := 0;
      } else {
        breathingCount := breathingCount + 1;
      }
    }
  }

  // ---------------------------------------------------------------------
  // Emergency contacts
  // ---------------------------------------------------------------------

  datatype Contact = Contact(name: string, number: string, description: string, icon: string)

  /** The contacts listed (lines 25-44). */
  const EmergencyContacts := [
    Contact("National Suicide Prevention Lifeline", "988", "24/7 crisis support", "Phone"),
    Contact("Crisis Text Line", "Text HOME to 741741", "Text-based crisis support", "MessageSquare"),
    Contact("Emergency Services", "911", "Immediate emergency assistance", "AlertTriangle")]

  /** `handleCallEmergency` (lines 80-87): the address the browser is sent
      to, or None when the number matches no rule. */
  function CallTarget(number: string): (href: Option<string>)
    ensures number in {"911", "988"} ==> href == Some("tel:" + number)
    ensures number !in {"911", "988"} && Includes(number, "741741") ==> href == Some("sms:741741?body=HOME")
    ensures href.None? <==> number !in {"911", "988"} && !Includes(number, "741741")
  {
    if number == "911" || number == "988" then Some("tel:" + number)
    else if Includes(number, "741741") then Some("sms:741741?body=HOME")
    else None
  }

  /** The contact button's caption (line 170). */
  function ButtonCaption(number: string): (caption: string)
    ensures caption == "Text" <==> Includes(number, "Text")
    ensures caption == "Text" || caption == "Call"
  {
    if Includes(number, "Text") then "Text" else "Call"
  }

  /** Every listed contact leads somewhere, and its button says "Text"
      exactly when it opens the messaging app. */
  lemma ContactsRouteAsLabelled(i: nat)
    requires i < |EmergencyContacts|
    ensures CallTarget(EmergencyContacts[i].number).Some?
    ensures ButtonCaption(EmergencyContacts[i].number) == "Text" <==>
      CallTarget(EmergencyContacts[i].number) == Some("sms:741741?body=HOME")
  {
    var text := EmergencyContacts[1].number;
    assert StartsWith(text[13..], "741741");
    assert StartsWith(text[0..], "Text");
    assert !Includes("988", "Text") && !Includes("911", "Text");
  }
}
