/**
  The floating progress panel: shown only on three pages, it reports the
  weekly goal as a capped percentage, names a streak level, and picks a
  motivational line for the streak and a line for what remains of the
  weekly goal.
*/
module ProgressIndicator {
  import opened Js

  // ---------------------------------------------------------------------
  // Visibility
  // ---------------------------------------------------------------------

  const RelevantPaths := ["/dashboard", "/daily-journaling-interface", "/mood-history-analytics"]

  /** The panel's visibility state, driven by the current path. */
  class Panel {
    var isVisible: bool
    var animateProgress: bool
    /** Animation timeouts scheduled and not yet fired (they are never cleared). */
    var pendingAnimations: nat

    constructor ()
      ensures !isVisible && !animateProgress && pendingAnimations == 0
    {
      isVisible := false;
      animateProgress := false;
      pendingAnimations := 0;
    }

    /** The effect run on every path change (lines 12-21): visible exactly on
        the relevant pages, where an animation is scheduled; elsewhere the
        animation flag drops at once. */
    method PathChanged(pathname: string)
      modifies this
      ensures isVisible <==> pathname in RelevantPaths
      ensures isVisible ==> pendingAnimations == old(pendingAnimations) + 1 && animateProgress == old(animateProgress)
      ensures !isVisible ==> pendingAnimations == old(pendingAnimations) && !animateProgress
    {
      var shouldShow := pathname in RelevantPaths;
      isVisible := shouldShow;
      if shouldShow {
        pendingAnimations := pendingAnimations + 1;
      } else {
        animateProgress := false;
      }
    }

    /** A scheduled animation timeout fires. */
    method AnimationTimeout()
      requires pendingAnimations > 0
      modifies this
      ensures animateProgress && pendingAnimations == old(pendingAnimations) - 1
      ensures isVisible == old(isVisible)
    {
      animateProgress := true;
      pendingAnimations := pendingAnimations - 1;
    }
  }

  // ---------------------------------------------------------------------
  // Props
  // ---------------------------------------------------------------------

  /** The props after destructuring with their defaults (line 5); a missing
      prop is None. */
  datatype Props = Props(journalStreak: int, moodEntries: int, weeklyGoal: int)

  function PropsOf(journalStreak: Option<int>, moodEntries: Option<int>, weeklyGoal: Option<int>): (p: Props)
    ensures journalStreak.None? ==> p.journalStreak == 0
    ensures moodEntries.None? ==> p.moodEntries == 0
    ensures weeklyGoal.None? ==> p.weeklyGoal == 7
    ensures weeklyGoal.Some? ==> p.weeklyGoal == weeklyGoal.value
  {
    Props(GetOr(journalStreak, 0), GetOr(moodEntries, 0), GetOr(weeklyGoal, 7))
  }

  /** With no props the panel shows an empty bar, the opening streak line and
      seven entries to go. */
  lemma DefaultPropsDisplay()
    ensures var p := PropsOf(None, None, None);
      ProgressPercentage(p.moodEntries, p.weeklyGoal) == Finite(0.0) &&
      MotivationalMessage(p.journalStreak) == StreakMessages[0] &&
      GetStreakLevel(p.journalStreak) == Beginning &&
      WeeklyProgressMessage(p.weeklyGoal, p.moodEntries) == "7" + MoreEntriesSuffix
  {
    assert NatToString(7) == "7";
  }

  // ---------------------------------------------------------------------
  // Weekly goal
  // ---------------------------------------------------------------------

  /** A JavaScript number as the percentage computes it (rounding ignored). */
  datatype Number = Finite(r: real) | NaN | PlusInfinity | MinusInfinity

  /** `Math.min((moodEntries / weeklyGoal) * 100, 100)` (line 23): a zero goal
      divides by zero, giving 100 for a positive count (capped infinity),
      NaN for none and minus infinity for a negative one. */
  function ProgressPercentage(moodEntries: int, weeklyGoal: int): (p: Number)
    ensures p.Finite? ==> p.r <= 100.0
    ensures p == NaN <==> moodEntries == 0 && weeklyGoal == 0
    ensures weeklyGoal > 0 && moodEntries >= 0 ==> p.Finite? && 0.0 <= p.r
    ensures weeklyGoal > 0 ==> (p == Finite(100.0) <==> moodEntries >= weeklyGoal)
    ensures weeklyGoal != 0 ==> p.Finite? && (p.r < 100.0 ==> p.r * weeklyGoal as real == moodEntries as real * 100.0)
    ensures weeklyGoal != 0 && p.Finite? && p.r < 100.0 ==> p.r == (moodEntries as real / weeklyGoal as real) * 100.0
  {
    if weeklyGoal == 0 then
      if moodEntries > 0 then Finite(100.0) else if moodEntries == 0 then NaN else MinusInfinity
    else
      var ratio := (moodEntries as real / weeklyGoal as real) * 100.0;
      if weeklyGoal > 0 then
        assert ratio >= 100.0 <==> moodEntries >= weeklyGoal by {
          RatioAtLeastOne(moodEntries, weeklyGoal);
        }
        Finite(if ratio < 100.0 then ratio else 100.0)
      else
        Finite(if ratio < 100.0 then ratio else 100.0)
  }

  lemma RatioAtLeastOne(a: int, b: int)
    requires b > 0
    ensures (a as real / b as real) * 100.0 >= 100.0 <==> a >= b
  {
    var q := a as real / b as real;
    assert q * b as real == a as real;
    if a >= b {
      assert q >= 1.0;
    }
    if q >= 1.0 {
      assert q * b as real >= b as real;
    }
  }

  const GoalAchieved := "Weekly goal achieved! \U{1F389}"
  const OneMoreEntry := "Just 1 more entry to reach your goal"
  const MoreEntriesSuffix := " more entries to reach your weekly goal"

  /** `getWeeklyProgressMessage` (lines 43-48), on `Math.max(goal - entries, 0)`. */
  function WeeklyProgressMessage(weeklyGoal: int, moodEntries: int): (m: string)
    ensures m == GoalAchieved <==> moodEntries >= weeklyGoal
    ensures m == OneMoreEntry <==> weeklyGoal - moodEntries == 1
    ensures weeklyGoal - moodEntries >= 2 ==> m == NatToString(weeklyGoal - moodEntries) + MoreEntriesSuffix
  {
    var remaining := if weeklyGoal - moodEntries > 0 then weeklyGoal - moodEntries else 0;
    if remaining == 0 then GoalAchieved
    else if remaining == 1 then OneMoreEntry
    else NatToString(remaining) + MoreEntriesSuffix
  }

  /** The bar is full exactly when the message says the goal is reached. */
  lemma FullBarMeansGoalAchieved(moodEntries: int, weeklyGoal: int)
    requires weeklyGoal > 0
    ensures ProgressPercentage(moodEntries, weeklyGoal) == Finite(100.0) <==>
      WeeklyProgressMessage(weeklyGoal, moodEntries) == GoalAchieved
  {
  }

  // ---------------------------------------------------------------------
  // Streak
  // ---------------------------------------------------------------------

  datatype StreakLevel = Beginning | Starting | Building | Committed | Master

  function Rank(l: StreakLevel): nat
  {
    match l
    case Beginning => 0
    case Starting => 1
    case Building => 2
    case Committed => 3
    case Master => 4
  }

  /** How many of the thresholds `x` reaches. */
  function Reached(thresholds: seq<int>, x: int): (n: nat)
    ensures n <= |thresholds|
  {
    if thresholds == [] then 0
    else (if x >= thresholds[0] then 1 else 0) + Reached(thresholds[1..], x)
  }

  lemma {:induction false} ReachedMonotone(thresholds: seq<int>, x: int, y: int)
    requires x <= y
    ensures Reached(thresholds, x) <= Reached(thresholds, y)
  {
    if thresholds != [] {
      ReachedMonotone(thresholds[1..], x, y);
    }
  }

  const StreakThresholds := [3, 7, 14, 30]

  /** Four ascending thresholds are reached as a prefix. */
  lemma ReachedFour(t: seq<int>, x: int)
    requires |t| == 4 && t[0] <= t[1] <= t[2] <= t[3]
    ensures Reached(t, x) == if x >= t[3] then 4 else if x >= t[2] then 3 else if x >= t[1] then 2 else if x >= t[0] then 1 else 0
  {
    var t1 := t[1..];
    var t2 := t1[1..];
    var t3 := t2[1..];
    assert t3[1..] == [];
    assert Reached(t3, x) == if x >= t[3] then 1 else 0;
    assert Reached(t2, x) == (if x >= t[2] then 1 else 0) + Reached(t3, x);
    assert Reached(t1, x) == (if x >= t[1] then 1 else 0) + Reached(t2, x);
  }

  /** `getStreakLevel` (lines 26-32): the level's rank is the number of
      thresholds 3, 7, 14, 30 the streak reaches. */
  function GetStreakLevel(streak: int): (l: StreakLevel)
    ensures Rank(l) == Reached(StreakThresholds, streak)
  {
    ReachedFour(StreakThresholds, streak);
    if streak >= 30 then Master
    else if streak >= 14 then Committed
    else if streak >= 7 then Building
    else if streak >= 3 then Starting
    else Beginning
  }

  /** A longer streak never has a lower level. */
  lemma StreakLevelMonotone(s: int, t: int)
    requires s <= t
    ensures Rank(GetStreakLevel(s)) <= Rank(GetStreakLevel(t))
  {
    ReachedMonotone(StreakThresholds, s, t);
  }

  const StreakMessages := ["Start your wellness journey today", "Great start! Keep going",
                           "Building a healthy habit", "You're doing amazing!",
                           "Incredible consistency!", "You're a wellness champion!"]

  /** The streak bucket: 0, 1, under 7, under 14, under 30, and beyond. */
  function StreakBucket(streak: int): (b: nat)
    ensures b < |StreakMessages|
    ensures b == 0 <==> streak == 0
    ensures b == 1 <==> streak == 1
    ensures b == 5 <==> streak >= 30
  {
    if streak == 0 then 0
    else if streak == 1 then 1
    else if streak < 7 then 2
    else if streak < 14 then 3
    else if streak < 30 then 4
    else 5
  }

  /** `getMotivationalMessage` (lines 34-41). */
  function MotivationalMessage(streak: int): (m: string)
    ensures m == StreakMessages[StreakBucket(streak)]
  {
    if streak == 0 then "Start your wellness journey today"
    else if streak == 1 then "Great start! Keep going"
    else if streak < 7 then "Building a healthy habit"
    else if streak < 14 then "You're doing amazing!"
    else if streak < 30 then "Incredible consistency!"
    else "You're a wellness champion!"
  }

  /** From a week on, the message names the same stage as the level badge:
      Building, Committed and Master each have their own line. */
  lemma MessageFollowsLevel(streak: int)
    requires streak >= 7
    ensures GetStreakLevel(streak) == Building <==> MotivationalMessage(streak) == "You're doing amazing!"
    ensures GetStreakLevel(streak) == Committed <==> MotivationalMessage(streak) == "Incredible consistency!"
    ensures GetStreakLevel(streak) == Master <==> MotivationalMessage(streak) == "You're a wellness champion!"
  {
  }
}
