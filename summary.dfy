/**
  The summary cards of the mood history page: the summary's fields with
  their destructuring defaults, the streak line, the consistency level, the
  label of the selected time range, the weekly-goal card's styling and the
  achievement badges.
*/
module MoodSummaryCards {
  import opened Js
  import ProgressIndicator
  import MoodFilterPanel

  /** `summaryData` as it arrives; None is a missing (undefined) field. */
  datatype SummaryData = SummaryData(totalEntries: Option<int>, currentStreak: Option<int>,
                                     longestStreak: Option<int>, averageMood: Option<string>,
                                     moodDistribution: Option<map<string, int>>,
                                     weeklyGoalProgress: Option<int>, improvementTrend: Option<real>,
                                     consistencyScore: Option<int>)

  /** The fields after destructuring (lines 6-15). */
  datatype Summary = Summary(totalEntries: int, currentStreak: int, longestStreak: int,
                             averageMood: string, moodDistribution: map<string, int>,
                             weeklyGoalProgress: int, improvementTrend: real, consistencyScore: int)

  function Destructure(d: SummaryData): (s: Summary)
    ensures s.totalEntries == if d.totalEntries.Some? then d.totalEntries.value else 0
    ensures s.currentStreak == if d.currentStreak.Some? then d.currentStreak.value else 0
    ensures s.longestStreak == if d.longestStreak.Some? then d.longestStreak.value else 0
    ensures s.averageMood == if d.averageMood.Some? then d.averageMood.value else "neutral"
    ensures s.moodDistribution == if d.moodDistribution.Some? then d.moodDistribution.value else map[]
    ensures s.weeklyGoalProgress == if d.weeklyGoalProgress.Some? then d.weeklyGoalProgress.value else 0
    ensures s.improvementTrend == if d.improvementTrend.Some? then d.improvementTrend.value else 0.0
    ensures s.consistencyScore == if d.consistencyScore.Some? then d.consistencyScore.value else 0
  {
    Summary(GetOr(d.totalEntries, 0), GetOr(d.currentStreak, 0), GetOr(d.longestStreak, 0),
            GetOr(d.averageMood, "neutral"), GetOr(d.moodDistribution, map[]),
            GetOr(d.weeklyGoalProgress, 0), GetOr(d.improvementTrend, 0.0), GetOr(d.consistencyScore, 0))
  }

  /** An empty summary shows the opening streak line, no badge but the placeholder. */
  lemma EmptySummary()
    ensures var s := Destructure(SummaryData(None, None, None, None, None, None, None, None));
      StreakMessage(s.currentStreak) == "Start your wellness journey today" &&
      Achievements(s) == [] && ShowsPlaceholder(s)
  {
  }

  /** The direction the trend icon shows. */
  datatype Trend = TrendingUp | TrendingDown | Flat

  /** `getTrendIcon` (lines 41-45): a trend beyond 0.1 either way counts. */
  function TrendOf(improvementTrend: real): (t: Trend)
    ensures t == TrendingUp <==> improvementTrend > 0.1
    ensures t == TrendingDown <==> improvementTrend < -0.1
  {
    if improvementTrend > 0.1 then TrendingUp
    else if improvementTrend < -0.1 then TrendingDown
    else Flat
  }

  /** The label beside the icon (lines 139-140), tested separately in the source. */
  function TrendLabel(improvementTrend: real): string
  {
    if improvementTrend > 0.1 then "Improving"
    else if improvementTrend < -0.1 then "Declining"
    else "Stable"
  }

  /** The icon and the label always agree, and a missing trend reads "Stable". */
  lemma TrendLabelMatchesIcon(improvementTrend: real)
    ensures TrendLabel(improvementTrend) == match TrendOf(improvementTrend)
      case TrendingUp => "Improving"
      case TrendingDown => "Declining"
      case Flat => "Stable"
    ensures TrendOf(0.0) == Flat && TrendLabel(0.0) == "Stable"
  {
  }

  /** `getStreakMessage` (lines 25-32). */
  function StreakMessage(currentStreak: int): (m: string)
    ensures m == ProgressIndicator.MotivationalMessage(currentStreak)
  {
    if currentStreak == 0 then "Start your wellness journey today"
    else if currentStreak == 1 then "Great start! Keep going"
    else if currentStreak < 7 then "Building a healthy habit"
    else if currentStreak < 14 then "You're doing amazing!"
    else if currentStreak < 30 then "Incredible consistency!"
    else "You're a wellness champion!"
  }

  datatype ConsistencyLevel = NeedsWork | Fair | Good | Excellent

  function ConsistencyRank(l: ConsistencyLevel): nat
  {
    match l
    case NeedsWork => 0
    case Fair => 1
    case Good => 2
    case Excellent => 3
  }

  /** `getConsistencyLevel` (lines 34-39): the rank counts the thresholds
      50, 70, 90 the score reaches. */
  function GetConsistencyLevel(score: int): (l: ConsistencyLevel)
    ensures ConsistencyRank(l) == ProgressIndicator.Reached([50, 70, 90], score)
  {
    var t := [50, 70, 90];
    assert t[1..][1..][1..] == [];
    assert ProgressIndicator.Reached(t[1..][1..], score) == if score >= 90 then 1 else 0;
    if score >= 90 then Excellent
    else if score >= 70 then Good
    else if score >= 50 then Fair
    else NeedsWork
  }

  /** A higher score never has a lower level. */
  lemma ConsistencyMonotone(s: int, t: int)
    requires s <= t
    ensures ConsistencyRank(GetConsistencyLevel(s)) <= ConsistencyRank(GetConsistencyLevel(t))
  {
    ProgressIndicator.ReachedMonotone([50, 70, 90], s, t);
  }

  /** `formatTimeRange` (lines 47-55): four named ranges, 'All Time' otherwise. */
  function FormatTimeRange(timeRange: string): (caption: string)
    ensures caption == "All Time" <==> timeRange !in {"week", "month", "quarter", "year"}
  {
    match timeRange
    case "week" => "This Week"
    case "month" => "This Month"
    case "quarter" => "Last 3 Months"
    case "year" => "This Year"
    case _ => "All Time"
  }

  /** The card's subtitle names a range exactly as the filter panel's select
      labels it, for every range the panel offers. */
  lemma TimeRangeLabelsAgree(timeRange: string)
    requires MoodFilterPanel.OptionLabel(MoodFilterPanel.TimeRangeOptions, timeRange).Some?
    ensures FormatTimeRange(timeRange) == MoodFilterPanel.OptionLabel(MoodFilterPanel.TimeRangeOptions, timeRange).value
  {
    var o := MoodFilterPanel.TimeRangeOptions;
    var caption := MoodFilterPanel.OptionLabel(o, timeRange).value;
    var i :| 0 <= i < |o| && o[i] == (timeRange, caption);
    CaptionAt(i);
  }

  /** The subtitle of the range offered at position `i` of the select. */
  lemma CaptionAt(i: nat)
    requires i < |MoodFilterPanel.TimeRangeOptions|
    ensures FormatTimeRange(MoodFilterPanel.TimeRangeOptions[i].0) == MoodFilterPanel.TimeRangeOptions[i].1
  {
  }

  /** The weekly-goal card uses the success colours (lines 87-88). */
  predicate GoalCardSucceeds(s: Summary)
  {
    s.weeklyGoalProgress >= 100
  }

  datatype Badge = WeekWarrior | ProlificWriter | GoalAchiever

  /** The badges shown (lines 219-238), in display order. */
  function Achievements(s: Summary): (badges: seq<Badge>)
    ensures WeekWarrior in badges <==> s.currentStreak >= 7
    ensures ProlificWriter in badges <==> s.totalEntries >= 50
    ensures GoalAchiever in badges <==> s.weeklyGoalProgress >= 100
    ensures forall i, j | 0 <= i < j < |badges| :: badges[i] != badges[j]
  {
    (if s.currentStreak >= 7 then [WeekWarrior] else []) +
    (if s.totalEntries >= 50 then [ProlificWriter] else []) +
    (if s.weeklyGoalProgress >= 100 then [GoalAchiever] else [])
  }

  /** The "start journaling" placeholder shows for an empty mood distribution
      (line 240), whether or not a badge is shown. */
  predicate ShowsPlaceholder(s: Summary)
  {
    |s.moodDistribution.Keys| == 0
  }

  /** The goal card turns green exactly when the Goal Achiever badge shows. */
  lemma GoalCardMatchesBadge(s: Summary)
    ensures GoalCardSucceeds(s) <==> GoalAchiever in Achievements(s)
  {
  }

  /** A week-long streak earns Week Warrior and a streak level of at least
      Building in the progress panel. */
  lemma WeekWarriorIsBuilding(s: Summary)
    requires WeekWarrior in Achievements(s)
    ensures ProgressIndicator.Rank(ProgressIndicator.GetStreakLevel(s.currentStreak)) >= 2
  {
  }
}
