/**
  The keyword sentiment classifier that both journaling screens run on
  submit: the entry is lower-cased and tested against four keyword groups
  in a fixed order (anxious, negative, positive, reflective), three of which
  may also be forced by the selected mood; nothing matching means neutral.
  The suggested activity is looked up by the detected sentiment.
*/
module Sentiment {
  import opened Js

  datatype Sentiment = Anxious | Negative | Positive | Reflective | Neutral

  /** `text.includes(w)` for some `w` of `words`. */
  predicate AnyIncluded(text: string, words: seq<string>)
  {
    exists i | 0 <= i < |words| :: Includes(text, words[i])
  }

  const AnxiousWords := ["anxious", "worried", "stress", "afraid"]
  const NegativeWords := ["sad", "depressed", "unhappy", "miserable"]
  const PositiveWords := ["happy", "great", "wonderful", "joy"]
  const ReflectiveWords := ["think", "wonder", "question", "consider"]

  /** `selectedMood === m` (a null mood equals no string). */
  predicate MoodIs(mood: Option<string>, m: string)
  {
    mood == Some(m)
  }

  /** The classifier: the if/else chain over the lower-cased entry. */
  function Classify(entry: string, mood: Option<string>): (s: Sentiment)
    ensures s == FirstMatch(Rules, Lower(entry), mood)
  {
    ClassifyFollowsRules(Lower(entry), mood);
    Chain(Lower(entry), mood)
  }

  /** The chain of tests, in the order the source writes them. */
  function Chain(text: string, mood: Option<string>): Sentiment
  {
    if Includes(text, "anxious") || Includes(text, "worried") || Includes(text, "stress") ||
       Includes(text, "afraid") || MoodIs(mood, "struggling") then Anxious
    else if Includes(text, "sad") || Includes(text, "depressed") || Includes(text, "unhappy") ||
            Includes(text, "miserable") || MoodIs(mood, "low") then Negative
    else if Includes(text, "happy") || Includes(text, "great") || Includes(text, "wonderful") ||
            Includes(text, "joy") || MoodIs(mood, "great") then Positive
    else if Includes(text, "think") || Includes(text, "wonder") || Includes(text, "question") ||
            Includes(text, "consider") then Reflective
    else Neutral
  }

  /** One rule of the chain: a keyword group and, for three of them, a mood
      that forces the same result. */
  datatype Rule = Rule(result: Sentiment, keywords: seq<string>, mood: Option<string>)

  predicate Fires(r: Rule, text: string, mood: Option<string>)
  {
    AnyIncluded(text, r.keywords) || (r.mood.Some? && mood == r.mood)
  }

  /** The rules in the order they are tried. */
  const Rules := [Rule(Anxious, AnxiousWords, Some("struggling")),
                  Rule(Negative, NegativeWords, Some("low")),
                  Rule(Positive, PositiveWords, Some("great")),
                  Rule(Reflective, ReflectiveWords, None)]

  /** The result of the first rule that fires, or neutral. */
  function FirstMatch(rules: seq<Rule>, text: string, mood: Option<string>): Sentiment
  {
    if rules == [] then Neutral
    else if Fires(rules[0], text, mood) then rules[0].result
    else FirstMatch(rules[1..], text, mood)
  }

  /** The rule table spelled out: each group in turn, then neutral. */
  lemma RulesInOrder(text: string, mood: Option<string>)
    ensures FirstMatch(Rules, text, mood) ==
      (if AnyIncluded(text, AnxiousWords) || MoodIs(mood, "struggling") then Anxious
       else if AnyIncluded(text, NegativeWords) || MoodIs(mood, "low") then Negative
       else if AnyIncluded(text, PositiveWords) || MoodIs(mood, "great") then Positive
       else if AnyIncluded(text, ReflectiveWords) then Reflective
       else Neutral)
  {
    var r1 := Rules[1..];
    var r2 := r1[1..];
    var r3 := r2[1..];
    assert r1[0] == Rules[1] && r2[0] == Rules[2] && r3[0] == Rules[3];
    assert r3[1..] == [];
    assert FirstMatch(r3, text, mood) == if AnyIncluded(text, ReflectiveWords) then Reflective else Neutral;
    assert FirstMatch(r2, text, mood) ==
      if AnyIncluded(text, PositiveWords) || MoodIs(mood, "great") then Positive else FirstMatch(r3, text, mood);
    assert FirstMatch(r1, text, mood) ==
      if AnyIncluded(text, NegativeWords) || MoodIs(mood, "low") then Negative else FirstMatch(r2, text, mood);
  }

  lemma FourWords(text: string, words: seq<string>)
    requires |words| == 4
    ensures AnyIncluded(text, words) <==>
      Includes(text, words[0]) || Includes(text, words[1]) || Includes(text, words[2]) || Includes(text, words[3])
  {
    if AnyIncluded(text, words) {
      var i :| 0 <= i < |words| && Includes(text, words[i]);
      assert i == 0 || i == 1 || i == 2 || i == 3;
    }
  }

  /** The if/else chain and the rule table agree on every input. */
  lemma ClassifyFollowsRules(text: string, mood: Option<string>)
    ensures FirstMatch(Rules, text, mood) == Chain(text, mood)
  {
    FourWords(text, AnxiousWords);
    FourWords(text, NegativeWords);
    FourWords(text, PositiveWords);
    FourWords(text, ReflectiveWords);
    RulesInOrder(text, mood);
  }

  /** The mood alone decides in three cases: 'struggling' always gives
      anxious, 'low' gives negative unless an anxious keyword appears, and
      'great' gives positive unless an anxious or negative keyword appears. */
  lemma MoodRules(entry: string, mood: Option<string>)
    ensures MoodIs(mood, "struggling") ==> Classify(entry, mood) == Anxious
    ensures MoodIs(mood, "low") && !AnyIncluded(Lower(entry), AnxiousWords) ==> Classify(entry, mood) == Negative
    ensures MoodIs(mood, "great") && !AnyIncluded(Lower(entry), AnxiousWords) && !AnyIncluded(Lower(entry), NegativeWords)
      ==> Classify(entry, mood) == Positive
  {
    RulesInOrder(Lower(entry), mood);
  }

  /** Reflective comes from the entry's words only; the moods 'good' and
      'okay' never change the outcome, so with no keyword they give neutral. */
  lemma ReflectiveOnlyFromWords(entry: string, mood: Option<string>)
    ensures Classify(entry, mood) == Reflective ==> AnyIncluded(Lower(entry), ReflectiveWords)
    ensures MoodIs(mood, "good") || MoodIs(mood, "okay") ==> Classify(entry, mood) == Classify(entry, None)
    ensures (MoodIs(mood, "good") || MoodIs(mood, "okay")) &&
      !AnyIncluded(Lower(entry), AnxiousWords + NegativeWords + PositiveWords + ReflectiveWords)
      ==> Classify(entry, mood) == Neutral
  {
    var text := Lower(entry);
    RulesInOrder(text, mood);
    RulesInOrder(text, None);
    var all := AnxiousWords + NegativeWords + PositiveWords + ReflectiveWords;
    if !AnyIncluded(text, all) {
      forall i | 0 <= i < 4
        ensures !Includes(text, AnxiousWords[i]) && !Includes(text, NegativeWords[i])
        ensures !Includes(text, PositiveWords[i]) && !Includes(text, ReflectiveWords[i])
      {
        assert all[i] == AnxiousWords[i] && all[4 + i] == NegativeWords[i];
        assert all[8 + i] == PositiveWords[i] && all[12 + i] == ReflectiveWords[i];
      }
    }
  }

  /** Matching is on substrings and negative is tried before positive, so
      'unhappy', which contains 'happy', counts as negative. */
  lemma UnhappyIsNegative(entry: string, mood: Option<string>)
    requires Includes(Lower(entry), "unhappy")
    requires !AnyIncluded(Lower(entry), AnxiousWords) && !MoodIs(mood, "struggling")
    ensures Classify(entry, mood) == Negative
  {
    RulesInOrder(Lower(entry), mood);
    assert NegativeWords[2] == "unhappy";
  }

  /** Upper- and lower-case spellings of an entry are classified alike. */
  lemma CaseInsensitive(entry: string, mood: Option<string>)
    ensures Classify(Upper(entry), mood) == Classify(entry, mood)
    ensures Classify(Lower(entry), mood) == Classify(entry, mood)
  {
    LowerForgetsCase(entry);
  }

  /** The reply a sentiment receives, named by what it offers: a breathing
      reset, a reframing exercise, a gratitude question, exploring the
      reflection, or a visualization. Both screens open their reply with
      that offer. */
  datatype Offer = BreathingReset | ThoughtReframing | GratitudeQuestion | ExploreFurther | Visualization

  function ReplyFor(s: Sentiment): (o: Offer)
    ensures s == Anxious <==> o == BreathingReset
    ensures s == Neutral <==> o == Visualization
  {
    match s
    case Anxious => BreathingReset
    case Negative => ThoughtReframing
    case Positive => GratitudeQuestion
    case Reflective => ExploreFurther
    case Neutral => Visualization
  }

  /** The activity card suggested for a sentiment (`activities[sentiment]`). */
  datatype Activity = Activity(title: string, icon: string)

  function ActivityFor(s: Sentiment): (a: Activity)
    ensures s == Anxious <==> a.icon == "Wind"
    ensures s == Reflective <==> a.title == "Journal prompt"
  {
    match s
    case Anxious => Activity("1-minute breathing reset", "Wind")
    case Negative => Activity("Reframing thought pattern exercise", "RefreshCw")
    case Positive => Activity("Gratitude Practice", "Heart")
    case Neutral => Activity("Guided visualization", "Sparkles")
    case Reflective => Activity("Journal prompt", "PenTool")
  }

  /** Different sentiments suggest different activities. */
  lemma ActivityForInjective(s: Sentiment, t: Sentiment)
    requires ActivityFor(s) == ActivityFor(t)
    ensures s == t
  {
  }

  /** `!entry.trim() && !selectedMood`: nothing to analyse. */
  predicate NothingToSubmit(entry: string, mood: Option<string>)
  {
    Trim(entry) == "" && (mood.None? || mood.value == "")
  }

  /** An entry with a non-space character is always analysed. */
  lemma WrittenEntrySubmits(entry: string, mood: Option<string>)
    requires !AllSpace(entry)
    ensures !NothingToSubmit(entry, mood)
  {
    TrimEmptyIffAllSpace(entry);
  }
}
