/**
  The daily journaling page: an entry and an optional mood are submitted,
  classified by the keyword classifier, and answered with a reply and a
  suggested activity; "new entry" clears the page.
*/
module JournalingPage {
  import opened Js
  import opened Sentiment

  /** The classifying part of `handleSubmit` (lines 125-151): the if/else
      chain over the lower-cased entry, with the reply each branch sets. */
  method DetectSentiment(entry: string, mood: Option<string>) returns (detected: Sentiment, reply: Offer)
    ensures detected == Classify(entry, mood) && reply == ReplyFor(detected)
  {
    var text := Lower(entry);
    if Includes(text, "anxious") || Includes(text, "worried") || Includes(text, "stress") ||
       Includes(text, "afraid") || MoodIs(mood, "struggling") {
      detected, reply := Anxious, BreathingReset;
    } else if Includes(text, "sad") || Includes(text, "depressed") || Includes(text, "unhappy") ||
              Includes(text, "miserable") || MoodIs(mood, "low") {
      detected, reply := Negative, ThoughtReframing;
    } else if Includes(text, "happy") || Includes(text, "great") || Includes(text, "wonderful") ||
              Includes(text, "joy") || MoodIs(mood, "great") {
      detected, reply := Positive, GratitudeQuestion;
    } else if Includes(text, "think") || Includes(text, "wonder") || Includes(text, "question") ||
              Includes(text, "consider") {
      detected, reply := Reflective, ExploreFurther;
    } else {
      detected, reply := Neutral, Visualization;
    }
    assert detected == Chain(text, mood);
    assert Classify(entry, mood) == Chain(text, mood);
  }

  /** The page state that the submit and reset handlers change. */
  class Screen {
    var journalEntry: string
    var selectedMood: Option<string>
    var isSubmitting: bool
    var sentiment: Option<Sentiment>
    var response: Option<Offer>
    var suggestedActivity: Option<Activity>
    var showActivityDetails: bool

    constructor ()
      ensures journalEntry == "" && selectedMood.None? && !isSubmitting
      ensures sentiment.None? && response.None? && suggestedActivity.None? && !showActivityDetails
    {
      journalEntry := "";
      selectedMood := None;
      isSubmitting := false;
      sentiment := None;
      response := None;
      suggestedActivity := None;
      showActivityDetails := false;
    }

    /** `handleSubmit` (lines 113, 125-151, 153-154) once its
        mock delay is over: nothing happens for a blank entry without a mood;
        otherwise the entry is classified, the matching reply and activity are
        shown, and submission ends. */
    method HandleSubmit() returns (submitted: bool)
      modifies this
      ensures submitted <==> !NothingToSubmit(old(journalEntry), old(selectedMood))
      ensures journalEntry == old(journalEntry) && selectedMood == old(selectedMood)
      ensures showActivityDetails == old(showActivityDetails)
      ensures !submitted ==> isSubmitting == old(isSubmitting) && sentiment == old(sentiment)
      ensures !submitted ==> response == old(response) && suggestedActivity == old(suggestedActivity)
      ensures submitted ==> !isSubmitting && sentiment == Some(Classify(journalEntry, selectedMood))
      ensures submitted ==> response == Some(ReplyFor(sentiment.value)) && suggestedActivity == Some(ActivityFor(sentiment.value))
    {
      if Trim(journalEntry) == "" && (selectedMood.None? || selectedMood.value == "") {
        return false;
      }
      isSubmitting := true;
      var detected, reply := DetectSentiment(journalEntry, selectedMood);
      response := Some(reply);
      sentiment := Some(detected);
      suggestedActivity := Some(ActivityFor(detected));
      isSubmitting := false;
      return true;
    }

    /** `handleStartNewEntry` (lines 172-179). */
    method HandleStartNewEntry()
      modifies this
      ensures journalEntry == "" && selectedMood.None? && sentiment.None?
      ensures response.None? && suggestedActivity.None? && !showActivityDetails
      ensures isSubmitting == old(isSubmitting)
    {
      journalEntry := "";
      selectedMood := None;
      sentiment := None;
      response := None;
      suggestedActivity := None;
      showActivityDetails := false;
    }
  }
}
