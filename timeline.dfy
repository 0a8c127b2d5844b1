/**
  One entry of the mood timeline: the mood's style with its fallback, the
  sentiment badge, the truncated previews of the content and of the AI
  insight, and the tag chips with their "+n more" overflow chip.
*/
module MoodTimelineEntry {
  import opened Js
  import Utf16Bytes

  /** The style of a mood (lines 7-38). */
  datatype MoodStyle = MoodStyle(color: string, bgColor: string, icon: string, caption: string)

  const MoodConfig: map<string, MoodStyle> := map[
    "happy" := MoodStyle("text-success", "bg-success/10", "Smile", "Happy"),
    "grateful" := MoodStyle("text-primary", "bg-primary/10", "Heart", "Grateful"),
    "neutral" := MoodStyle("text-accent", "bg-accent/10", "Minus", "Neutral"),
    "anxious" := MoodStyle("text-warning", "bg-warning/10", "Zap", "Anxious"),
    "sad" := MoodStyle("text-destructive", "bg-destructive/10", "Frown", "Sad")]

  /** `moodConfig[entry.mood] || moodConfig.neutral` (line 40); a missing mood is None. */
  function MoodFor(mood: Option<string>): (style: MoodStyle)
    ensures style in MoodConfig.Values
    ensures style.caption == "Neutral" <==> !(mood.Some? && mood.value in {"happy", "grateful", "anxious", "sad"})
    ensures mood.Some? && mood.value in MoodConfig ==> style == MoodConfig[mood.value]
  {
    if mood.Some? && mood.value in MoodConfig then MoodConfig[mood.value] else MoodConfig["neutral"]
  }

  /** The five styles are told apart by their captions. */
  lemma CaptionsDistinct(m: string, n: string)
    requires m in MoodConfig && n in MoodConfig && MoodConfig[m].caption == MoodConfig[n].caption
    ensures m == n
  {
  }

  /** The sentiment badge (lines 90-103): hidden for a missing or zero score
      (both falsy), otherwise named by the thresholds 0.3 and -0.3. */
  function SentimentBadge(score: Option<real>): (badge: Option<string>)
    ensures badge.None? <==> score.None? || score.value == 0.0
    ensures badge == Some("Positive") <==> score.Some? && score.value > 0.3
    ensures badge == Some("Negative") <==> score.Some? && score.value < -0.3
    ensures badge == Some("Neutral") <==> score.Some? && score.value != 0.0 && -0.3 <= score.value <= 0.3
  {
    if score.None? || score.value == 0.0 then None
    else if score.value > 0.3 then Some("Positive")
    else if score.value < -0.3 then Some("Negative")
    else Some("Neutral")
  }

  /** The UTF-16 code units of '...'. */
  const Ellipsis: seq<Utf16Bytes.Unit> := [46, 46, 46]

  /** `truncateContent` (lines 58-61), on code units: `length` and
      `substring` count code units, so a cut may fall inside a surrogate pair. */
  function TruncateContent(content: seq<Utf16Bytes.Unit>, maxLength: nat): (shown: seq<Utf16Bytes.Unit>)
    ensures |content| <= maxLength ==> shown == content
    ensures |content| > maxLength ==> |shown| == maxLength + 3 && shown[..maxLength] == content[..maxLength]
    ensures |content| > maxLength ==> shown[maxLength..] == Ellipsis
  {
    if |content| <= maxLength then content else content[..maxLength] + Ellipsis
  }

  /** The content preview's limit (the default, line 58) and the insight's (line 179). */
  const ContentLimit := 120
  const InsightLimit := 80

  /** Truncating a preview again changes nothing. */
  lemma TruncateIdempotent(content: seq<Utf16Bytes.Unit>, maxLength: nat)
    ensures TruncateContent(TruncateContent(content, maxLength), maxLength) == TruncateContent(content, maxLength)
  {
    if |content| > maxLength {
      var once := TruncateContent(content, maxLength);
      assert once[..maxLength] == content[..maxLength];
    }
  }

  /** A preview never holds more than the limit plus the ellipsis, and a
      preview that shows no ellipsis is the whole content. */
  lemma PreviewBounds(content: seq<Utf16Bytes.Unit>, maxLength: nat)
    ensures |TruncateContent(content, maxLength)| <= maxLength + 3
    ensures |TruncateContent(content, maxLength)| <= maxLength ==> TruncateContent(content, maxLength) == content
  {
  }

  /** The preview of a string: a string no longer than the limit is shown whole. */
  lemma ShortTextShownWhole(text: string, maxLength: nat)
    requires Utf16Bytes.JsLength(text) <= maxLength
    ensures TruncateContent(Utf16Bytes.Units(text), maxLength) == Utf16Bytes.Units(text)
  {
  }

  /** The tag chips (lines 116-130): none for missing or empty tags; else the
      first three tags and, beyond three, a chip naming how many are left. */
  datatype TagChips = TagChips(shown: seq<string>, more: Option<string>)

  function Chips(tags: Option<seq<string>>): (chips: TagChips)
    ensures tags.None? ==> chips == TagChips([], None)
    ensures tags.Some? ==> |chips.shown| == if |tags.value| < 3 then |tags.value| else 3
    ensures tags.Some? ==> chips.shown == tags.value[..|chips.shown|]
    ensures chips.more.Some? <==> tags.Some? && |tags.value| > 3
    ensures chips.more.Some? ==> chips.more.value == "+" + NatToString(|tags.value| - 3) + " more"
  {
    if tags.None? || |tags.value| == 0 then TagChips([], None)
    else
      var n := |tags.value|;
      var shown := if n < 3 then tags.value else tags.value[..3];
      TagChips(shown, if n > 3 then Some("+" + NatToString(n - 3) + " more") else None)
  }

  /** The chips account for every tag: the shown ones plus the number the
      overflow chip names. */
  lemma ChipsAccountForAll(tags: seq<string>)
    ensures Chips(Some(tags)).more.None? ==> |Chips(Some(tags)).shown| == |tags|
    ensures Chips(Some(tags)).more.Some? ==>
      exists k: nat | |Chips(Some(tags)).shown| + k == |tags| ::
        Chips(Some(tags)).more.value == "+" + NatToString(k) + " more"
  {
  }
}
